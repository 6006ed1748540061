/**
 * src/modules/common.py (and its one-function twin src/modules/pagination.py):
 * the text sanitiser and the has-next-page test of the listing pages. The CSV
 * and JSON writers of common.py are file output and are not part of this model.
 */
module Common {
  import opened Results
  import opened Pages
  import Strings
  import WordSplit

  /** `sanitize_text` as common.py writes it: the same expression as strings.py's. */
  function SanitizeText(s: string): (r: string)
    ensures r == Strings.SanitizeText(s)
    ensures Strings.Clean(r)
    ensures r == WordSplit.JoinWords(WordSplit.Words(s))
    ensures Strings.NonSpaces(r) == Strings.NonSpaces(s)
    ensures |r| <= |s|
    ensures Strings.SanitizeText(r) == r
  {
    Strings.SanitizeTextIsClean(s);
    WordSplit.SanitizeTextJoinsWords(s);
    Strings.SanitizeTextPreserves(s);
    Strings.SanitizeTextIdempotent(s);
    Strings.SanitizeText(s)
  }

  /**
   * `check_has_next_page`: whether the pagination div holds a "next" span.
   * A page without the pagination div has nothing to call `find_all` on.
   */
  function HasNextPage(pagination: Option<seq<string>>): (r: Result<bool>)
    ensures pagination.None? ==> r == Err(AttributeError)
    ensures pagination.Some? ==> r.Ok? && (r.value <==> exists i :: 0 <= i < |pagination.value| && pagination.value[i] == "next")
  {
    match pagination
    case None => Err(AttributeError)
    case Some(classes) =>
      NextSpansNonEmpty(classes);
      Ok(|NextSpans(classes)| > 0)
  }
}

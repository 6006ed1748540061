/**
 * src/modules/lines_summary.py: the list of all the account's lines, read
 * page by page from the network page, one dictionary per table row.
 */
module LinesSummary {
  import opened Results
  import opened Strings
  import opened Pages
  import opened Sessions
  import opened Paging
  import Common

  /** The dictionary `parse_line_summary_row` builds for a line row. */
  datatype LineSummary = LineSummary(
    id: int,
    name: string,
    origin: string,
    destination: string,
    countryFlagAlt: string,
    countryFlagUrl: string,
    distance: string,
    remainingDemand: string,
    turnover: string,
    resultLast1Day: string,
    resultLast7Days: string,
    url: string)

  /** The placeholder of the seven-day result, which the row does not read. */
  const ToDo: string := "--ToDo--"

  /** The network page request for `page`. */
  function SummaryCall(page: int): (c: Call)
    ensures c.verb == Get && c.allowRedirects && c.payload.None? && c.extraHeaders.None?
    ensures c.url == BaseUrl + "/network/?page=" + IntToString(page)
  {
    Call(Get, BaseUrl + "/network/?page=" + IntToString(page), None, None, true)
  }

  /** Different pages are different requests. */
  lemma SummaryCallInjective(p: int, q: int)
    requires SummaryCall(p) == SummaryCall(q)
    ensures p == q
  {
    var prefix := BaseUrl + "/network/?page=";
    assert SummaryCall(p).url[|prefix|..] == IntToString(p);
    assert SummaryCall(q).url[|prefix|..] == IntToString(q);
    IntToStringInjective(p, q);
  }

  /**
   * `parse_line_summary_row`: None for a header row (the empty dictionary);
   * otherwise the line. The id is the integer after the link's last "/"
   * (ValueError when it is not one); origin and destination are the parts of
   * the first cell's text before and after its first "/" (IndexError when
   * there is no "/").
   */
  function ParseSummaryRow(row: SummaryRow): (r: Result<Option<LineSummary>>)
    ensures row.SummaryHeader? <==> r == Ok(None)
    ensures r.Err? <==> row.SummaryLine? && (ParseInt(LastPart(row.href, '/')).None? || |Split(row.nameText, '/')| < 2)
    ensures r.Err? ==> r.error == if ParseInt(LastPart(row.href, '/')).None? then ValueError else IndexError
  {
    match row
    case SummaryHeader => Ok(None)
    case SummaryLine(href, nameText, flagAlt, flagSrc, distanceText, demandText, turnoverText, resultText) =>
      var id := ParseInt(LastPart(href, '/'));
      if id.None? then Err(ValueError)
      else
        var parts := Split(nameText, '/');
        var destination :- PartAt(nameText, '/', 1);
        Ok(Some(LineSummary(
          id.value,
          SanitizeText(nameText),
          SanitizeText(parts[0]),
          SanitizeText(destination),
          flagAlt,
          flagSrc,
          SanitizeText(distanceText),
          SanitizeText(demandText),
          SanitizeText(turnoverText),
          SanitizeText(resultText),
          ToDo,
          href)))
  }

  /**
   * A line row whose link ends in "/<id>" and whose name is "<origin>/<destination>"
   * reads back that id, the sanitised airports and the link itself.
   */
  lemma SummaryRowReadsLine(row: SummaryRow, path: string, id: int, origin: string, destination: string)
    requires row.SummaryLine?
    requires row.href == path + "/" + IntToString(id)
    requires row.nameText == origin + "/" + destination
    requires Free(origin, '/') && Free(destination, '/')
    ensures var r := ParseSummaryRow(row);
            && r.Ok? && r.value.Some?
            && r.value.value.id == id
            && r.value.value.origin == SanitizeText(origin)
            && r.value.value.destination == SanitizeText(destination)
            && r.value.value.name == SanitizeText(row.nameText)
            && r.value.value.url == row.href
  {
    IntToStringFree(id, '/');
    assert row.href == path + ['/'] + IntToString(id);
    LastPartAfterSeparator(path, IntToString(id), '/');
    SplitOfFree(IntToString(id), '/');
    ParseIntOfIntToString(id);
    SplitTwoParts(origin, destination, '/');
  }

  /**
   * `fetch_lines_summary_from_page`: the lines of one page and whether there
   * is a next one. A page without the `displayPro` div raises ReferenceError.
   */
  function SummaryPage(o: Result<Response>): (r: Result<(seq<LineSummary>, bool)>)
    ensures o.Err? ==> r == Err(o.error)
    ensures o.Ok? && !(o.value.page.NetworkList? && o.value.page.lines.Some?) ==> r == Err(ReferenceError)
    ensures o.Ok? && o.value.page.NetworkList? && o.value.page.lines.Some? ==>
              (r.Ok? <==> ParseAll(ParseSummaryRow, o.value.page.lines.value).Ok? && o.value.page.pagination.Some?)
  {
    var resp :- o;
    if !resp.page.NetworkList? || resp.page.lines.None? then Err(ReferenceError)
    else
      var lines :- ParseAll(ParseSummaryRow, resp.page.lines.value);
      var hasNext :- Common.HasNextPage(resp.page.pagination);
      Ok((lines, hasNext))
  }

  /** The header rows of a page add nothing to its lines. */
  lemma HeaderRowsAreDropped(before: seq<SummaryRow>, after: seq<SummaryRow>)
    ensures ParseAll(ParseSummaryRow, before + [SummaryHeader] + after) == ParseAll(ParseSummaryRow, before + after)
  {
    ParseAllAppend(ParseSummaryRow, before + [SummaryHeader], after);
    ParseAllAppend(ParseSummaryRow, before, [SummaryHeader]);
    ParseAllAppend(ParseSummaryRow, before, after);
    assert ParseAll(ParseSummaryRow, [SummaryHeader]) == Ok([]);
    PrependEmpty(ParseAll(ParseSummaryRow, after));
    if ParseAll(ParseSummaryRow, before).Ok? {
      var v := ParseAll(ParseSummaryRow, before).value;
      assert v + [] == v;
      PrependTwice(v, [], ParseAll(ParseSummaryRow, after));
    }
  }

  /**
   * `fetch_lines_summary`: the lines of every page from page 1 on, saved to
   * CSV; at most `fuel` pages are requested.
   */
  function Summary(req: Requester, s: SessionState, fuel: nat): (res: (SessionState, Result<seq<LineSummary>>))
    requires Records(req)
  {
    var (s', r) := Listing(req, SummaryCall, SummaryPage, s, 1, fuel);
    (s', Exported(r))
  }

  /**
   * The summary requests the network pages 1, 2, ... in order; when it
   * succeeds, it holds the lines of all those pages in page order, the last
   * page announced no next page and every other page did.
   */
  lemma SummaryReadsPages(req: Requester, s: SessionState, fuel: nat)
    requires Records(req)
    requires fuel > 0
    ensures var (s', r) := Summary(req, s, fuel);
            && PagesFrom(CallsSince(s, s'), SummaryCall, 1)
            && ListingOutcome(SummaryPage, ExchangesSince(s, s'), Listing(req, SummaryCall, SummaryPage, s, 1, fuel).1)
            && (r.Ok? ==> r.value == AllRows(SummaryPage, ExchangesSince(s, s')) && |r.value| >= 1)
  {
    ListingCalls(req, SummaryCall, SummaryPage, s, 1, fuel);
    ListingReadsPages(req, SummaryCall, SummaryPage, s, 1, fuel);
  }

  /** `fetch_lines_summary`, through the session manager. */
  method FetchLinesSummary(sm: SessionManager, fuel: nat) returns (lines: Result<seq<LineSummary>>)
    modifies sm
    ensures Records(RequesterOf(sm.world))
    ensures (sm.State(), lines) == Summary(RequesterOf(sm.world), old(sm.State()), fuel)
  {
    var listing := FetchListing(sm, SummaryCall, SummaryPage, fuel);
    lines := Exported(listing);
  }
}

/**
 * src/modules/card_holder.py: the free card holder of the shop. The bot reads
 * the card holder page; when no countdown is shown it opens the holder (the
 * page again, the card modal, then the opening form) and reads the bonus
 * cards of the reply. Saving the result to a JSON file and logging are not
 * part of this model.
 */
module CardHolder {
  import opened Results
  import opened Strings
  import opened Pages
  import opened Sessions

  const CardHolderUrl: string := BaseUrl + "/shop/cardholder"

  /** The free card's address, written into the source as it stands. */
  const FreeCardUrl: string := BaseUrl + "/shop/buycards/5/0/Econ%C3%B4mica"

  /** The GET of the card holder page, as if followed from the home page. */
  const CardHolderCall: Call := Call(Get, CardHolderUrl, Some(map["Referer" := HomeUrl]), None, true)

  /** The GET of the free card modal, as the page's script sends it. */
  const ModalCall: Call :=
    Call(Get, FreeCardUrl,
         Some(map["Accept" := "*/*", "Authority" := "tycoon.airlines-manager.com",
                  "Referer" := CardHolderUrl, "X-Requested-With" := "XMLHttpRequest"]),
         None, true)

  /** The POST of the modal's form, carrying its id and CSRF token. */
  function OpeningCall(formId: string, token: string): (c: Call)
    ensures c.verb == Post && c.url == FreeCardUrl && c.allowRedirects
    ensures c.payload == Some(map["form[id]" := formId, "form[_token]" := token])
  {
    Call(Post, FreeCardUrl,
         Some(map["Content-Type" := "application/x-www-form-urlencoded", "Referer" := FreeCardUrl,
                  "X-Requested-With" := "XMLHttpRequest"]),
         Some(map["form[id]" := formId, "form[_token]" := token]), true)
  }

  // ------------------------------------------------------------ bonus cards

  /**
   * `get_bonus_type_from_image_src`: the bonus a card gives, read from the
   * file name of its image.
   */
  function BonusType(src: string): (t: string)
    ensures t == "RESEARCH_DOLLARS" <==> LastPart(src, '/') == "researchDollars.png"
    ensures t == "DOLLARS" <==> LastPart(src, '/') == "dollars.png"
    ensures t != "RESEARCH_DOLLARS" && t != "DOLLARS" ==> t == "UNKNOWN"
  {
    var name := LastPart(src, '/');
    if name == "researchDollars.png" then "RESEARCH_DOLLARS"
    else if name == "dollars.png" then "DOLLARS"
    else "UNKNOWN"
  }

  /** Only the segment after the last "/" decides the bonus type: the folders before it do not. */
  lemma BonusTypeIgnoresFolders(folders: string, name: string)
    ensures BonusType(folders + "/" + name) == BonusType(name)
  {
    LastPartAfterSeparator(folders, name, '/');
  }

  /** An image named `name`, in any folder, gives the type that name stands for. */
  lemma BonusTypeOfImage(folders: string, name: string)
    requires Free(name, '/')
    ensures name == "researchDollars.png" ==> BonusType(folders + "/" + name) == "RESEARCH_DOLLARS"
    ensures name == "dollars.png" ==> BonusType(folders + "/" + name) == "DOLLARS"
    ensures name != "researchDollars.png" && name != "dollars.png" ==> BonusType(folders + "/" + name) == "UNKNOWN"
  {
    BonusTypeIgnoresFolders(folders, name);
    SplitOfFree(name, '/');
  }

  /** `str(x)` of a tag's `.string`, which is None when the tag has no single text child. */
  function TextOf(x: Option<string>): string {
    if x.None? then "None" else x.value
  }

  /** The dictionary `parse_card_holder_bonus` builds. */
  datatype Bonus = Bonus(bonusType: string, bonusText: string)

  /**
   * `parse_card_holder_bonus`: a card without its title div, or a title
   * without its image, is a ReferenceError; otherwise the type comes from
   * the image and the text is the sanitised title.
   */
  function ParseBonus(card: BonusCard): (r: Result<Bonus>)
    ensures r.Err? <==> card.title.None? || card.title.value.imageSrc.None?
    ensures r.Err? ==> r.error == ReferenceError
    ensures r.Ok? ==> r.value.bonusType == BonusType(card.title.value.imageSrc.value)
  {
    match card.title
    case None => Err(ReferenceError)
    case Some(title) =>
      if title.imageSrc.None? then Err(ReferenceError)
      else Ok(Bonus(BonusType(title.imageSrc.value), SanitizeText(TextOf(title.text))))
  }

  /**
   * The text of a bonus is its title's text (the word "None" when the title
   * has no single text), sanitised: no whitespace at the ends or in runs, and
   * the same non-whitespace characters in the same order.
   */
  lemma BonusTextIsSanitised(card: BonusCard)
    requires ParseBonus(card).Ok?
    ensures var t := ParseBonus(card).value.bonusText;
            Clean(t) && NonSpaces(t) == NonSpaces(TextOf(card.title.value.text))
  {
    SanitizeTextIsClean(TextOf(card.title.value.text));
    SanitizeTextPreserves(TextOf(card.title.value.text));
  }

  /**
   * A list comprehension whose element expression may raise: one result per
   * element, in order; the first element that fails ends it with its error.
   */
  function ParseEach<R, T>(parse: R -> Result<T>, xs: seq<R>): (r: Result<seq<T>>)
    ensures r.Ok? <==> forall i :: 0 <= i < |xs| ==> parse(xs[i]).Ok?
    ensures r.Ok? ==> |r.value| == |xs| && forall i :: 0 <= i < |xs| ==> parse(xs[i]) == Ok(r.value[i])
  {
    if xs == [] then Ok([])
    else
      var rest := ParseEach(parse, xs[1..]);
      assert forall i :: 1 <= i < |xs| ==> xs[i] == xs[1..][i - 1];
      match parse(xs[0])
      case Err(e) => Err(e)
      case Ok(b) =>
        if rest.Err? then Err(rest.error)
        else Ok([b] + rest.value)
  }

  /** The error of the comprehension is that of the first element that fails. */
  lemma {:induction false} ParseEachFirstError<R, T>(parse: R -> Result<T>, xs: seq<R>, k: nat)
    requires k < |xs| && parse(xs[k]).Err?
    requires forall j :: 0 <= j < k ==> parse(xs[j]).Ok?
    ensures ParseEach(parse, xs) == Err(parse(xs[k]).error)
  {
    if k > 0 {
      assert forall j :: 0 <= j < k - 1 ==> xs[1..][j] == xs[j + 1];
      ParseEachFirstError(parse, xs[1..], k - 1);
    }
  }

  /** The dictionary `parse_card_holder_bonuses` returns. */
  datatype CardHolderResult = CardHolderResult(bonuses: seq<Bonus>, totalBonuses: int)

  /**
   * `parse_card_holder_bonuses`: the bonus cards of the opening reply. A
   * reply without the bonus container is a ReferenceError.
   */
  function ParseCardHolderBonuses(p: Page): (r: Result<CardHolderResult>)
    ensures !(p.BonusCards? && p.container.Some?) ==> r == Err(ReferenceError)
    ensures p.BonusCards? && p.container.Some? ==> (r.Ok? <==> ParseEach(ParseBonus, p.container.value).Ok?)
    ensures r.Ok? ==> r.value.totalBonuses == |r.value.bonuses| == |p.container.value|
    ensures r.Ok? ==> forall i :: 0 <= i < |p.container.value| ==> ParseBonus(p.container.value[i]) == Ok(r.value.bonuses[i])
  {
    var container := if p.BonusCards? then p.container else None;
    match container
    case None => Err(ReferenceError)
    case Some(cards) =>
      match ParseEach(ParseBonus, cards)
      case Err(e) => Err(e)
      case Ok(bonuses) => Ok(CardHolderResult(bonuses, |cards|))
  }

  // ------------------------------------------------------------ availability

  /**
   * What `is_free_card_holder_available` reads on the card holder page: a
   * page without the title div is a ReferenceError; otherwise the holder is
   * available exactly when there is no countdown.
   */
  function Availability(p: Page): (r: Result<bool>)
    ensures r.Err? <==> !(p.CardHolder? && p.hasTitle)
    ensures r.Err? ==> r.error == ReferenceError
    ensures r.Ok? ==> (r.value <==> !p.hasTimer)
  {
    if !p.CardHolder? || !p.hasTitle then Err(ReferenceError) else Ok(!p.hasTimer)
  }

  /** `is_free_card_holder_available`: one request of the card holder page. */
  function IsAvailable(req: Requester, s: SessionState): (res: (SessionState, Result<bool>))
    requires Records(req)
    ensures Extends(s, res.0) && CallsSince(s, res.0) == [CardHolderCall]
    ensures var o := res.0.exchanges[|s.exchanges|].outcome;
            && (o.Err? ==> res.1 == Err(o.error))
            && (o.Ok? ==> res.1 == Availability(o.value.page))
            && (res.1 == Ok(true) <==> o.Ok? && o.value.page.CardHolder? && o.value.page.hasTitle && !o.value.page.hasTimer)
  {
    RequestExtends(req, s, CardHolderCall);
    var (s1, o) := req(s, CardHolderCall);
    if o.Err? then (s1, Err(o.error)) else (s1, Availability(o.value.page))
  }

  // ------------------------------------------------------------ opening

  /**
   * The modal's form fields: `input['value']` on an input that is not there
   * is a TypeError (subscripting None). The token is looked up first.
   */
  function ModalForm(p: Page): (r: Result<(string, string)>)
    ensures r.Ok? <==> p.CardModal? && p.token.Some? && p.formId.Some?
    ensures r.Ok? ==> r.value == (p.formId.value, p.token.value)
    ensures r.Err? ==> r.error == TypeError
  {
    if !p.CardModal? || p.token.None? then Err(TypeError)
    else if p.formId.None? then Err(TypeError)
    else Ok((p.formId.value, p.token.value))
  }

  /**
   * `open_free_card_holder`: GET the card holder page, GET the card modal,
   * POST its form, and read the bonus cards of the reply.
   */
  function Open(req: Requester, s: SessionState): (res: (SessionState, Result<CardHolderResult>))
    requires Records(req)
    ensures Extends(s, res.0)
    ensures var cs := CallsSince(s, res.0);
            && 1 <= |cs| <= 3 && cs[0] == CardHolderCall
            && (|cs| >= 2 ==> cs[1] == ModalCall)
            && (|cs| == 3 ==> cs[2].verb == Post && cs[2].url == FreeCardUrl)
            && (res.1.Ok? ==> |cs| == 3)
  {
    RequestExtends(req, s, CardHolderCall);
    var (s1, o1) := req(s, CardHolderCall);
    if o1.Err? then (s1, Err(o1.error))
    else
      RequestExtends(req, s1, ModalCall);
      var (s2, o2) := req(s1, ModalCall);
      CallsSinceChain(s, s1, s2);
      if o2.Err? then (s2, Err(o2.error))
      else match ModalForm(o2.value.page)
        case Err(e) => (s2, Err(e))
        case Ok(form) =>
          var call := OpeningCall(form.0, form.1);
          RequestExtends(req, s2, call);
          var (s3, o3) := req(s2, call);
          CallsSinceChain(s, s2, s3);
          if o3.Err? then (s3, Err(o3.error))
          else (s3, ParseCardHolderBonuses(o3.value.page))
  }

  /**
   * What the opening sends and reads: the POST carries the modal's form id
   * and token, and is sent exactly when the modal has both; the result is
   * the bonus cards of the POST's reply.
   */
  lemma OpenOutcome(req: Requester, s: SessionState)
    requires Records(req)
    ensures var res := Open(req, s);
            var cs := CallsSince(s, res.0);
            var xs := res.0.exchanges[|s.exchanges|..];
            && (|cs| == 3 <==> xs[0].outcome.Ok? && xs[1].outcome.Ok? && ModalForm(xs[1].outcome.value.page).Ok?)
            && (|cs| == 3 ==> var form := ModalForm(xs[1].outcome.value.page).value;
                              cs[2] == OpeningCall(form.0, form.1)
                              && (xs[2].outcome.Ok? ==> res.1 == ParseCardHolderBonuses(xs[2].outcome.value.page)))
  {
    var res := Open(req, s);
    var (s1, o1) := req(s, CardHolderCall);
    RequestExtends(req, s, CardHolderCall);
    assert s1.exchanges[|s.exchanges|] == Exchange(CardHolderCall, o1);
    if o1.Ok? {
      var (s2, o2) := req(s1, ModalCall);
      RequestExtends(req, s1, ModalCall);
      assert s2.exchanges[|s1.exchanges|] == Exchange(ModalCall, o2);
      CallsSinceChain(s, s1, s2);
      assert s2.exchanges[|s.exchanges|] == s1.exchanges[|s.exchanges|];
      if o2.Ok? && ModalForm(o2.value.page).Ok? {
        var form := ModalForm(o2.value.page).value;
        var call := OpeningCall(form.0, form.1);
        var (s3, o3) := req(s2, call);
        RequestExtends(req, s2, call);
        CallsSinceChain(s, s2, s3);
        assert s3.exchanges[..|s2.exchanges|] == s2.exchanges;
        assert s3.exchanges[|s2.exchanges|] == Exchange(call, o3);
        assert res.0 == s3;
      } else {
        assert res.0 == s2;
      }
    } else {
      assert res.0 == s1;
    }
  }

  /**
   * `get_free_card_holder_if_available`: the holder is opened only when the
   * card holder page says it is available; the result is what would be
   * logged, None when nothing was opened.
   */
  function GetIfAvailable(req: Requester, s: SessionState): (res: (SessionState, Result<Option<CardHolderResult>>))
    requires Records(req)
    ensures Extends(s, res.0)
    ensures var cs := CallsSince(s, res.0);
            var (s1, available) := IsAvailable(req, s);
            && |cs| >= 1 && cs[0] == CardHolderCall
            && (available == Ok(true) <==> |cs| > 1)
            && (available == Ok(true) ==> cs[1..] == CallsSince(s1, Open(req, s1).0) && res.1.Ok? == Open(req, s1).1.Ok?)
            && (available == Ok(false) ==> res.1 == Ok(None))
            && (available.Err? ==> res.1 == Err(available.error))
  {
    var (s1, available) := IsAvailable(req, s);
    if available.Err? then (s1, Err(available.error))
    else if !available.value then (s1, Ok(None))
    else
      var (s2, outcome) := Open(req, s1);
      CallsSinceChain(s, s1, s2);
      match outcome
      case Err(e) => (s2, Err(e))
      case Ok(result) => (s2, Ok(Some(result)))
  }

  // ------------------------------------------------------------ the requests

  /** `is_free_card_holder_available(session_manager)`. */
  method IsFreeCardHolderAvailable(sm: SessionManager) returns (available: Result<bool>)
    modifies sm
    ensures (sm.State(), available) == IsAvailable(RequesterOf(sm.world), old(sm.State()))
  {
    var page := sm.Request(CardHolderCall);
    if page.Err? {
      return Err(page.error);
    }
    available := Availability(page.value.page);
  }

  /** `open_free_card_holder(session_manager)`. */
  method OpenFreeCardHolder(sm: SessionManager) returns (result: Result<CardHolderResult>)
    modifies sm
    ensures (sm.State(), result) == Open(RequesterOf(sm.world), old(sm.State()))
  {
    var page := sm.Request(CardHolderCall);
    if page.Err? {
      return Err(page.error);
    }
    var modal := sm.Request(ModalCall);
    if modal.Err? {
      return Err(modal.error);
    }
    var form := ModalForm(modal.value.page);
    if form.Err? {
      return Err(form.error);
    }
    var reply := sm.Request(OpeningCall(form.value.0, form.value.1));
    if reply.Err? {
      return Err(reply.error);
    }
    result := ParseCardHolderBonuses(reply.value.page);
  }

  /** `get_free_card_holder_if_available(session_manager)`. */
  method GetFreeCardHolderIfAvailable(sm: SessionManager) returns (result: Result<Option<CardHolderResult>>)
    modifies sm
    ensures (sm.State(), result) == GetIfAvailable(RequesterOf(sm.world), old(sm.State()))
  {
    var available := IsFreeCardHolderAvailable(sm);
    if available.Err? {
      return Err(available.error);
    }
    if !available.value {
      return Ok(None);
    }
    var holder := OpenFreeCardHolder(sm);
    if holder.Err? {
      return Err(holder.error);
    }
    result := Ok(Some(holder.value));
  }
}

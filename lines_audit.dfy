/**
 * src/modules/lines_audit.py: ordering an internal audit of a line's prices,
 * and pushing the line's ideal prices to the game. Neither touches the line:
 * the methods below may change the session manager only.
 */
module LinesAudit {
  import opened Results
  import opened Strings
  import opened Pages
  import opened Sessions
  import Lines
  import LineObjects
  import CategorizedValues

  type LineRecord = Lines.LineRecord
  type CategorizedValue = CategorizedValues.CategorizedValue

  /** The pricing page of a line; `{line.id}` renders a missing id as "None". */
  function PricingUrl(id: Option<int>): string {
    BaseUrl + "/marketing/pricing/" + OptionalIntToString(id)
  }

  /** The audit request: a GET that must not follow the redirect it expects. */
  function AuditCall(id: Option<int>): (c: Call)
    ensures c.verb == Get && !c.allowRedirects && c.payload.None?
  {
    Call(Get, BaseUrl + "/marketing/internalaudit/line/" + OptionalIntToString(id) + "?fromPricing=1",
         Some(map["Referer" := PricingUrl(id) + "/"]), None, false)
  }

  /** The GET of a line's pricing page, as `update_line_cost` and `update_marketing_data` both send it. */
  function PricingCall(id: Option<int>): (c: Call)
    ensures c.verb == Get && c.url == PricingUrl(id) && c.allowRedirects && c.payload.None?
  {
    Call(Get, PricingUrl(id), Some(map["Referer" := BaseUrl + "/network/showline/" + OptionalIntToString(id) + "/"]), None, true)
  }

  /** The POST of new prices to a line's pricing page. */
  function PriceUpdateCall(id: Option<int>, payload: map<string, string>): (c: Call)
    ensures c.verb == Post && c.url == PricingUrl(id) && c.payload == Some(payload)
  {
    Call(Post, PricingUrl(id),
         Some(map["Content-Type" := "application/x-www-form-urlencoded", "Referer" := PricingUrl(id) + "/"]),
         Some(payload), true)
  }

  /**
   * `update_line_audit_data`: one audit request; the audit went through iff
   * the answer is a 302, any other status is a ReferenceError.
   */
  function Audited(req: Requester, s: SessionState, r: LineRecord): (res: (SessionState, Option<Error>))
    requires Records(req)
    ensures Extends(s, res.0) && CallsSince(s, res.0) == [AuditCall(r.id)]
    ensures var o := res.0.exchanges[|s.exchanges|].outcome;
            (res.1.None? <==> o.Ok? && o.value.status == 302)
            && (o.Ok? && o.value.status != 302 ==> res.1 == Some(ReferenceError))
  {
    RequestExtends(req, s, AuditCall(r.id));
    var (s1, o) := req(s, AuditCall(r.id));
    if o.Err? then (s1, Some(o.error))
    else if o.value.status != 302 then (s1, Some(ReferenceError))
    else (s1, None)
  }

  /** The pricing div of a page, absent from any page that is not a pricing page. */
  function PricingOf(p: Page): Option<LinePricing> {
    if p.Pricing? then p.pricing else None
  }

  /**
   * The token lookup of `update_line_cost` as written: the guard meant for a
   * missing token input tests the pricing div again, which was found, so it
   * never fires; a missing input then fails on `None['value']`.
   */
  function TokenAsWritten(div: LinePricing): (r: Result<string>)
    ensures div.tokenInput.Some? ==> r == Ok(div.tokenInput.value)
  {
    // The guard between the lookup and the read tests the div that was found, so no branch for it.
    if div.tokenInput.None? then Err(TypeError) else Ok(div.tokenInput.value)
  }

  /** The token lookup as intended: a missing token input is a ReferenceError. */
  function Token(div: LinePricing): (r: Result<string>)
    ensures r.Ok? <==> div.tokenInput.Some?
    ensures r.Ok? ==> r.value == div.tokenInput.value
    ensures r.Err? ==> r.error == ReferenceError
  {
    if div.tokenInput.None? then Err(ReferenceError) else Ok(div.tokenInput.value)
  }

  /** A pricing div without the token input: TypeError as written, where the guard meant a ReferenceError. */
  lemma TokenGuardNeverFires(div: LinePricing)
    requires div.tokenInput.None?
    ensures TokenAsWritten(div) == Err(TypeError)
    ensures Token(div) == Err(ReferenceError)
  {
  }

  /** The price form: the four ideal buckets and the token. */
  function PricePayload(ideal: CategorizedValue, token: string): (m: map<string, string>)
    ensures m.Keys == {"line[priceEco]", "line[priceBus]", "line[priceFirst]", "line[priceCargo]", "line[_token]"}
    ensures ParseInt(m["line[priceEco]"]) == Some(ideal.economic) && ParseInt(m["line[priceBus]"]) == Some(ideal.executive)
    ensures ParseInt(m["line[priceFirst]"]) == Some(ideal.firstClass) && ParseInt(m["line[priceCargo]"]) == Some(ideal.cargo)
    ensures m["line[_token]"] == token
  {
    ParseIntOfIntToString(ideal.economic);
    ParseIntOfIntToString(ideal.executive);
    ParseIntOfIntToString(ideal.firstClass);
    ParseIntOfIntToString(ideal.cargo);
    map["line[priceEco]" := IntToString(ideal.economic), "line[priceBus]" := IntToString(ideal.executive),
        "line[priceFirst]" := IntToString(ideal.firstClass), "line[priceCargo]" := IntToString(ideal.cargo),
        "line[_token]" := token]
  }

  /**
   * `update_line_cost`: GET the pricing page, then POST the ideal prices with
   * the page's token. Nothing is raised only when the POST is made, and the
   * POST is made exactly when the pricing div, its token input and the line's
   * ideal cost are all there. The token lookup is the corrected `Token`.
   */
  function CostUpdated(req: Requester, s: SessionState, r: LineRecord): (res: (SessionState, Option<Error>))
    requires Records(req)
    ensures Extends(s, res.0)
    ensures var cs := CallsSince(s, res.0);
            1 <= |cs| <= 2 && cs[0] == PricingCall(r.id)
            && (res.1.None? ==> |cs| == 2)
            && (|cs| == 2 ==> cs[1].verb == Post && cs[1].url == PricingUrl(r.id))
  {
    RequestExtends(req, s, PricingCall(r.id));
    var (s1, o) := req(s, PricingCall(r.id));
    if o.Err? then (s1, Some(o.error))
    else match PricingOf(o.value.page)
      case None => (s1, Some(ReferenceError))
      case Some(div) =>
        match Token(div)
        case Err(e) => (s1, Some(e))
        case Ok(token) =>
          if r.idealCost.None? then (s1, Some(AttributeError))
          else
            var call := PriceUpdateCall(r.id, PricePayload(r.idealCost.value, token));
            RequestExtends(req, s1, call);
            var (s2, o2) := req(s1, call);
            CallsSinceChain(s, s1, s2);
            if o2.Err? then (s2, Some(o2.error)) else (s2, None)
  }

  /**
   * What `update_line_cost` does with the pricing page: a missing div is a
   * ReferenceError, a missing token input is the corrected ReferenceError, the
   * POST carries the line's ideal prices and the page's token, and a failing
   * POST is raised.
   */
  lemma CostUpdatedOutcome(req: Requester, s: SessionState, r: LineRecord)
    requires Records(req)
    ensures var res := CostUpdated(req, s, r);
            var cs := CallsSince(s, res.0);
            var o := res.0.exchanges[|s.exchanges|].outcome;
            var div := if o.Ok? then PricingOf(o.value.page) else None;
            (o.Err? ==> res.1 == Some(o.error))
            && (o.Ok? && div.None? ==> res.1 == Some(ReferenceError))
            && (div.Some? && div.value.tokenInput.None? ==> res.1 == Some(ReferenceError))
            && (div.Some? && div.value.tokenInput.Some? && r.idealCost.None? ==> res.1 == Some(AttributeError))
            && (|cs| == 2 <==> div.Some? && div.value.tokenInput.Some? && r.idealCost.Some?)
            && (|cs| == 2 ==> cs[1] == PriceUpdateCall(r.id, PricePayload(r.idealCost.value, div.value.tokenInput.value)))
            && (|cs| == 2 ==> var o2 := res.0.exchanges[|s.exchanges| + 1].outcome;
                                res.1 == (if o2.Ok? then None else Some(o2.error)))
  {
    var (s1, o) := req(s, PricingCall(r.id));
    assert s1.exchanges[|s.exchanges|].outcome == o;
    var res := CostUpdated(req, s, r);
    if CallsSince(s, res.0) != [PricingCall(r.id)] {
      var call := PriceUpdateCall(r.id, PricePayload(r.idealCost.value, PricingOf(o.value.page).value.tokenInput.value));
      var s2 := req(s1, call).0;
      RequestExtends(req, s1, call);
      CallsSinceChain(s, s1, s2);
      assert s2.exchanges[|s.exchanges|] == s1.exchanges[|s.exchanges|];
      assert s2.exchanges[|s.exchanges| + 1].outcome == req(s1, call).1;
    }
  }

  /** `update_line_audit_data(line, session_manager)`. */
  method UpdateLineAuditData(line: LineObjects.Line, sm: SessionManager) returns (err: Option<Error>)
    modifies sm
    ensures (sm.State(), err) == Audited(RequesterOf(sm.world), old(sm.State()), line.Record())
  {
    var outcome := sm.Request(AuditCall(line.id));
    if outcome.Err? {
      return Some(outcome.error);
    }
    if outcome.value.status != 302 {
      return Some(ReferenceError);
    }
    return None;
  }

  /** `update_line_cost(line, session_manager)`. */
  method UpdateLineCost(line: LineObjects.Line, sm: SessionManager) returns (err: Option<Error>)
    modifies sm
    ensures (sm.State(), err) == CostUpdated(RequesterOf(sm.world), old(sm.State()), line.Record())
  {
    var page := sm.Request(PricingCall(line.id));
    if page.Err? {
      return Some(page.error);
    }
    var div := PricingOf(page.value.page);
    if div.None? {
      return Some(ReferenceError);
    }
    var token := Token(div.value);
    if token.Err? {
      return Some(token.error);
    }
    if line.idealCost.None? {
      return Some(AttributeError);
    }
    // The session and the verb that made the GET go through make the POST go through too.
    var _ := sm.Request(PriceUpdateCall(line.id, PricePayload(line.idealCost.value, token.value)));
    return None;
  }
}

/**
 * src/modules/lines_data.py: refreshing one line from the game. The basic
 * refresh reads the line page (airports, distance, taxes, names); the
 * marketing refresh reads the pricing page (demand, prices, audit data,
 * whether prices may be changed). `update_line_data` runs them in a fixed
 * order, orders an audit when the reliability is above 50, pushes the ideal
 * prices when they differ from the current ones, then stamps and saves.
 *
 * Each step is a function of the world, the session manager's state and the
 * line's attributes; each method updates the objects as the function says.
 */
module LinesData {
  import opened Results
  import opened Json
  import opened Strings
  import opened Storage
  import opened Pages
  import opened Sessions
  import Airports
  import CategorizedValues
  import Lines
  import LineObjects
  import LinesAudit

  type LineRecord = Lines.LineRecord
  type Airport = Airports.Airport

  /** A step of the refresh: the manager's state, the line's attributes, and what was raised. */
  datatype Step = Step(session: SessionState, line: LineRecord, error: Option<Error>)

  /** The line page request. */
  function ShowLineCall(id: Option<int>): (c: Call)
    ensures c.verb == Get && c.allowRedirects && c.payload.None?
  {
    Call(Get, BaseUrl + "/network/showline/" + OptionalIntToString(id), Some(map["Referer" := BaseUrl + "/network/"]), None, true)
  }

  /** The `content` div of a page, absent from any page that is not a line page. */
  function ContentOf(p: Page): Option<LineDetails> {
    if p.ShowLine? then p.content else None
  }

  /** The dictionary `update_basic_data` builds an airport from. */
  function AirportDict(abbrev: string, name: string): map<string, Value> {
    map["abbrev" := Str(abbrev), "name" := Str(name)]
  }

  /** The airport `create_airport_from_dict` makes of that dictionary. */
  function AirportOf(abbrev: string, name: string): Airport {
    Airports.Airport(Some(abbrev), Some(name))
  }

  /** `create_airport_from_dict` accepts the dictionary and fills both attributes from it. */
  lemma AirportOfIsCreated(abbrev: string, name: string)
    ensures Airports.CreateAirportFromDict(AirportDict(abbrev, name)) == Ok(AirportOf(abbrev, name))
  {
    assert Airports.IsAirportDict(AirportDict(abbrev, name));
  }

  /**
   * The airport of a box text "ABBREV / Name": the sanitised texts before the
   * first "/" and between it and the next one; a text without "/" has no
   * second part (IndexError).
   */
  function AirportFromText(text: string): (r: Result<Airport>)
    ensures r.Ok? <==> |Split(text, '/')| >= 2
    ensures r.Err? ==> r.error == IndexError
    ensures r.Ok? ==> r.value.abbrev == Some(SanitizeText(Split(text, '/')[0]))
                      && r.value.name == Some(SanitizeText(Split(text, '/')[1]))
  {
    var name :- PartAt(text, '/', 1);
    Ok(AirportOf(SanitizeText(Split(text, '/')[0]), SanitizeText(name)))
  }

  /** An airport written as "ABBREV / Name" reads back as that airport, whatever the spacing around the slash. */
  lemma AirportFromTextReadsBack(abbrev: string, name: string)
    requires Free(abbrev, '/') && Free(name, '/')
    ensures AirportFromText(abbrev + " / " + name)
            == Ok(Airports.Airport(Some(SanitizeText(abbrev + " ")), Some(SanitizeText(" " + name))))
  {
    var text := abbrev + " / " + name;
    assert text == (abbrev + " ") + ['/'] + (" " + name);
    SplitAround(abbrev + " ", " " + name, '/');
    SplitOfJoin([abbrev + " "], '/');
    SplitOfJoin([" " + name], '/');
  }

  /** The attributes the basic refresh never writes. */
  predicate KeepsMarketing(a: LineRecord, b: LineRecord) {
    a.id == b.id && a.totalDemand == b.totalDemand && a.idealCost == b.idealCost && a.turnover == b.turnover
    && a.currentCost == b.currentCost && a.internalAuditCost == b.internalAuditCost && a.lastAuditDate == b.lastAuditDate
    && a.reliabilityLevel == b.reliabilityLevel && a.canUpdatePrices == b.canUpdatePrices && a.lastUpdatedAt == b.lastUpdatedAt
  }

  /** The attributes the marketing refresh never writes. */
  predicate KeepsBasic(a: LineRecord, b: LineRecord) {
    a.id == b.id && a.name == b.name && a.displayName == b.displayName && a.origin == b.origin
    && a.destination == b.destination && a.distanceKm == b.distanceKm && a.taxes == b.taxes && a.lastUpdatedAt == b.lastUpdatedAt
  }

  /**
   * The assignments of `update_basic_data` from the line page's content, in
   * the order they happen: an airport text without "/" or a missing title
   * stops it with the earlier assignments made.
   */
  function BasicUpdate(r: LineRecord, det: LineDetails): (res: (LineRecord, Option<Error>))
    ensures KeepsMarketing(r, res.0)
    ensures res.0.distanceKm == det.distanceKm && res.0.taxes == det.taxes
    ensures var origin := AirportFromText(SanitizeText(det.originText));
            var destination := AirportFromText(SanitizeText(det.destinationText));
            (res.1.None? <==> origin.Ok? && destination.Ok? && det.title.Some?)
            && (origin.Err? ==> res.1 == Some(IndexError) && res.0.origin == r.origin && res.0.name == r.name)
            && (res.1.None? ==>
                  res.0.origin == Some(origin.value) && res.0.destination == Some(destination.value)
                  && res.0.displayName == Some(SanitizeText(det.title.value))
                  && res.0.name == Some(origin.value.abbrev.value + " / " + destination.value.abbrev.value))
  {
    var originText := SanitizeText(det.originText);
    var destinationText := SanitizeText(det.destinationText);
    var r1 := r.(distanceKm := det.distanceKm, taxes := det.taxes);
    match AirportFromText(originText)
    case Err(e) => (r1, Some(e))
    case Ok(origin) =>
      var r2 := r1.(origin := Some(origin));
      match AirportFromText(destinationText)
      case Err(e) => (r2, Some(e))
      case Ok(destination) =>
        var r3 := r2.(destination := Some(destination));
        if det.title.None? then (r3, Some(AttributeError))
        else (r3.(displayName := Some(SanitizeText(det.title.value)),
                  name := Some(origin.abbrev.value + " / " + destination.abbrev.value)), None)
  }

  /** `update_basic_data`: the line page request, then the basic assignments; no content div is a ReferenceError. */
  function Basic(req: Requester, s: SessionState, r: LineRecord): (res: Step)
    requires Records(req)
    ensures Extends(s, res.session) && CallsSince(s, res.session) == [ShowLineCall(r.id)]
    ensures KeepsMarketing(r, res.line)
  {
    RequestExtends(req, s, ShowLineCall(r.id));
    var (s1, o) := req(s, ShowLineCall(r.id));
    if o.Err? then Step(s1, r, Some(o.error))
    else match ContentOf(o.value.page)
      case None => Step(s1, r, Some(ReferenceError))
      case Some(det) =>
        var (r', e) := BasicUpdate(r, det);
        Step(s1, r', e)
  }

  /**
   * What the basic refresh does with the line page's answer: a failed request
   * or a page without content leaves the line as it was, a content div is
   * read by the basic assignments.
   */
  lemma BasicOutcome(req: Requester, s: SessionState, r: LineRecord)
    requires Records(req)
    ensures var res := Basic(req, s, r);
            var o := res.session.exchanges[|s.exchanges|].outcome;
            (o.Err? ==> res.line == r && res.error == Some(o.error))
            && (o.Ok? && ContentOf(o.value.page).None? ==> res.line == r && res.error == Some(ReferenceError))
            && (o.Ok? && ContentOf(o.value.page).Some? ==> (res.line, res.error) == BasicUpdate(r, ContentOf(o.value.page).value))
  {
    var (s1, o) := req(s, ShowLineCall(r.id));
    assert s1.exchanges[|s.exchanges|].outcome == o;
  }

  /**
   * The assignments of `update_marketing_data` from the pricing div, in order:
   * the four value groups, the audit cost (a missing input is a TypeError, a
   * non-number a ValueError), the audit date (ValueError when it does not
   * parse), the reliability and whether the prices form is there.
   */
  function MarketingUpdate(r: LineRecord, p: LinePricing): (res: (LineRecord, Option<Error>))
    ensures KeepsBasic(r, res.0)
    ensures res.0.totalDemand == Some(p.demand) && res.0.idealCost == Some(p.idealCost)
            && res.0.turnover == Some(p.turnover) && res.0.currentCost == Some(p.currentCost)
    ensures p.auditCostInput.None? ==> res.1 == Some(TypeError)
    ensures p.auditCostInput.Some? && ParseInt(p.auditCostInput.value).None? ==> res.1 == Some(ValueError)
    ensures res.1.None? <==> p.auditCostInput.Some? && ParseInt(p.auditCostInput.value).Some? && p.lastAuditDate.Some?
    ensures res.1.None? ==>
              res.0.internalAuditCost == ParseInt(p.auditCostInput.value) && res.0.lastAuditDate == p.lastAuditDate
              && res.0.reliabilityLevel == p.reliability && (res.0.canUpdatePrices <==> p.hasForm)
  {
    var r1 := r.(totalDemand := Some(p.demand), idealCost := Some(p.idealCost),
                 turnover := Some(p.turnover), currentCost := Some(p.currentCost));
    if p.auditCostInput.None? then (r1, Some(TypeError))
    else match ParseInt(p.auditCostInput.value)
      case None => (r1, Some(ValueError))
      case Some(cost) =>
        var r2 := r1.(internalAuditCost := Some(cost));
        if p.lastAuditDate.None? then (r2, Some(ValueError))
        else (r2.(lastAuditDate := p.lastAuditDate, reliabilityLevel := p.reliability, canUpdatePrices := p.hasForm), None)
  }

  /** `update_marketing_data`: the pricing page request, then the marketing assignments; no pricing div is a ReferenceError. */
  function Marketing(req: Requester, s: SessionState, r: LineRecord): (res: Step)
    requires Records(req)
    ensures Extends(s, res.session) && CallsSince(s, res.session) == [LinesAudit.PricingCall(r.id)]
    ensures KeepsBasic(r, res.line)
  {
    RequestExtends(req, s, LinesAudit.PricingCall(r.id));
    var (s1, o) := req(s, LinesAudit.PricingCall(r.id));
    if o.Err? then Step(s1, r, Some(o.error))
    else match LinesAudit.PricingOf(o.value.page)
      case None => Step(s1, r, Some(ReferenceError))
      case Some(p) =>
        var (r', e) := MarketingUpdate(r, p);
        Step(s1, r', e)
  }

  /**
   * What the marketing refresh does with the pricing page's answer: a failed
   * request or a page without the pricing div leaves the line as it was, the
   * div is read by the marketing assignments.
   */
  lemma MarketingOutcome(req: Requester, s: SessionState, r: LineRecord)
    requires Records(req)
    ensures var res := Marketing(req, s, r);
            var o := res.session.exchanges[|s.exchanges|].outcome;
            (o.Err? ==> res.line == r && res.error == Some(o.error))
            && (o.Ok? && LinesAudit.PricingOf(o.value.page).None? ==> res.line == r && res.error == Some(ReferenceError))
            && (o.Ok? && LinesAudit.PricingOf(o.value.page).Some? ==>
                  (res.line, res.error) == MarketingUpdate(r, LinesAudit.PricingOf(o.value.page).value))
  {
    var (s1, o) := req(s, LinesAudit.PricingCall(r.id));
    assert s1.exchanges[|s.exchanges|].outcome == o;
  }

  /** `line.ideal_cost != line.current_cost`, through the per-bucket `__eq__` once both are set. */
  predicate PricesDiffer(r: LineRecord) {
    if r.idealCost.Some? && r.currentCost.Some? then !CategorizedValues.Equals(r.idealCost.value, r.currentCost.value)
    else r.idealCost != r.currentCost
  }

  /** The push condition of `update_line_data`. */
  predicate NeedsPricePush(r: LineRecord) {
    r.canUpdatePrices && PricesDiffer(r)
  }

  /** The two refreshes `update_line_data` always starts with: basic, then marketing. */
  function Refreshed(req: Requester, s: SessionState, r: LineRecord): (res: Step)
    requires Records(req)
    ensures Extends(s, res.session) && res.line.id == r.id
    ensures var cs := CallsSince(s, res.session);
            1 <= |cs| <= 2 && cs[0] == ShowLineCall(r.id)
            && (res.error.None? ==> cs == [ShowLineCall(r.id), LinesAudit.PricingCall(r.id)])
  {
    var b := Basic(req, s, r);
    assert CallsSince(s, b.session) == [ShowLineCall(r.id)];
    if b.error.Some? then b
    else
      var m := Marketing(req, b.session, b.line);
      assert CallsSince(b.session, m.session) == [LinesAudit.PricingCall(r.id)];
      CallsSinceChain(s, b.session, m.session);
      assert CallsSince(s, m.session) == [ShowLineCall(r.id)] + [LinesAudit.PricingCall(r.id)];
      m
  }

  /** The audit when the reliability level is above 50; a missing level cannot be compared (TypeError). */
  function AuditIfUnreliable(req: Requester, s: SessionState, r: LineRecord): (res: (SessionState, Option<Error>))
    requires Records(req)
    ensures Extends(s, res.0)
    ensures r.reliabilityLevel.None? ==> res == (s, Some(TypeError))
    ensures r.reliabilityLevel.Some? ==>
              CallsSince(s, res.0) == (if r.reliabilityLevel.value > 50 then [LinesAudit.AuditCall(r.id)] else [])
  {
    if r.reliabilityLevel.None? then (s, Some(TypeError))
    else if r.reliabilityLevel.value > 50 then LinesAudit.Audited(req, s, r)
    else (s, None)
  }

  /** The price push: the cost update, then the marketing refresh again. */
  function PricePush(req: Requester, s: SessionState, r: LineRecord): (res: Step)
    requires Records(req)
    ensures Extends(s, res.session)
    ensures var cs := CallsSince(s, res.session);
            1 <= |cs| <= 3 && cs[0] == LinesAudit.PricingCall(r.id)
            && (res.error.None? ==>
                  |cs| == 3 && cs[1].verb == Post && cs[1].url == LinesAudit.PricingUrl(r.id)
                  && cs[2] == LinesAudit.PricingCall(r.id))
  {
    var (s1, e) := LinesAudit.CostUpdated(req, s, r);
    if e.Some? then Step(s1, r, e)
    else
      var m := Marketing(req, s1, r);
      CallsSinceChain(s, s1, m.session);
      m
  }

  /** The price push when the refreshed line may update its prices and they differ, nothing otherwise. */
  function PushIfDiffer(req: Requester, s: SessionState, r: LineRecord): (res: Step)
    requires Records(req)
    ensures Extends(s, res.session)
    ensures !NeedsPricePush(r) ==> res == Step(s, r, None)
  {
    if NeedsPricePush(r) then PricePush(req, s, r) else Step(s, r, None)
  }

  /**
   * The requests of `update_line_data`, before the stamp: the two refreshes,
   * the audit when the reliability is above 50 and the price push when it is
   * needed. The first error stops it.
   */
  function Processed(req: Requester, s: SessionState, r: LineRecord): (res: Step)
    requires Records(req)
    ensures Extends(s, res.session)
  {
    var m := Refreshed(req, s, r);
    if m.error.Some? then m
    else
      var (s3, e3) := AuditIfUnreliable(req, m.session, m.line);
      CallsSinceChain(s, m.session, s3);
      if e3.Some? then Step(s3, m.line, e3)
      else
        var p := PushIfDiffer(req, s3, m.line);
        CallsSinceChain(s, s3, p.session);
        p
  }

  /** Everything `update_line_data` leaves behind: the manager, the line, the files and what was raised. */
  datatype Update = Update(session: SessionState, line: LineRecord, files: map<string, FileContent>, error: Option<Error>)

  /** The line stamped with the current time, as `update_line_data` does before saving it. */
  function Stamped(w: World, s: SessionState, r: LineRecord): (r': LineRecord)
    ensures r'.lastUpdatedAt == Some(w.clock(s.log))
    ensures r' == r.(lastUpdatedAt := r'.lastUpdatedAt)
  {
    r.(lastUpdatedAt := Some(w.clock(s.log)))
  }

  /**
   * `update_line_data`: the requests of `Processed`, then `last_updated_at`
   * set to the current time and the line persisted. An error stops it, and
   * the line is then not persisted.
   */
  function Reconciled(w: World, s: SessionState, r: LineRecord, files: map<string, FileContent>): (u: Update)
    ensures u.session == Processed(RequesterOf(w), s, r).session
    ensures u.error.Some? ==> u.files == files
    ensures Processed(RequesterOf(w), s, r).error.Some? ==> u.error == Processed(RequesterOf(w), s, r).error && u.line == Processed(RequesterOf(w), s, r).line
  {
    DoRequestRecords(w);
    var p := Processed(RequesterOf(w), s, r);
    if p.error.Some? then Update(p.session, p.line, files, p.error)
    else
      var stamped := Stamped(w, p.session, p.line);
      match Lines.Persisted(stamped, files, w.env)
      case Err(e) => Update(p.session, stamped, files, Some(e))
      case Ok(written) => Update(p.session, stamped, written, None)
  }

  /**
   * The requests of a run of `update_line_data` that got past them, in order:
   * the line page, the pricing page, the audit exactly when `audit`, and
   * exactly when `push`, the pricing page, the price POST and the pricing page
   * again.
   */
  predicate RunShape(cs: seq<Call>, id: Option<int>, audit: bool, push: bool) {
    var k := if audit then 3 else 2;
    |cs| == k + (if push then 3 else 0)
    && cs[0] == ShowLineCall(id) && cs[1] == LinesAudit.PricingCall(id)
    && (audit ==> cs[2] == LinesAudit.AuditCall(id))
    && (push ==>
          cs[k] == LinesAudit.PricingCall(id) && cs[k + 1].verb == Post
          && cs[k + 1].url == LinesAudit.PricingUrl(id) && cs[k + 2] == LinesAudit.PricingCall(id))
  }

  /** The three stretches of a run (the refreshes, the audit, the push) put together have the run's shape. */
  lemma RunShapeOfStretches(a: seq<Call>, b: seq<Call>, c: seq<Call>, id: Option<int>, audit: bool, push: bool)
    requires a == [ShowLineCall(id), LinesAudit.PricingCall(id)]
    requires b == (if audit then [LinesAudit.AuditCall(id)] else [])
    requires push ==> |c| == 3 && c[0] == LinesAudit.PricingCall(id) && c[1].verb == Post
                      && c[1].url == LinesAudit.PricingUrl(id) && c[2] == LinesAudit.PricingCall(id)
    requires !push ==> c == []
    ensures RunShape(a + b + c, id, audit, push)
  {
    var k := |a + b|;
    assert forall i :: 0 <= i < |c| ==> (a + b + c)[k + i] == c[i];
  }

  /** The requests of a run of `update_line_data` that got past them, with the audit and the push decided by the refreshed line. */
  lemma ProcessedCalls(req: Requester, s: SessionState, r: LineRecord)
    requires Records(req)
    requires Processed(req, s, r).error.None?
    ensures var m := Refreshed(req, s, r).line;
            RunShape(CallsSince(s, Processed(req, s, r).session), r.id, m.reliabilityLevel.value > 50, NeedsPricePush(m))
  {
    var m := Refreshed(req, s, r);
    var (s3, e3) := AuditIfUnreliable(req, m.session, m.line);
    var p := PushIfDiffer(req, s3, m.line);
    assert Processed(req, s, r) == p;
    var audit, push := m.line.reliabilityLevel.value > 50, NeedsPricePush(m.line);
    var a, b, c := CallsSince(s, m.session), CallsSince(m.session, s3), CallsSince(s3, p.session);
    assert a == [ShowLineCall(r.id), LinesAudit.PricingCall(r.id)];
    assert b == (if audit then [LinesAudit.AuditCall(r.id)] else []);
    assert push ==> p == PricePush(req, s3, m.line);
    CallsSinceChain(s, m.session, s3);
    CallsSinceChain(s, s3, p.session);
    RunShapeOfStretches(a, b, c, r.id, audit, push);
  }

  /** In a list of calls with the shape of a run, the audit is there exactly when it was ordered. */
  lemma AuditAmongCalls(cs: seq<Call>, id: Option<int>, audit: bool, push: bool)
    requires RunShape(cs, id, audit, push)
    ensures LinesAudit.AuditCall(id) in cs <==> audit
  {
    if audit {
      assert cs[2] == LinesAudit.AuditCall(id);
    } else {
      forall i | 0 <= i < |cs| ensures cs[i] != LinesAudit.AuditCall(id) {
        assert cs[i].allowRedirects || cs[i].verb == Post;
      }
    }
  }

  /** The audit request is made by a run that got past the requests exactly when the refreshed reliability is above 50. */
  lemma AuditIffUnreliable(req: Requester, s: SessionState, r: LineRecord)
    requires Records(req)
    requires Processed(req, s, r).error.None?
    ensures var cs := CallsSince(s, Processed(req, s, r).session);
            LinesAudit.AuditCall(r.id) in cs <==> Refreshed(req, s, r).line.reliabilityLevel.value > 50
  {
    ProcessedCalls(req, s, r);
    var m := Refreshed(req, s, r).line;
    AuditAmongCalls(CallsSince(s, Processed(req, s, r).session), r.id, m.reliabilityLevel.value > 50, NeedsPricePush(m));
  }

  /**
   * A successful `update_line_data` stamps the line with the time after its
   * requests and persists exactly that line; a failure before the stamp
   * persists nothing and leaves the line as the failing step left it.
   */
  lemma ReconciledStampsAndPersists(w: World, s: SessionState, r: LineRecord, files: map<string, FileContent>)
    ensures var u := Reconciled(w, s, r, files);
            var p := Processed(RequesterOf(w), s, r);
            (u.error.None? ==>
               p.error.None? && u.line == Stamped(w, p.session, p.line)
               && Lines.Persisted(u.line, files, w.env) == Ok(u.files))
            && (p.error.Some? ==> u.files == files && u.line == p.line)
  {
  }

  /** The attributes a full refresh reads from the game: the two airports and the four value groups. */
  predicate Filled(r: LineRecord) {
    && r.origin.Some? && r.destination.Some?
    && r.totalDemand.Some? && r.idealCost.Some? && r.turnover.Some? && r.currentCost.Some?
  }

  /** An error-free basic refresh sets both airports. */
  lemma BasicFills(req: Requester, s: SessionState, r: LineRecord)
    requires Records(req)
    ensures var res := Basic(req, s, r);
            res.error.None? ==> res.line.origin.Some? && res.line.destination.Some?
  {
    BasicOutcome(req, s, r);
  }

  /** An error-free marketing refresh sets the four value groups. */
  lemma MarketingFills(req: Requester, s: SessionState, r: LineRecord)
    requires Records(req)
    ensures var res := Marketing(req, s, r);
            res.error.None? ==>
              res.line.totalDemand.Some? && res.line.idealCost.Some? && res.line.turnover.Some? && res.line.currentCost.Some?
  {
    MarketingOutcome(req, s, r);
  }

  /** A run of `update_line_data` that raised nothing has read both airports and the four value groups. */
  lemma ProcessedFills(req: Requester, s: SessionState, r: LineRecord)
    requires Records(req)
    ensures var p := Processed(req, s, r);
            p.error.None? ==> Filled(p.line)
  {
    var b := Basic(req, s, r);
    BasicFills(req, s, r);
    if b.error.None? {
      var m := Marketing(req, b.session, b.line);
      MarketingFills(req, b.session, b.line);
      if m.error.None? {
        assert Refreshed(req, s, r) == m;
        var (s3, e3) := AuditIfUnreliable(req, m.session, m.line);
        if e3.None? && NeedsPricePush(m.line) {
          var (s4, e4) := LinesAudit.CostUpdated(req, s3, m.line);
          if e4.None? {
            MarketingFills(req, s4, m.line);
          }
        }
      }
    }
  }

  /** An error-free `update_line_data` leaves the line read in full and stamped. */
  lemma ReconciledFills(w: World, s: SessionState, r: LineRecord, files: map<string, FileContent>)
    ensures var u := Reconciled(w, s, r, files);
            u.error.None? ==> Filled(u.line) && u.line.lastUpdatedAt.Some?
  {
    DoRequestRecords(w);
    ReconciledStampsAndPersists(w, s, r, files);
    ProcessedFills(RequesterOf(w), s, r);
  }

  /**
   * `update_basic_data(line, session_manager)`: the attributes are assigned
   * as `BasicUpdate` lists them, up to the first failure.
   */
  method UpdateBasicData(line: LineObjects.Line, sm: SessionManager) returns (err: Option<Error>)
    modifies line, sm
    ensures Step(sm.State(), line.Record(), err) == Basic(RequesterOf(sm.world), old(sm.State()), old(line.Record()))
  {
    var page := sm.Request(ShowLineCall(line.id));
    if page.Err? {
      return Some(page.error);
    }
    var content := ContentOf(page.value.page);
    if content.None? {
      return Some(ReferenceError);
    }
    var updated := BasicUpdate(line.Record(), content.value);
    line.SetRecord(updated.0);
    err := updated.1;
  }

  /**
   * `update_marketing_data(line, session_manager)`: the attributes are
   * assigned as `MarketingUpdate` lists them, up to the first failure.
   */
  method UpdateMarketingData(line: LineObjects.Line, sm: SessionManager) returns (err: Option<Error>)
    modifies line, sm
    ensures Step(sm.State(), line.Record(), err) == Marketing(RequesterOf(sm.world), old(sm.State()), old(line.Record()))
  {
    var page := sm.Request(LinesAudit.PricingCall(line.id));
    if page.Err? {
      return Some(page.error);
    }
    var div := LinesAudit.PricingOf(page.value.page);
    if div.None? {
      return Some(ReferenceError);
    }
    var updated := MarketingUpdate(line.Record(), div.value);
    line.SetRecord(updated.0);
    err := updated.1;
  }

  /** The two refreshes, through the class methods. */
  method Refresh(line: LineObjects.Line, sm: SessionManager) returns (err: Option<Error>)
    modifies line, sm
    ensures Step(sm.State(), line.Record(), err) == Refreshed(RequesterOf(sm.world), old(sm.State()), old(line.Record()))
  {
    err := UpdateBasicData(line, sm);
    if err.None? {
      err := UpdateMarketingData(line, sm);
    }
  }

  /** The price push, through the class methods. */
  method PushPrices(line: LineObjects.Line, sm: SessionManager) returns (err: Option<Error>)
    modifies line, sm
    ensures Step(sm.State(), line.Record(), err) == PricePush(RequesterOf(sm.world), old(sm.State()), old(line.Record()))
  {
    err := LinesAudit.UpdateLineCost(line, sm);
    if err.None? {
      err := UpdateMarketingData(line, sm);
    }
  }

  /** The audit step, through the class methods. */
  method AuditIfNeeded(line: LineObjects.Line, sm: SessionManager) returns (err: Option<Error>)
    modifies sm
    ensures (sm.State(), err) == AuditIfUnreliable(RequesterOf(sm.world), old(sm.State()), line.Record())
  {
    if line.reliabilityLevel.None? {
      return Some(TypeError);
    }
    if line.reliabilityLevel.value > 50 {
      err := LinesAudit.UpdateLineAuditData(line, sm);
    } else {
      err := None;
    }
  }

  /** The price step, through the class methods. */
  method PushIfNeeded(line: LineObjects.Line, sm: SessionManager) returns (err: Option<Error>)
    modifies line, sm
    ensures Step(sm.State(), line.Record(), err) == PushIfDiffer(RequesterOf(sm.world), old(sm.State()), old(line.Record()))
  {
    if NeedsPricePush(line.Record()) {
      err := PushPrices(line, sm);
    } else {
      err := None;
    }
  }

  /** Everything `update_line_data` does before the stamp. */
  method Process(line: LineObjects.Line, sm: SessionManager) returns (err: Option<Error>)
    modifies line, sm
    ensures Step(sm.State(), line.Record(), err) == Processed(RequesterOf(sm.world), old(sm.State()), old(line.Record()))
  {
    err := Refresh(line, sm);
    if err.None? {
      err := AuditIfNeeded(line, sm);
      if err.None? {
        err := PushIfNeeded(line, sm);
      }
    }
  }

  /** `update_line_data(line, session_manager)`. */
  method UpdateLineData(line: LineObjects.Line, sm: SessionManager, disk: Disk) returns (err: Option<Error>)
    modifies line, sm, disk
    ensures Update(sm.State(), line.Record(), disk.files, err) == Reconciled(sm.world, old(sm.State()), old(line.Record()), old(disk.files))
  {
    ghost var p := Processed(RequesterOf(sm.world), old(sm.State()), old(line.Record()));
    err := Process(line, sm);
    if err.Some? {
      return;
    }
    assert sm.State() == p.session && line.Record() == p.line;
    line.Stamp(sm.world.clock(sm.log));
    assert line.Record() == Stamped(sm.world, p.session, p.line);
    err := line.PersistToFile(disk, sm.world.env);
  }
}

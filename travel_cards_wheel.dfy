/**
 * src/modules/travel_cards_wheel.py: the travel cards wheel of the home page.
 * The bot reads the home page; when the wheel's banner is there it spins the
 * wheel and reads the JSON reply into a result dictionary. Writing that
 * dictionary to a file and logging are not part of this model; the
 * environment variable naming the results folder is, since a missing one
 * raises before anything is written.
 */
module TravelCardsWheel {
  import opened Results
  import opened Json
  import opened Strings
  import opened Pages
  import opened Sessions

  /** The GET of the home page, with no extra headers. */
  const HomeCall: Call := Call(Get, HomeUrl, None, None, true)

  /** The GET that spins the wheel, as the page's script sends it. */
  const SpinCall: Call :=
    Call(Get, BaseUrl + "/home/wheeltcgame/play",
         Some(map["Accept" := "application/json, text/javascript, */*; q=0.01",
                  "Referer" := BaseUrl + "/home/wheeltcgame",
                  "X-Requested-With" := "XMLHttpRequest"]),
         None, true)

  /** The environment variable that names the folder of the saved results. */
  const ResultsFolderVariable: string := "TRAVEL_CARDS_RESULTS_FOLDER"

  // ------------------------------------------------------------ availability

  /**
   * What `is_travel_cards_wheel_available` reads on the home page: a page
   * without the main content div is a ReferenceError; otherwise the wheel is
   * available exactly when its banner is there.
   */
  function WheelAvailability(p: Page): (r: Result<bool>)
    ensures r.Err? <==> !(p.Home? && p.mainContent)
    ensures r.Err? ==> r.error == ReferenceError
    ensures r.Ok? ==> (r.value <==> p.playWheel)
  {
    if !p.Home? || !p.mainContent then Err(ReferenceError) else Ok(p.playWheel)
  }

  /** `is_travel_cards_wheel_available`: one request of the home page. */
  function IsAvailable(req: Requester, s: SessionState): (res: (SessionState, Result<bool>))
    requires Records(req)
    ensures Extends(s, res.0) && CallsSince(s, res.0) == [HomeCall]
    ensures var o := res.0.exchanges[|s.exchanges|].outcome;
            && (o.Err? ==> res.1 == Err(o.error))
            && (o.Ok? ==> res.1 == WheelAvailability(o.value.page))
            && (res.1 == Ok(true) <==> o.Ok? && o.value.page.Home? && o.value.page.mainContent && o.value.page.playWheel)
  {
    RequestExtends(req, s, HomeCall);
    var (s1, o) := req(s, HomeCall);
    if o.Err? then (s1, Err(o.error)) else (s1, WheelAvailability(o.value.page))
  }

  // ------------------------------------------------------------ the reply

  /**
   * `int(x)` on a decoded JSON value: a number is itself, a boolean is 0 or
   * 1, a text must be a decimal numeral (ValueError otherwise), and None, a
   * list or a dictionary is a TypeError.
   */
  function PyInt(v: Value): (r: Result<int>)
    ensures v.Int? ==> r == Ok(v.i)
    ensures v.Bool? ==> r == Ok(if v.b then 1 else 0)
    ensures v.Str? ==> (r.Ok? <==> ParseInt(v.s).Some?) && (r.Ok? ==> r.value == ParseInt(v.s).value)
    ensures v.Null? || v.Arr? || v.Dict? ==> r == Err(TypeError)
    ensures v.Str? && r.Err? ==> r.error == ValueError
  {
    match v
    case Int(i) => Ok(i)
    case Bool(b) => Ok(if b then 1 else 0)
    case Str(s) => if ParseInt(s).Some? then Ok(ParseInt(s).value) else Err(ValueError)
    case _ => Err(TypeError)
  }

  /** `data[key]`: a KeyError when a dictionary lacks the key, a TypeError on anything but a dictionary. */
  function Field(data: Value, key: string): (r: Result<Value>)
    ensures r.Ok? <==> data.Dict? && key in data.fields
    ensures r.Ok? ==> r.value == data.fields[key]
    ensures r.Err? ==> r.error == if data.Dict? then KeyError else TypeError
  {
    if !data.Dict? then Err(TypeError)
    else if key !in data.fields then Err(KeyError)
    else Ok(data.fields[key])
  }

  /** `int(data[key])`. */
  function IntField(data: Value, key: string): Result<int> {
    var v :- Field(data, key);
    PyInt(v)
  }

  /**
   * The dictionary `spin_travel_cards_wheel` builds, without the float
   * `bonusMultiplierGain`.
   */
  datatype SpinResult = SpinResult(
    totalTravelCardsAfter: int,
    totalTravelCardsBefore: int,
    earnedTravelCards: int,
    bonusMultiplierGainIndex: int,
    canPlayAgain: bool)

  /**
   * The reply to the spin, read in the order the dictionary's entries are
   * written: the cards now, the gain, the multiplier (only looked up here),
   * the score index and whether another spin is allowed. A reply that is not
   * JSON is a ValueError.
   */
  function ParseSpin(p: Page): (r: Result<SpinResult>)
    ensures !p.WheelReply? ==> r == Err(ValueError)
    ensures r.Ok? ==> p.WheelReply? && p.data.Dict?
    ensures r.Ok? ==> && IntField(p.data, "nbOfTravelCards") == Ok(r.value.totalTravelCardsAfter)
                      && IntField(p.data, "gain") == Ok(r.value.earnedTravelCards)
                      && IntField(p.data, "indexScore") == Ok(r.value.bonusMultiplierGainIndex)
                      && "multiplierBonus" in p.data.fields && "isAllowToPlay" in p.data.fields
                      && r.value.canPlayAgain == Truthy(p.data.fields["isAllowToPlay"])
    ensures r.Ok? ==> r.value.totalTravelCardsBefore + r.value.earnedTravelCards == r.value.totalTravelCardsAfter
    ensures p.WheelReply? ==> (r.Ok? <==> && IntField(p.data, "nbOfTravelCards").Ok?
                                          && IntField(p.data, "gain").Ok?
                                          && Field(p.data, "multiplierBonus").Ok?
                                          && IntField(p.data, "indexScore").Ok?
                                          && Field(p.data, "isAllowToPlay").Ok?)
  {
    if !p.WheelReply? then Err(ValueError)
    else
      var data := p.data;
      var after :- IntField(data, "nbOfTravelCards");
      var gain :- IntField(data, "gain");
      var _ :- Field(data, "multiplierBonus");
      var index :- IntField(data, "indexScore");
      var allowed :- Field(data, "isAllowToPlay");
      Ok(SpinResult(after, after - gain, gain, index, Truthy(allowed)))
  }

  /** A reply that is not a dictionary fails on its first lookup, with a TypeError. */
  lemma ParseSpinOfNonDictionary(p: Page)
    requires p.WheelReply? && !p.data.Dict?
    ensures ParseSpin(p) == Err(TypeError)
  {
  }

  /** The card counts of a reply: the count before the spin and the gain add up to the count after it. */
  lemma ParseSpinCounts(cards: int, gain: int, index: int, allowed: Value, multiplier: Value)
    ensures var p := WheelReply(Dict(map["nbOfTravelCards" := Int(cards), "gain" := Int(gain),
                                        "multiplierBonus" := multiplier, "indexScore" := Int(index),
                                        "isAllowToPlay" := allowed]));
            ParseSpin(p) == Ok(SpinResult(cards, cards - gain, gain, index, Truthy(allowed)))
  {
  }

  // ------------------------------------------------------------ spinning

  /**
   * `spin_travel_cards_wheel`: one request of the wheel, then the result is
   * read; saving it needs the results folder variable, a KeyError when unset.
   */
  function Spin(req: Requester, env: map<string, string>, s: SessionState): (res: (SessionState, Result<SpinResult>))
    requires Records(req)
    ensures Extends(s, res.0) && CallsSince(s, res.0) == [SpinCall]
    ensures var o := res.0.exchanges[|s.exchanges|].outcome;
            && (o.Err? ==> res.1 == Err(o.error))
            && (o.Ok? && ParseSpin(o.value.page).Err? ==> res.1 == Err(ParseSpin(o.value.page).error))
            && (o.Ok? && ParseSpin(o.value.page).Ok? ==>
                  res.1 == if ResultsFolderVariable in env then ParseSpin(o.value.page) else Err(KeyError))
  {
    RequestExtends(req, s, SpinCall);
    var (s1, o) := req(s, SpinCall);
    if o.Err? then (s1, Err(o.error))
    else match ParseSpin(o.value.page)
      case Err(e) => (s1, Err(e))
      case Ok(result) =>
        if ResultsFolderVariable !in env then (s1, Err(KeyError)) else (s1, Ok(result))
  }

  /**
   * `spin_travel_cards_wheel_if_available`: the wheel is spun only when the
   * home page shows it; the result is what would be logged, None when the
   * wheel was not spun.
   */
  function SpinIfAvailable(req: Requester, env: map<string, string>, s: SessionState): (res: (SessionState, Result<Option<SpinResult>>))
    requires Records(req)
    ensures Extends(s, res.0)
    ensures var cs := CallsSince(s, res.0);
            var available := IsAvailable(req, s).1;
            && (available == Ok(true) ==> cs == [HomeCall, SpinCall])
            && (available != Ok(true) ==> cs == [HomeCall])
            && (available == Ok(false) ==> res.1 == Ok(None))
            && (available.Err? ==> res.1 == Err(available.error))
            && (res.1.Ok? && res.1.value.Some? ==> available == Ok(true))
  {
    var (s1, available) := IsAvailable(req, s);
    if available.Err? then (s1, Err(available.error))
    else if !available.value then (s1, Ok(None))
    else
      var (s2, spun) := Spin(req, env, s1);
      CallsSinceChain(s, s1, s2);
      match spun
      case Err(e) => (s2, Err(e))
      case Ok(result) => (s2, Ok(Some(result)))
  }

  // ------------------------------------------------------------ the manager

  /** `is_travel_cards_wheel_available(session_manager)`. */
  method IsTravelCardsWheelAvailable(sm: SessionManager) returns (available: Result<bool>)
    modifies sm
    ensures (sm.State(), available) == IsAvailable(RequesterOf(sm.world), old(sm.State()))
  {
    var page := sm.Request(HomeCall);
    if page.Err? {
      return Err(page.error);
    }
    available := WheelAvailability(page.value.page);
  }

  /** `spin_travel_cards_wheel(session_manager)`. */
  method SpinTravelCardsWheel(sm: SessionManager) returns (result: Result<SpinResult>)
    modifies sm
    ensures (sm.State(), result) == Spin(RequesterOf(sm.world), sm.world.env, old(sm.State()))
  {
    var reply := sm.Request(SpinCall);
    if reply.Err? {
      return Err(reply.error);
    }
    var parsed := ParseSpin(reply.value.page);
    if parsed.Err? {
      return Err(parsed.error);
    }
    if ResultsFolderVariable !in sm.world.env {
      return Err(KeyError);
    }
    result := parsed;
  }

  /** `spin_travel_cards_wheel_if_available(session_manager)`. */
  method SpinTravelCardsWheelIfAvailable(sm: SessionManager) returns (result: Result<Option<SpinResult>>)
    modifies sm
    ensures (sm.State(), result) == SpinIfAvailable(RequesterOf(sm.world), sm.world.env, old(sm.State()))
  {
    var available := IsTravelCardsWheelAvailable(sm);
    if available.Err? {
      return Err(available.error);
    }
    if !available.value {
      return Ok(None);
    }
    var spun := SpinTravelCardsWheel(sm);
    if spun.Err? {
      return Err(spun.error);
    }
    result := Ok(Some(spun.value));
  }
}

/**
 * The listing loop that src/modules/lines_summary.py and src/modules/airplanes.py
 * both run: request page 1, 2, 3, ... in turn, keep the rows of each page,
 * and stop after the first page without a "next" marker. The loop in the
 * source has no bound; here it stops with `PageLimit` after `fuel` pages.
 */
module Paging {
  import opened Results
  import opened Pages
  import opened Sessions

  /** What one listing page yields: its rows and whether there is a next page. */
  type PageParser<T> = Result<Response> -> Result<(seq<T>, bool)>

  /** `rows` in front of a listing's rows; an error stays an error. */
  function Prepend<T>(rows: seq<T>, r: Result<seq<T>>): (r': Result<seq<T>>)
    ensures r'.Ok? <==> r.Ok?
    ensures r.Err? ==> r' == r
  {
    if r.Ok? then Ok(rows + r.value) else r
  }

  lemma PrependTwice<T>(a: seq<T>, b: seq<T>, r: Result<seq<T>>)
    ensures Prepend(a, Prepend(b, r)) == Prepend(a + b, r)
  {
    if r.Ok? {
      assert a + (b + r.value) == (a + b) + r.value;
    }
  }

  /**
   * The loop from `page` on, with at most `fuel` requests left: each page is
   * requested with `callOf(page)` and read with `parse`; an error ends the
   * loop, and so does a page without a next page.
   */
  function Listing<T>(req: Requester, callOf: int -> Call, parse: PageParser<T>, s: SessionState, page: int, fuel: nat)
    : (res: (SessionState, Result<seq<T>>))
    requires Records(req)
    ensures Extends(s, res.0)
    ensures |CallsSince(s, res.0)| <= fuel
    ensures fuel > 0 ==> |CallsSince(s, res.0)| >= 1
    decreases fuel
  {
    if fuel == 0 then (s, Err(PageLimit))
    else
      var c := callOf(page);
      RequestExtends(req, s, c);
      var (s1, o) := req(s, c);
      match parse(o)
      case Err(e) => (s1, Err(e))
      case Ok(p) =>
        if !p.1 then (s1, Ok(p.0))
        else
          var (s2, rest) := Listing(req, callOf, parse, s1, page + 1, fuel - 1);
          CallsSinceChain(s, s1, s2);
          (s2, Prepend(p.0, rest))
  }

  /** `cs` are the requests for the pages from `page` on, in order and without gaps. */
  predicate PagesFrom(cs: seq<Call>, callOf: int -> Call, page: int) {
    forall i :: 0 <= i < |cs| ==> cs[i] == callOf(page + i)
  }

  /** The pages are requested in order from `page` on, without gaps. */
  lemma {:induction false} ListingCalls<T>(req: Requester, callOf: int -> Call, parse: PageParser<T>, s: SessionState, page: int, fuel: nat)
    requires Records(req)
    ensures PagesFrom(CallsSince(s, Listing(req, callOf, parse, s, page, fuel).0), callOf, page)
    decreases fuel
  {
    if fuel > 0 {
      var (s1, o) := req(s, callOf(page));
      if parse(o).Ok? && parse(o).value.1 {
        ListingCalls(req, callOf, parse, s1, page + 1, fuel - 1);
        ListingCallsMore(req, callOf, parse, s, page, fuel);
      }
    }
  }

  /** A page that announces a next one: its request comes before the rest. */
  lemma ListingCallsMore<T>(req: Requester, callOf: int -> Call, parse: PageParser<T>, s: SessionState, page: int, fuel: nat)
    requires Records(req) && fuel > 0
    requires var (s1, o) := req(s, callOf(page));
             && parse(o).Ok? && parse(o).value.1
             && PagesFrom(CallsSince(s1, Listing(req, callOf, parse, s1, page + 1, fuel - 1).0), callOf, page + 1)
    ensures PagesFrom(CallsSince(s, Listing(req, callOf, parse, s, page, fuel).0), callOf, page)
  {
    var c := callOf(page);
    RequestExtends(req, s, c);
    var s1 := req(s, c).0;
    var s2 := Listing(req, callOf, parse, s1, page + 1, fuel - 1).0;
    assert Listing(req, callOf, parse, s, page, fuel).0 == s2;
    CallsSinceChain(s, s1, s2);
    PagesFromCons(c, CallsSince(s1, s2), callOf, page);
  }

  lemma PagesFromCons(c: Call, rest: seq<Call>, callOf: int -> Call, page: int)
    requires c == callOf(page)
    requires PagesFrom(rest, callOf, page + 1)
    ensures PagesFrom([c] + rest, callOf, page)
  {
    var cs := [c] + rest;
    forall i | 0 <= i < |cs| ensures cs[i] == callOf(page + i) {
      if i > 0 {
        assert cs[i] == rest[i - 1];
        assert rest[i - 1] == callOf(page + 1 + (i - 1));
      }
    }
  }

  /** The exchanges a stretch of the manager's life added. */
  function ExchangesSince(before: SessionState, after: SessionState): (xs: seq<Exchange>)
    requires Extends(before, after)
    ensures |xs| == |CallsSince(before, after)|
  {
    after.exchanges[|before.exchanges|..]
  }

  /** What `parse` reads from one recorded exchange. */
  function Parsed<T>(parse: PageParser<T>, x: Exchange): Result<(seq<T>, bool)> {
    parse(x.outcome)
  }

  /** Every page of `xs` was read and announced a next page. */
  predicate AllHaveNext<T>(parse: PageParser<T>, xs: seq<Exchange>) {
    forall i :: 0 <= i < |xs| ==> Parsed(parse, xs[i]).Ok? && Parsed(parse, xs[i]).value.1
  }

  /** The rows of the pages of `xs`, in page order. */
  function AllRows<T>(parse: PageParser<T>, xs: seq<Exchange>): seq<T> {
    if xs == [] then []
    else (if Parsed(parse, xs[0]).Ok? then Parsed(parse, xs[0]).value.0 else []) + AllRows(parse, xs[1..])
  }

  /**
   * What the loop returns, in terms of the pages it fetched: every page but
   * the last announced a next page; the listing succeeds exactly when the last
   * page was read and announced none, and it is then all the rows of all the
   * pages in order; otherwise it fails with the last page's error, or with
   * `PageLimit` when every page announced a next one.
   */
  predicate ListingOutcome<T(==)>(parse: PageParser<T>, xs: seq<Exchange>, r: Result<seq<T>>) {
    |xs| >= 1
    && AllHaveNext(parse, xs[..|xs| - 1])
    && var last := Parsed(parse, xs[|xs| - 1]);
       (r.Ok? <==> last.Ok? && !last.value.1)
       && (r.Ok? ==> r.value == AllRows(parse, xs))
       && (last.Err? ==> r == Err(last.error))
       && (last.Ok? && last.value.1 ==> r == Err(PageLimit))
  }

  lemma ExchangesSinceChain(a: SessionState, b: SessionState, c: SessionState)
    requires Extends(a, b) && Extends(b, c)
    ensures Extends(a, c)
    ensures ExchangesSince(a, c) == ExchangesSince(a, b) + ExchangesSince(b, c)
  {
    CallsSinceChain(a, b, c);
    assert c.exchanges[..|b.exchanges|] == b.exchanges;
  }

  /** The loop's result is the one its fetched pages determine. */
  lemma {:induction false} ListingReadsPages<T>(req: Requester, callOf: int -> Call, parse: PageParser<T>, s: SessionState, page: int, fuel: nat)
    requires Records(req)
    requires fuel > 0
    ensures var res := Listing(req, callOf, parse, s, page, fuel);
            ListingOutcome(parse, ExchangesSince(s, res.0), res.1)
    decreases fuel
  {
    var c := callOf(page);
    RequestExtends(req, s, c);
    var (s1, o) := req(s, c);
    if parse(o).Ok? && parse(o).value.1 && fuel > 1 {
      ListingReadsPages(req, callOf, parse, s1, page + 1, fuel - 1);
      ListingReadsMore(req, callOf, parse, s, page, fuel);
    } else {
      ListingReadsOne(req, callOf, parse, s, page, fuel);
    }
  }

  /** A loop that makes one request only: its one page determines the result. */
  lemma ListingReadsOne<T>(req: Requester, callOf: int -> Call, parse: PageParser<T>, s: SessionState, page: int, fuel: nat)
    requires Records(req)
    requires fuel > 0
    requires var o := req(s, callOf(page)).1; !(parse(o).Ok? && parse(o).value.1 && fuel > 1)
    ensures var res := Listing(req, callOf, parse, s, page, fuel);
            ListingOutcome(parse, ExchangesSince(s, res.0), res.1)
  {
    var c := callOf(page);
    RequestExtends(req, s, c);
    var (s1, o) := req(s, c);
    assert ExchangesSince(s, s1) == [Exchange(c, o)];
  }

  /** A loop whose first page announced a next one: that page, then the rest of the loop. */
  lemma ListingReadsMore<T>(req: Requester, callOf: int -> Call, parse: PageParser<T>, s: SessionState, page: int, fuel: nat)
    requires Records(req)
    requires fuel > 1
    requires var o := req(s, callOf(page)).1; parse(o).Ok? && parse(o).value.1
    requires var s1 := req(s, callOf(page)).0;
             var res := Listing(req, callOf, parse, s1, page + 1, fuel - 1);
             ListingOutcome(parse, ExchangesSince(s1, res.0), res.1)
    ensures var res := Listing(req, callOf, parse, s, page, fuel);
            ListingOutcome(parse, ExchangesSince(s, res.0), res.1)
  {
    var c := callOf(page);
    RequestExtends(req, s, c);
    var (s1, o) := req(s, c);
    var (s2, rest) := Listing(req, callOf, parse, s1, page + 1, fuel - 1);
    assert ExchangesSince(s, s1) == [Exchange(c, o)];
    ExchangesSinceChain(s, s1, s2);
    ListingOutcomeCons(parse, Exchange(c, o), ExchangesSince(s1, s2), rest);
  }

  /** A page that announced a next page, in front of the pages of the rest of the loop. */
  lemma ListingOutcomeCons<T>(parse: PageParser<T>, x: Exchange, tail: seq<Exchange>, rest: Result<seq<T>>)
    requires Parsed(parse, x).Ok? && Parsed(parse, x).value.1
    requires ListingOutcome(parse, tail, rest)
    ensures ListingOutcome(parse, [x] + tail, Prepend(Parsed(parse, x).value.0, rest))
  {
    var xs := [x] + tail;
    assert xs[1..] == tail;
    assert xs[..|xs| - 1] == [x] + tail[..|tail| - 1];
    assert xs[|xs| - 1] == tail[|tail| - 1];
  }

  // ------------------------------------------------------------ one page

  /** The rows an optional row stands for: none for a header row. */
  function Present<T>(x: Option<T>): (r: seq<T>)
    ensures |r| <= 1
    ensures x.Some? ==> r == [x.value]
    ensures x.None? ==> r == []
  {
    if x.Some? then [x.value] else []
  }

  /**
   * The list comprehension over a table's rows followed by the filter that
   * drops the empty dictionaries of header rows: every row is parsed in
   * order, and the first row that raises ends it with that error.
   */
  function ParseAll<R, T>(parse: R -> Result<Option<T>>, rows: seq<R>): (r: Result<seq<T>>)
    ensures |rows| == 0 ==> r == Ok([])
    ensures r.Ok? ==> |r.value| <= |rows|
    decreases |rows|
  {
    if rows == [] then Ok([])
    else match parse(rows[0])
      case Err(e) => Err(e)
      case Ok(x) => Prepend(Present(x), ParseAll(parse, rows[1..]))
  }

  /** The rows are all read exactly when no row raises. */
  lemma {:induction false} ParseAllOk<R, T>(parse: R -> Result<Option<T>>, rows: seq<R>)
    ensures ParseAll(parse, rows).Ok? <==> forall i :: 0 <= i < |rows| ==> parse(rows[i]).Ok?
    decreases |rows|
  {
    if rows != [] {
      ParseAllOk(parse, rows[1..]);
      if parse(rows[0]).Ok? && ParseAll(parse, rows[1..]).Ok? {
        forall i | 0 <= i < |rows| ensures parse(rows[i]).Ok? {
          if i > 0 { assert rows[i] == rows[1..][i - 1]; }
        }
      }
      if forall i :: 0 <= i < |rows| ==> parse(rows[i]).Ok? {
        forall i | 0 <= i < |rows[1..]| ensures parse(rows[1..][i]).Ok? {
          assert rows[1..][i] == rows[i + 1];
        }
      }
    }
  }

  /** A failure is the error of the first row that raises. */
  lemma {:induction false} ParseAllFirstError<R, T>(parse: R -> Result<Option<T>>, rows: seq<R>)
    requires ParseAll(parse, rows).Err?
    ensures exists i :: 0 <= i < |rows| && parse(rows[i]) == Err(ParseAll(parse, rows).error)
                        && forall j :: 0 <= j < i ==> parse(rows[j]).Ok?
    decreases |rows|
  {
    var e := ParseAll(parse, rows).error;
    if parse(rows[0]).Err? {
      assert parse(rows[0]) == Err(e);
    } else {
      var tail := rows[1..];
      ParseAllFirstError(parse, tail);
      var i :| 0 <= i < |tail| && parse(tail[i]) == Err(e) && forall j :: 0 <= j < i ==> parse(tail[j]).Ok?;
      assert rows[i + 1] == tail[i];
      forall j | 0 <= j < i + 1 ensures parse(rows[j]).Ok? {
        if j > 0 { assert rows[j] == tail[j - 1]; }
      }
    }
  }

  /** Reading a table in two stretches: the rows of the first, then those of the second. */
  lemma {:induction false} ParseAllAppend<R, T>(parse: R -> Result<Option<T>>, a: seq<R>, b: seq<R>)
    ensures ParseAll(parse, a + b) == if ParseAll(parse, a).Err? then ParseAll(parse, a) else Prepend(ParseAll(parse, a).value, ParseAll(parse, b))
    decreases |a|
  {
    if a == [] {
      assert a + b == b;
      PrependEmpty(ParseAll(parse, b));
    } else {
      assert (a + b)[0] == a[0];
      assert (a + b)[1..] == a[1..] + b;
      ParseAllAppend(parse, a[1..], b);
      if parse(a[0]).Ok? && ParseAll(parse, a[1..]).Ok? {
        PrependTwice(Present(parse(a[0]).value), ParseAll(parse, a[1..]).value, ParseAll(parse, b));
      }
    }
  }

  lemma PrependEmpty<T>(r: Result<seq<T>>)
    ensures Prepend([], r) == r
  {
    if r.Ok? {
      assert [] + r.value == r.value;
    }
  }

  // ------------------------------------------------------------ the loop

  /** What the loop returns from `page` on, once `acc` is collected. */
  function Remaining<T>(req: Requester, callOf: int -> Call, parse: PageParser<T>, st: SessionState, page: int, fuel: nat, acc: seq<T>)
    : (SessionState, Result<seq<T>>)
    requires Records(req)
  {
    var l := Listing(req, callOf, parse, st, page, fuel);
    (l.0, Prepend(acc, l.1))
  }

  /** One turn of the loop: request `page` from `st` and read it. */
  lemma ListingStep<T>(req: Requester, callOf: int -> Call, parse: PageParser<T>, st: SessionState, page: int, fuel: nat, acc: seq<T>)
    requires Records(req) && fuel > 0
    ensures var s1, read := req(st, callOf(page)).0, parse(req(st, callOf(page)).1);
            var r := Remaining(req, callOf, parse, st, page, fuel, acc);
            && (read.Err? ==> r == (s1, Err(read.error)))
            && (read.Ok? && !read.value.1 ==> r == (s1, Ok(acc + read.value.0)))
            && (read.Ok? && read.value.1 ==> r == Remaining(req, callOf, parse, s1, page + 1, fuel - 1, acc + read.value.0))
  {
    var (s1, o) := req(st, callOf(page));
    if parse(o).Ok? && parse(o).value.1 {
      PrependTwice(acc, parse(o).value.0, Listing(req, callOf, parse, s1, page + 1, fuel - 1).1);
    }
  }

  /**
   * `req` answers every call as the manager's `request` does against `w`;
   * stated with a trigger on `DoRequest` so that the loop below does not
   * unfold the request on its own.
   */
  ghost predicate Serves(req: Requester, w: World) {
    forall s, c {:trigger DoRequest(w, s, c)} :: req(s, c) == DoRequest(w, s, c)
  }

  lemma RequesterServes(w: World)
    ensures Serves(RequesterOf(w), w)
  {}

  /**
   * One turn of the loop: request `page`, read it, and say what the rest of
   * the loop, once `acc` is collected, comes to.
   */
  method RequestPage<T>(sm: SessionManager, ghost req: Requester, callOf: int -> Call, parse: PageParser<T>, page: int, left: nat, acc: seq<T>,
                        ghost goal: (SessionState, Result<seq<T>>))
    returns (read: Result<(seq<T>, bool)>)
    requires left > 0
    requires Records(req) && Serves(req, sm.world)
    requires Remaining(req, callOf, parse, sm.State(), page, left, acc) == goal
    modifies sm
    ensures read.Err? ==> (sm.State(), Err(read.error)) == goal
    ensures read.Ok? && !read.value.1 ==> (sm.State(), Ok(acc + read.value.0)) == goal
    ensures read.Ok? && read.value.1 ==> Remaining(req, callOf, parse, sm.State(), page + 1, left - 1, acc + read.value.0) == goal
  {
    ListingStep(req, callOf, parse, sm.State(), page, left, acc);
    var outcome := sm.Request(callOf(page));
    read := parse(outcome);
  }

  /** The loop itself, over any requester that answers as the manager does. */
  method FetchPages<T>(sm: SessionManager, ghost req: Requester, callOf: int -> Call, parse: PageParser<T>, fuel: nat) returns (rows: Result<seq<T>>)
    requires Records(req) && Serves(req, sm.world)
    modifies sm
    ensures (sm.State(), rows) == Listing(req, callOf, parse, old(sm.State()), 1, fuel)
  {
    ghost var goal := Listing(req, callOf, parse, sm.State(), 1, fuel);
    PrependEmpty(goal.1);
    var page, left, hasNext, acc := 1, fuel, true, [];
    while hasNext
      invariant hasNext ==> Remaining(req, callOf, parse, sm.State(), page, left, acc) == goal
      invariant !hasNext ==> (sm.State(), Ok(acc)) == goal
      decreases left, hasNext
    {
      if left == 0 {
        return Err(PageLimit);
      }
      var read := RequestPage(sm, req, callOf, parse, page, left, acc, goal);
      if read.Err? {
        return Err(read.error);
      }
      acc := acc + read.value.0;
      hasNext := read.value.1;
      page, left := page + 1, left - 1;
    }
    rows := Ok(acc);
  }

  /**
   * The `while has_next` loop: request page 1, 2, ... through the session
   * manager and collect the rows; it stops without a result after `fuel` pages.
   */
  method FetchListing<T>(sm: SessionManager, callOf: int -> Call, parse: PageParser<T>, fuel: nat) returns (rows: Result<seq<T>>)
    modifies sm
    ensures Records(RequesterOf(sm.world))
    ensures (sm.State(), rows) == Listing(RequesterOf(sm.world), callOf, parse, old(sm.State()), 1, fuel)
  {
    DoRequestRecords(sm.world);
    RequesterServes(sm.world);
    rows := FetchPages(sm, RequesterOf(sm.world), callOf, parse, fuel);
  }

  /**
   * Saving the listing to CSV reads the keys of its first row, which raises
   * IndexError when the listing is empty.
   */
  function Exported<T>(r: Result<seq<T>>): (r': Result<seq<T>>)
    ensures r'.Ok? ==> r' == r && |r'.value| >= 1
    ensures r.Err? ==> r' == r
    ensures r == Ok([]) ==> r' == Err(IndexError)
  {
    if r == Ok([]) then Err(IndexError) else r
  }
}

/**
 * src/modules/workshop.py: the free items of the shop's workshop. The bot
 * reads the workshop rack, keeps the items whose purchase button shows no
 * price, and buys each of them in turn, reading the rack again after every
 * purchase. The headers of the rack request come from `get_base_headers` of
 * modules.user_agent, which is not part of this model: it is the world's
 * `baseHeaders`.
 */
module Workshop {
  import opened Results
  import opened Pages
  import opened Sessions

  const WorkshopUrl: string := BaseUrl + "/shop/workshop"

  /** The GET of the workshop rack, with the base headers around the Referer. */
  function RackCall(base: Headers -> Headers): (c: Call)
    ensures c.verb == Get && c.url == WorkshopUrl && c.allowRedirects && c.payload.None?
  {
    Call(Get, WorkshopUrl, Some(base(map["Referer" := HomeUrl])), None, true)
  }

  /** The purchase of an item: a POST of the item's link that must not follow the redirect. */
  function PurchaseCall(href: string): (c: Call)
    ensures c.verb == Post && c.url == BaseUrl + href && !c.allowRedirects && c.payload.None?
  {
    Call(Post, BaseUrl + href, Some(map["Referer" := WorkshopUrl]), None, false)
  }

  // ------------------------------------------------------------ free items

  /**
   * `is_free_item`: an item without a purchase button is not free; one with
   * a button is free exactly when no number can be read from its text.
   */
  predicate IsFreeItem(item: WorkshopItem) {
    item.purchaseLink.Some? && item.purchaseLink.value.price.None?
  }

  /** `filter_free_workshop_items`: the free items, in rack order. */
  function FreeItems(items: seq<WorkshopItem>): (r: seq<WorkshopItem>)
    ensures |r| <= |items|
    ensures forall i :: 0 <= i < |r| ==> IsFreeItem(r[i]) && r[i] in items
    ensures forall x :: x in items && IsFreeItem(x) ==> x in r
  {
    if items == [] then []
    else (if IsFreeItem(items[0]) then [items[0]] else []) + FreeItems(items[1..])
  }

  /** The filter keeps the order of the rack: filtering two stretches one after the other is filtering them together. */
  lemma {:induction false} FreeItemsAppend(a: seq<WorkshopItem>, b: seq<WorkshopItem>)
    ensures FreeItems(a + b) == FreeItems(a) + FreeItems(b)
  {
    if a != [] {
      assert (a + b)[1..] == a[1..] + b;
      FreeItemsAppend(a[1..], b);
    } else {
      assert a + b == b;
    }
  }

  /** A rack of free items is kept whole; a rack with no free item gives nothing. */
  lemma {:induction false} FreeItemsOfUniform(items: seq<WorkshopItem>)
    ensures (forall i :: 0 <= i < |items| ==> IsFreeItem(items[i])) ==> FreeItems(items) == items
    ensures (forall i :: 0 <= i < |items| ==> !IsFreeItem(items[i])) ==> FreeItems(items) == []
  {
    if items != [] {
      FreeItemsOfUniform(items[1..]);
      assert forall i :: 1 <= i < |items| ==> items[1..][i - 1] == items[i];
    }
  }

  /** Filtering twice is filtering once. */
  lemma {:induction false} FreeItemsIdempotent(items: seq<WorkshopItem>)
    ensures FreeItems(FreeItems(items)) == FreeItems(items)
  {
    FreeItemsOfUniform(FreeItems(items));
  }

  // ------------------------------------------------------------ requests

  /** The rack of a page, absent from any page that is not the workshop. */
  function RackOf(p: Page): Option<seq<WorkshopItem>> {
    if p.Workshop? then p.rack else None
  }

  /** `retrieve_all_workshop_items`: one GET; a page without the rack is a ReferenceError. */
  function RetrieveAll(req: Requester, base: Headers -> Headers, s: SessionState): (res: (SessionState, Result<seq<WorkshopItem>>))
    requires Records(req)
    ensures Extends(s, res.0) && CallsSince(s, res.0) == [RackCall(base)]
    ensures var o := res.0.exchanges[|s.exchanges|].outcome;
            && (o.Err? ==> res.1 == Err(o.error))
            && (o.Ok? && RackOf(o.value.page).None? ==> res.1 == Err(ReferenceError))
            && (o.Ok? && RackOf(o.value.page).Some? ==> res.1 == Ok(RackOf(o.value.page).value))
  {
    RequestExtends(req, s, RackCall(base));
    var (s1, o) := req(s, RackCall(base));
    if o.Err? then (s1, Err(o.error))
    else match RackOf(o.value.page)
      case None => (s1, Err(ReferenceError))
      case Some(items) => (s1, Ok(items))
  }

  /**
   * `retrieve_workshop_item`: POST the item's first link without following
   * the redirect, then read the rack again. An item without a link is a
   * TypeError before anything is sent. The purchase went through exactly
   * when the POST was answered with a 302.
   */
  function RetrieveItem(req: Requester, base: Headers -> Headers, s: SessionState, item: WorkshopItem): (res: (SessionState, Result<bool>))
    requires Records(req)
    ensures Extends(s, res.0)
    ensures var cs := CallsSince(s, res.0);
            && (item.firstHref.None? <==> cs == [])
            && (item.firstHref.None? ==> res.1 == Err(TypeError))
            && (item.firstHref.Some? ==> 1 <= |cs| <= 2 && cs[0] == PurchaseCall(item.firstHref.value))
            && (|cs| == 2 ==> cs[1] == RackCall(base))
            && (res.1.Ok? ==> |cs| == 2)
  {
    if item.firstHref.None? then (s, Err(TypeError))
    else
      var call := PurchaseCall(item.firstHref.value);
      RequestExtends(req, s, call);
      var (s1, o) := req(s, call);
      if o.Err? then (s1, Err(o.error))
      else
        var success := o.value.status == 302;
        var (s2, rack) := RetrieveAll(req, base, s1);
        CallsSinceChain(s, s1, s2);
        if rack.Err? then (s2, Err(rack.error)) else (s2, Ok(success))
  }

  /** A retrieval that returns reports whether the answer to its POST was a 302. */
  lemma RetrieveItemSuccess(req: Requester, base: Headers -> Headers, s: SessionState, item: WorkshopItem)
    requires Records(req)
    requires RetrieveItem(req, base, s, item).1.Ok?
    ensures var res := RetrieveItem(req, base, s, item);
            var o := res.0.exchanges[|s.exchanges|].outcome;
            o.Ok? && (res.1.value <==> o.value.status == 302)
  {
    var call := PurchaseCall(item.firstHref.value);
    RequestExtends(req, s, call);
    var (s1, o) := req(s, call);
    assert s1.exchanges[|s.exchanges|] == Exchange(call, o);
    var s2 := RetrieveAll(req, base, s1).0;
    assert s2.exchanges[..|s1.exchanges|] == s1.exchanges;
  }

  /** Every item has a link to buy it with. */
  predicate AllLinked(items: seq<WorkshopItem>) {
    forall i :: 0 <= i < |items| ==> items[i].firstHref.Some?
  }

  /** The requests of buying `items` in turn: each item's POST, then the rack again. */
  function RetrievalCalls(base: Headers -> Headers, items: seq<WorkshopItem>): (cs: seq<Call>)
    requires AllLinked(items)
    ensures |cs| == 2 * |items|
  {
    if items == [] then []
    else [PurchaseCall(items[0].firstHref.value), RackCall(base)] + RetrievalCalls(base, items[1..])
  }

  /** Each item is bought exactly once, in list order, and the rack is read after each purchase. */
  lemma {:induction false} RetrievalCallsAt(base: Headers -> Headers, items: seq<WorkshopItem>, i: nat)
    requires AllLinked(items) && i < |items|
    ensures RetrievalCalls(base, items)[2 * i] == PurchaseCall(items[i].firstHref.value)
    ensures RetrievalCalls(base, items)[2 * i + 1] == RackCall(base)
  {
    if i > 0 {
      RetrievalCallsAt(base, items[1..], i - 1);
    }
  }

  /** The `for item in free_items` loop: the first error ends it; the purchase results are only logged. */
  function RetrieveEach(req: Requester, base: Headers -> Headers, s: SessionState, items: seq<WorkshopItem>): (res: (SessionState, Option<Error>))
    requires Records(req)
    ensures Extends(s, res.0)
    decreases |items|
  {
    if items == [] then (s, None)
    else
      var (s1, bought) := RetrieveItem(req, base, s, items[0]);
      if bought.Err? then (s1, Some(bought.error))
      else
        var (s2, err) := RetrieveEach(req, base, s1, items[1..]);
        CallsSinceChain(s, s1, s2);
        (s2, err)
  }

  /** A loop that ends without an error bought every item, each once and in order. */
  lemma {:induction false} RetrieveEachCalls(req: Requester, base: Headers -> Headers, s: SessionState, items: seq<WorkshopItem>)
    requires Records(req)
    requires RetrieveEach(req, base, s, items).1.None?
    ensures AllLinked(items) && CallsSince(s, RetrieveEach(req, base, s, items).0) == RetrievalCalls(base, items)
    decreases |items|
  {
    if items != [] {
      var s1 := RetrieveItem(req, base, s, items[0]).0;
      RetrieveEachCalls(req, base, s1, items[1..]);
      RetrieveEachStep(req, base, s, items);
    }
  }

  /** One turn of the loop: the first item's calls, then those of the rest. */
  lemma RetrieveEachStep(req: Requester, base: Headers -> Headers, s: SessionState, items: seq<WorkshopItem>)
    requires Records(req) && items != []
    requires RetrieveEach(req, base, s, items).1.None?
    requires var s1 := RetrieveItem(req, base, s, items[0]).0;
             AllLinked(items[1..]) && CallsSince(s1, RetrieveEach(req, base, s1, items[1..]).0) == RetrievalCalls(base, items[1..])
    ensures AllLinked(items) && CallsSince(s, RetrieveEach(req, base, s, items).0) == RetrievalCalls(base, items)
  {
    var (s1, bought) := RetrieveItem(req, base, s, items[0]);
    var s2 := RetrieveEach(req, base, s1, items[1..]).0;
    assert bought.Ok?;
    var cs1 := CallsSince(s, s1);
    assert cs1 == [PurchaseCall(items[0].firstHref.value), RackCall(base)];
    AllLinkedCons(items);
    CallsSinceChain(s, s1, s2);
    assert RetrieveEach(req, base, s, items).0 == s2;
  }

  lemma AllLinkedCons(items: seq<WorkshopItem>)
    requires items != [] && items[0].firstHref.Some? && AllLinked(items[1..])
    ensures AllLinked(items)
  {
    forall i | 0 <= i < |items| ensures items[i].firstHref.Some? {
      if i > 0 { assert items[i] == items[1..][i - 1]; }
    }
  }

  /** `get_free_workshop_items`: read the rack, then buy its free items in turn. */
  function FreeItemsRetrieved(req: Requester, base: Headers -> Headers, s: SessionState): (res: (SessionState, Option<Error>))
    requires Records(req)
    ensures Extends(s, res.0)
    ensures var cs := CallsSince(s, res.0); |cs| >= 1 && cs[0] == RackCall(base)
  {
    var (s1, items) := RetrieveAll(req, base, s);
    if items.Err? then (s1, Some(items.error))
    else
      var (s2, err) := RetrieveEach(req, base, s1, FreeItems(items.value));
      CallsSinceChain(s, s1, s2);
      (s2, err)
  }

  /**
   * When the run ends without an error, the rack was read once, and then
   * each free item of that rack was bought exactly once, in rack order,
   * with the rack read again after each purchase.
   */
  lemma FreeItemsRetrievedCalls(req: Requester, base: Headers -> Headers, s: SessionState)
    requires Records(req)
    requires FreeItemsRetrieved(req, base, s).1.None?
    ensures var res := FreeItemsRetrieved(req, base, s);
            var o := res.0.exchanges[|s.exchanges|].outcome;
            o.Ok? && RackOf(o.value.page).Some?
            && AllLinked(FreeItems(RackOf(o.value.page).value))
            && CallsSince(s, res.0) == [RackCall(base)] + RetrievalCalls(base, FreeItems(RackOf(o.value.page).value))
  {
    var (s1, items) := RetrieveAll(req, base, s);
    var o := s1.exchanges[|s.exchanges|].outcome;
    var s2 := RetrieveEach(req, base, s1, FreeItems(items.value)).0;
    RetrieveEachCalls(req, base, s1, FreeItems(items.value));
    CallsSinceChain(s, s1, s2);
    assert s2.exchanges[..|s1.exchanges|] == s1.exchanges;
    assert s2.exchanges[|s.exchanges|] == s1.exchanges[|s.exchanges|];
  }

  // ------------------------------------------------------------ the manager

  /** `retrieve_all_workshop_items(session_manager)`. */
  method RetrieveAllWorkshopItems(sm: SessionManager) returns (items: Result<seq<WorkshopItem>>)
    modifies sm
    ensures (sm.State(), items) == RetrieveAll(RequesterOf(sm.world), sm.world.baseHeaders, old(sm.State()))
  {
    var page := sm.Request(RackCall(sm.world.baseHeaders));
    if page.Err? {
      return Err(page.error);
    }
    var rack := RackOf(page.value.page);
    if rack.None? {
      return Err(ReferenceError);
    }
    items := Ok(rack.value);
  }

  /** `retrieve_workshop_item(session_manager, workshop_item)`. */
  method RetrieveWorkshopItem(sm: SessionManager, item: WorkshopItem) returns (success: Result<bool>)
    modifies sm
    ensures (sm.State(), success) == RetrieveItem(RequesterOf(sm.world), sm.world.baseHeaders, old(sm.State()), item)
  {
    if item.firstHref.None? {
      return Err(TypeError);
    }
    var reply := sm.Request(PurchaseCall(item.firstHref.value));
    if reply.Err? {
      return Err(reply.error);
    }
    var retrieved := reply.value.status == 302;
    var rack := RetrieveAllWorkshopItems(sm);
    if rack.Err? {
      return Err(rack.error);
    }
    success := Ok(retrieved);
  }

  /** `get_free_workshop_items(session_manager)`: the loop over the free items. */
  method GetFreeWorkshopItems(sm: SessionManager) returns (err: Option<Error>)
    modifies sm
    ensures Records(RequesterOf(sm.world))
    ensures (sm.State(), err) == FreeItemsRetrieved(RequesterOf(sm.world), sm.world.baseHeaders, old(sm.State()))
  {
    DoRequestRecords(sm.world);
    var all := RetrieveAllWorkshopItems(sm);
    if all.Err? {
      return Some(all.error);
    }
    var free := FreeItems(all.value);
    ghost var goal := RetrieveEach(RequesterOf(sm.world), sm.world.baseHeaders, sm.State(), free);
    var i := 0;
    while i < |free|
      invariant 0 <= i <= |free|
      invariant RetrieveEach(RequesterOf(sm.world), sm.world.baseHeaders, sm.State(), free[i..]) == goal
    {
      var bought := RetrieveWorkshopItem(sm, free[i]);
      if bought.Err? {
        return Some(bought.error);
      }
      assert free[i..][1..] == free[i + 1..];
      i := i + 1;
    }
    err := None;
  }
}

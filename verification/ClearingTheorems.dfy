/** What every clearing guarantees: the price is optimal over all prices, rationing is exact
    and follows price-time priority, the outcome does not depend on the order of the batch,
    and what is left over no longer crosses. */
module ClearingTheorems {
  import opened Sequences
  import opened Orders
  import opened Clearing

  // ---- the price ----

  ghost predicate Preferred(os: seq<Order>, p: int, q: int) {
    Imbalance(os, p) < Imbalance(os, q) || (Imbalance(os, p) == Imbalance(os, q) && p <= q)
  }

  /** (p, v) is the clearing price and volume: v is the most any price at all would trade,
      and p is the quoted price trading it with least imbalance, then lowest. */
  ghost predicate IsClearingPrice(os: seq<Order>, p: nat, v: nat) {
    && (forall q: int :: Volume(os, q) <= v)
    && (v == 0 ==> p == 0)
    && (v > 0 ==>
          && Quoted(os, p) && Volume(os, p) == v
          && forall q: int :: Quoted(os, q) && Volume(os, q) == v ==> Preferred(os, p, q))
  }

  lemma ClearingPriceUnique(os: seq<Order>, p: nat, v: nat, p': nat, v': nat)
    requires IsClearingPrice(os, p, v) && IsClearingPrice(os, p', v')
    ensures p == p' && v == v'
  {
    assert Volume(os, p) <= v' && Volume(os, p') <= v;
    if v > 0 {
      assert Preferred(os, p, p') && Preferred(os, p', p);
    }
  }

  /** The best of the candidates seen so far. */
  ghost predicate BestOf(os: seq<Order>, seen: seq<nat>, b: Best) {
    && (forall q | q in seen :: Volume(os, q) <= b.volume)
    && (b.volume == 0 ==> b.price == 0)
    && (b.volume > 0 ==>
          && b.price in seen && Volume(os, b.price) == b.volume && Imbalance(os, b.price) == b.imb
          && forall q | q in seen && Volume(os, q) == b.volume :: Preferred(os, b.price, q))
  }

  lemma BetterIsBest(os: seq<Order>, seen: seq<nat>, b: Best, p: nat)
    requires BestOf(os, seen, b)
    requires forall q | q in seen :: q < p
    ensures BestOf(os, seen + [p], Better(os, b, p))
  {
    var b' := Better(os, b, p);
    forall q | q in seen + [p]
      ensures Volume(os, q) <= b'.volume
      ensures b'.volume > 0 && Volume(os, q) == b'.volume ==> Preferred(os, b'.price, q)
    {
      assert q in seen || q == p;
    }
  }

  lemma {:induction false} SelectIsBest(os: seq<Order>, prices: seq<nat>)
    requires forall i, j | 0 <= i < j < |prices| :: prices[i] < prices[j]
    ensures BestOf(os, prices, Select(os, prices))
  {
    if prices == [] {
    } else {
      var n := |prices| - 1;
      SelectIsBest(os, prices[..n]);
      BetterIsBest(os, prices[..n], Select(os, prices[..n]), prices[n]);
      assert prices == prices[..n] + [prices[n]];
    }
  }

  /** Between quoted prices nothing is gained: some quoted price trades at least as much. */
  lemma {:induction false} QuotedDominates(os: seq<Order>, q: int)
    requires Volume(os, q) > 0
    ensures exists p :: Quoted(os, p) && Volume(os, p) >= Volume(os, q)
    decreases q
  {
    TotalPositive(os, SupplyAt(q));
    assert q >= 0;
    if !Quoted(os, q) {
      TotalAgree(os, SupplyAt(q), SupplyAt(q - 1));
      TotalMono(os, DemandAt(q), DemandAt(q - 1));
      QuotedDominates(os, q - 1);
    }
  }

  lemma ClearPriceOptimal(os: seq<Order>)
    ensures IsClearingPrice(os, Clear(os).price, Clear(os).volume)
  {
    var ladder := Ladder(os);
    var b := Select(os, ladder);
    SelectIsBest(os, ladder);
    forall q: int ensures Volume(os, q) <= b.volume {
      if Volume(os, q) > 0 {
        QuotedDominates(os, q);
        var p :| Quoted(os, p) && Volume(os, p) >= Volume(os, q);
        assert p in ladder;
      }
    }
    assert forall q: int :: Quoted(os, q) ==> q in ladder;
  }

  /** `c` is the clearing of the batch: its price, and the rations that price implies. */
  ghost predicate IsClearing(os: seq<Order>, c: Result) {
    && IsClearingPrice(os, c.price, c.volume)
    && c.fills == if c.volume == 0 then map[] else FillsAt(os, c.price, c.volume)
  }

  /** `c` hands out the rations of a price at which its whole volume can trade. */
  ghost predicate Rationed(os: seq<Order>, c: Result) {
    && (c.volume > 0 ==> c.volume == Volume(os, c.price))
    && c.fills == if c.volume == 0 then map[] else FillsAt(os, c.price, c.volume)
  }

  lemma ClearIsClearing(os: seq<Order>)
    ensures IsClearing(os, Clear(os))
  {
    ClearPriceOptimal(os);
  }

  // ---- rationing ----

  function QtyOf(): Order -> nat { (o: Order) => o.qty }
  function GotBy(fills: Fills): Order -> nat { (o: Order) => Got(fills, o.oid) }

  /** The quantity queued ahead of the order with this oid. */
  function Ahead(queue: seq<Order>, oid: nat): nat {
    if queue == [] || queue[0].oid == oid then 0 else queue[0].qty + Ahead(queue[1..], oid)
  }

  /** What is left of `rem` for an order with `ahead` in front of it. */
  function Slice(rem: nat, ahead: nat, qty: nat): nat {
    if rem <= ahead then 0 else Min(rem - ahead, qty)
  }

  lemma {:induction false} RationOther(queue: seq<Order>, rem: nat, fills: Fills, oid: nat)
    requires forall o :: o in queue ==> o.oid != oid
    ensures Got(Ration(queue, rem, fills), oid) == Got(fills, oid)
  {
    if queue != [] && rem != 0 {
      var f := Min(rem, queue[0].qty);
      RationOther(queue[1..], rem - f, fills[queue[0].oid := Got(fills, queue[0].oid) + f], oid);
    }
  }

  lemma SoleMember(queue: seq<Order>, o: Order)
    requires SoleOid(queue, o)
    ensures o in queue && forall x :: x in queue && x.oid == o.oid ==> x == o
  {
    FilterMembers(queue, HasOid(o.oid));
    assert o in [o];
    forall x | x in queue && x.oid == o.oid ensures x == o {
      assert x in Filter(queue, HasOid(o.oid));
    }
  }

  lemma SoleTail(queue: seq<Order>, o: Order)
    requires SoleOid(queue, o)
    ensures queue != []
    ensures queue[0].oid == o.oid ==> queue[0] == o && forall x :: x in queue[1..] ==> x.oid != o.oid
    ensures queue[0].oid != o.oid ==> SoleOid(queue[1..], o)
  {
    SoleMember(queue, o);
    if queue[0].oid == o.oid {
      var rest := Filter(queue[1..], HasOid(o.oid));
      assert |[queue[0]] + rest| == 1 + |rest|;
      FilterMembers(queue[1..], HasOid(o.oid));
      assert forall x :: x in queue[1..] && HasOid(o.oid)(x) ==> x in rest;
    }
  }

  lemma {:induction false} RationShare(queue: seq<Order>, rem: nat, fills: Fills, o: Order)
    requires SoleOid(queue, o)
    ensures Got(Ration(queue, rem, fills), o.oid) == Got(fills, o.oid) + Slice(rem, Ahead(queue, o.oid), o.qty)
  {
    SoleTail(queue, o);
    if rem != 0 {
      var f := Min(rem, queue[0].qty);
      var fills' := fills[queue[0].oid := Got(fills, queue[0].oid) + f];
      if queue[0].oid == o.oid {
        RationOther(queue[1..], rem - f, fills', o.oid);
      } else {
        RationShare(queue[1..], rem - f, fills', o);
      }
    }
  }

  /** A whole queue receives exactly the smaller of what is offered and what it asks for. */
  lemma {:induction false} RationTotal(queue: seq<Order>, rem: nat, fills: Fills)
    requires UniqueOids(queue)
    requires forall o :: o in queue ==> o.oid !in fills
    ensures Total(queue, GotBy(Ration(queue, rem, fills))) == Min(rem, Total(queue, QtyOf()))
  {
    if queue == [] {
    } else {
      if rem == 0 {
        TotalAgree(queue, GotBy(fills), (o: Order) => 0);
        TotalZero(queue);
      } else {
        var f := Min(rem, queue[0].qty);
        var fills' := fills[queue[0].oid := Got(fills, queue[0].oid) + f];
        RationTotal(queue[1..], rem - f, fills');
        RationOther(queue[1..], rem - f, fills', queue[0].oid);
      }
    }
  }

  lemma {:induction false} TotalZero(queue: seq<Order>)
    ensures Total(queue, (o: Order) => 0) == 0
  {
    if queue == [] {
    } else {
      TotalZero(queue[1..]);
    }
  }

  lemma {:induction false} AheadBound(queue: seq<Order>, le: (Order, Order) -> bool, o: Order, w: Order -> nat)
    requires SoleOid(queue, o) && SortedBy(queue, le)
    requires w(o) >= o.qty
    requires forall x :: x in queue && le(x, o) ==> w(x) >= x.qty
    ensures Ahead(queue, o.oid) + o.qty <= Total(queue, w)
  {
    SoleTail(queue, o);
    if queue[0].oid != o.oid {
      SoleMember(queue[1..], o);
      AheadBound(queue[1..], le, o, w);
    }
  }

  lemma {:induction false} AheadOrder(queue: seq<Order>, le: (Order, Order) -> bool, a: Order, b: Order)
    requires SortedBy(queue, le) && SoleOid(queue, a) && SoleOid(queue, b)
    requires le(a, b) && !le(b, a) && a.oid != b.oid
    ensures Ahead(queue, a.oid) + a.qty <= Ahead(queue, b.oid)
  {
    SoleMember(queue, a);
    SoleTail(queue, a);
    SoleTail(queue, b);
    if queue[0].oid != a.oid && queue[0].oid != b.oid {
      AheadOrder(queue[1..], le, a, b);
    }
    assert a in queue && (a == queue[0] || a in queue[1..]);
  }

  // ---- the queues of a clearing ----

  lemma QueuesSorted(os: seq<Order>, p: nat)
    ensures SortedBy(BuyQueue(os, p), BuyFirst()) && SortedBy(SellQueue(os, p), SellFirst())
  {
    SortSorted(Filter(os, EligibleBuy(p)), BuyFirst());
    SortSorted(Filter(os, EligibleSell(p)), SellFirst());
  }

  lemma QueueMembers(os: seq<Order>, p: nat, o: Order)
    ensures o in BuyQueue(os, p) <==> o in os && EligibleBuy(p)(o)
    ensures o in SellQueue(os, p) <==> o in os && EligibleSell(p)(o)
  {
    SortMember(Filter(os, EligibleBuy(p)), BuyFirst(), o);
    SortMember(Filter(os, EligibleSell(p)), SellFirst(), o);
    FilterMember(os, EligibleBuy(p), o);
    FilterMember(os, EligibleSell(p), o);
  }

  lemma SingletonPerm(s: seq<Order>, o: Order)
    requires multiset(s) == multiset([o])
    ensures s == [o]
  {
    PermSize(s, [o]);
    PermMember(s, [o], s[0]);
  }

  /** An order that is alone with its oid in the batch is alone with it in its queue. */
  lemma SoleInSort(os: seq<Order>, p: Order -> bool, le: (Order, Order) -> bool, o: Order)
    requires SoleOid(os, o) && p(o)
    ensures SoleOid(Sort(Filter(os, p), le), o)
  {
    var same := HasOid(o.oid);
    var both := (x: Order) => p(x) && x.oid == o.oid;
    FilterPerm(Sort(Filter(os, p), le), Filter(os, p), same);
    FilterTwice(os, p, same, both);
    FilterTwice(os, same, p, both);
    assert Filter([o], p) == [o];
    SingletonPerm(Filter(Sort(Filter(os, p), le), same), o);
  }

  /** What the order is due: its slice of the volume if the price reaches its limit. */
  function Due(os: seq<Order>, c: Result, o: Order): nat {
    if c.volume == 0 then 0
    else if EligibleBuy(c.price)(o) then Slice(c.volume, Ahead(BuyQueue(os, c.price), o.oid), o.qty)
    else if EligibleSell(c.price)(o) then Slice(c.volume, Ahead(SellQueue(os, c.price), o.oid), o.qty)
    else 0
  }

  lemma QueuesMissOid(os: seq<Order>, p: nat, o: Order)
    requires SoleOid(os, o)
    ensures !EligibleBuy(p)(o) ==> forall x :: x in BuyQueue(os, p) ==> x.oid != o.oid
    ensures !EligibleSell(p)(o) ==> forall x :: x in SellQueue(os, p) ==> x.oid != o.oid
  {
    SoleMember(os, o);
    forall x | x in BuyQueue(os, p) ensures x.oid == o.oid ==> EligibleBuy(p)(o) {
      QueueMembers(os, p, x);
    }
    forall x | x in SellQueue(os, p) ensures x.oid == o.oid ==> EligibleSell(p)(o) {
      QueueMembers(os, p, x);
    }
  }

  lemma FillIsDue(os: seq<Order>, c: Result, o: Order)
    requires Rationed(os, c) && SoleOid(os, o)
    ensures Got(c.fills, o.oid) == Due(os, c, o)
  {
    if c.volume > 0 {
      var p, buys, sells := c.price, BuyQueue(os, c.price), SellQueue(os, c.price);
      QueuesMissOid(os, p, o);
      if EligibleBuy(p)(o) {
        SoleInSort(os, EligibleBuy(p), BuyFirst(), o);
        RationShare(buys, c.volume, map[], o);
        RationOther(sells, c.volume, Ration(buys, c.volume, map[]), o.oid);
      } else {
        RationOther(buys, c.volume, map[], o.oid);
        SellFillIsDue(os, c, o);
      }
    }
  }

  lemma SellFillIsDue(os: seq<Order>, c: Result, o: Order)
    requires Rationed(os, c) && SoleOid(os, o) && c.volume > 0 && !EligibleBuy(c.price)(o)
    ensures Got(c.fills, o.oid) == Got(Ration(BuyQueue(os, c.price), c.volume, map[]), o.oid) + Due(os, c, o)
  {
    var p, sells := c.price, SellQueue(os, c.price);
    var half := Ration(BuyQueue(os, p), c.volume, map[]);
    QueuesMissOid(os, p, o);
    if EligibleSell(p)(o) {
      SoleInSort(os, EligibleSell(p), SellFirst(), o);
      RationShare(sells, c.volume, half, o);
    } else {
      RationOther(sells, c.volume, half, o.oid);
    }
  }

  /** No order exceeds its quantity or trades through its limit. */
  lemma FillWithinLimits(os: seq<Order>, o: Order)
    requires SoleOid(os, o)
    ensures Got(Clear(os).fills, o.oid) <= o.qty
    ensures Got(Clear(os).fills, o.oid) > 0 ==>
              if o.side.Buy? then o.price >= Clear(os).price else o.price <= Clear(os).price
  {
    ClearIsClearing(os);
    assert Rationed(os, Clear(os));
    FillIsDue(os, Clear(os), o);
  }

  /** `a` has price-time priority over `b`: same side, better price, or same price and lower oid. */
  predicate Outranks(a: Order, b: Order) {
    && a.side == b.side
    && ((if a.side.Buy? then a.price > b.price else a.price < b.price)
        || (a.price == b.price && a.oid < b.oid))
  }

  lemma PriorityQueued(os: seq<Order>, c: Result, a: Order, b: Order)
    requires SoleOid(os, a) && SoleOid(os, b) && Outranks(a, b)
    ensures EligibleBuy(c.price)(b) ==>
              Ahead(BuyQueue(os, c.price), a.oid) + a.qty <= Ahead(BuyQueue(os, c.price), b.oid)
    ensures EligibleSell(c.price)(b) ==>
              Ahead(SellQueue(os, c.price), a.oid) + a.qty <= Ahead(SellQueue(os, c.price), b.oid)
  {
    SoleMember(os, a);
    SoleMember(os, b);
    QueuesSorted(os, c.price);
    if EligibleBuy(c.price)(b) {
      SoleInSort(os, EligibleBuy(c.price), BuyFirst(), a);
      SoleInSort(os, EligibleBuy(c.price), BuyFirst(), b);
      AheadOrder(BuyQueue(os, c.price), BuyFirst(), a, b);
    } else if EligibleSell(c.price)(b) {
      SoleInSort(os, EligibleSell(c.price), SellFirst(), a);
      SoleInSort(os, EligibleSell(c.price), SellFirst(), b);
      AheadOrder(SellQueue(os, c.price), SellFirst(), a, b);
    }
  }

  lemma SliceFair(v: nat, ahead: nat, qty: nat, behind: nat, other: nat)
    requires ahead + qty <= behind && Slice(v, ahead, qty) < qty
    ensures Slice(v, behind, other) == 0
  {
  }

  lemma FairAt(os: seq<Order>, c: Result, a: Order, b: Order)
    requires SoleOid(os, a) && SoleOid(os, b) && Outranks(a, b)
    requires Due(os, c, a) < a.qty
    ensures Due(os, c, b) == 0
  {
    PriorityQueued(os, c, a, b);
    var buys, sells := BuyQueue(os, c.price), SellQueue(os, c.price);
    if c.volume == 0 {
    } else if EligibleBuy(c.price)(b) {
      SliceFair(c.volume, Ahead(buys, a.oid), a.qty, Ahead(buys, b.oid), b.qty);
    } else if EligibleSell(c.price)(b) {
      SliceFair(c.volume, Ahead(sells, a.oid), a.qty, Ahead(sells, b.oid), b.qty);
    }
  }

  /** A partly filled order leaves nothing for any order it outranks. */
  lemma RationingFair(os: seq<Order>, a: Order, b: Order)
    requires SoleOid(os, a) && SoleOid(os, b) && Outranks(a, b)
    requires Got(Clear(os).fills, a.oid) < a.qty
    ensures Got(Clear(os).fills, b.oid) == 0
  {
    var c := Clear(os);
    ClearIsClearing(os);
    assert Rationed(os, c);
    FillIsDue(os, c, a);
    FillIsDue(os, c, b);
    FairAt(os, c, a, b);
  }

  lemma QueueTotals(os: seq<Order>, p: nat)
    ensures Total(BuyQueue(os, p), QtyOf()) == Demand(os, p)
    ensures Total(SellQueue(os, p), QtyOf()) == Supply(os, p)
  {
    FilterMembers(os, EligibleBuy(p));
    FilterMembers(os, EligibleSell(p));
    SideTotal(os, EligibleBuy(p), BuyFirst(), DemandAt(p), QtyOf());
    SideTotal(os, EligibleSell(p), SellFirst(), SupplyAt(p), QtyOf());
  }

  /** A sum over one side of the batch is a sum over that side's queue. */
  lemma SideTotal(os: seq<Order>, elig: Order -> bool, le: (Order, Order) -> bool, w: Order -> nat, got: Order -> nat)
    requires forall o :: o in os && !elig(o) ==> w(o) == 0
    requires forall o :: o in os && elig(o) ==> w(o) == got(o)
    ensures Total(os, w) == Total(Sort(Filter(os, elig), le), got)
  {
    FilterMembers(os, elig);
    TotalFilter(os, elig, w);
    TotalAgree(Filter(os, elig), w, got);
    TotalPerm(Sort(Filter(os, elig), le), Filter(os, elig), got);
  }

  lemma UniqueSort(os: seq<Order>, p: Order -> bool, le: (Order, Order) -> bool)
    requires UniqueOids(os)
    ensures UniqueOids(Sort(Filter(os, p), le))
  {
    UniqueFilter(os, p);
    UniquePerm(Filter(os, p), Sort(Filter(os, p), le));
  }

  lemma {:induction false} UniqueFilter(os: seq<Order>, p: Order -> bool)
    requires UniqueOids(os)
    ensures UniqueOids(Filter(os, p))
  {
    if os == [] {
    } else {
      UniqueFilter(os[1..], p);
      FilterMembers(os[1..], p);
      assert forall o :: o in os[1..] ==> o.oid != os[0].oid;
    }
  }

  lemma UniquePerm(a: seq<Order>, b: seq<Order>)
    requires UniqueOids(a) && multiset(a) == multiset(b)
    ensures UniqueOids(b)
  {
    PermDistinct(a, b);
    forall i, j | 0 <= i < j < |b| ensures b[i].oid != b[j].oid {
      PermMember(a, b, b[i]);
      PermMember(a, b, b[j]);
    }
  }

  function BoughtBy(fills: Fills): Order -> nat { (o: Order) => if o.side.Buy? then Got(fills, o.oid) else 0 }
  function SoldBy(fills: Fills): Order -> nat { (o: Order) => if o.side.Sell? then Got(fills, o.oid) else 0 }

  /** Filled buys and filled sells each sum to the volume. */
  lemma RationingExact(os: seq<Order>)
    requires UniqueOids(os)
    ensures Total(os, BoughtBy(Clear(os).fills)) == Clear(os).volume
    ensures Total(os, SoldBy(Clear(os).fills)) == Clear(os).volume
  {
    var c := Clear(os);
    ClearIsClearing(os);
    if c.volume == 0 {
      TotalAgree(os, BoughtBy(c.fills), (o: Order) => 0);
      TotalAgree(os, SoldBy(c.fills), (o: Order) => 0);
      TotalZero(os);
    } else {
      forall o | o in os ensures Got(c.fills, o.oid) == Due(os, c, o) {
        UniqueIsSole(os, o);
        FillIsDue(os, c, o);
      }
      QueueTotals(os, c.price);
      BuysExact(os, c);
      SellsExact(os, c);
      SideTotal(os, EligibleBuy(c.price), BuyFirst(), BoughtBy(c.fills), GotBy(c.fills));
      SideTotal(os, EligibleSell(c.price), SellFirst(), SoldBy(c.fills), GotBy(c.fills));
    }
  }

  lemma SidesApart(os: seq<Order>, p: nat, b: Order, s: Order)
    requires UniqueOids(os) && b in BuyQueue(os, p) && s in SellQueue(os, p)
    ensures b.oid != s.oid
  {
    QueueMembers(os, p, b);
    QueueMembers(os, p, s);
    UniqueIsSole(os, b);
    SoleMember(os, b);
  }

  lemma BuysExact(os: seq<Order>, c: Result)
    requires UniqueOids(os) && Rationed(os, c) && c.volume > 0
    ensures Total(BuyQueue(os, c.price), GotBy(c.fills)) == Min(c.volume, Total(BuyQueue(os, c.price), QtyOf()))
  {
    var buys, sells := BuyQueue(os, c.price), SellQueue(os, c.price);
    var half := Ration(buys, c.volume, map[]);
    UniqueSort(os, EligibleBuy(c.price), BuyFirst());
    RationTotal(buys, c.volume, map[]);
    forall o | o in buys ensures Got(c.fills, o.oid) == Got(half, o.oid) {
      forall x | x in sells ensures x.oid != o.oid {
        SidesApart(os, c.price, o, x);
      }
      RationOther(sells, c.volume, half, o.oid);
    }
    TotalAgree(buys, GotBy(c.fills), GotBy(half));
  }

  lemma {:induction false} RationKeys(queue: seq<Order>, rem: nat, fills: Fills, oid: nat)
    requires oid in Ration(queue, rem, fills) && oid !in fills
    ensures exists o :: o in queue && o.oid == oid
  {
    if queue[0].oid == oid {
      assert queue[0] in queue;
    } else {
      var f := Min(rem, queue[0].qty);
      RationKeys(queue[1..], rem - f, fills[queue[0].oid := Got(fills, queue[0].oid) + f], oid);
    }
  }

  lemma SellsExact(os: seq<Order>, c: Result)
    requires UniqueOids(os) && Rationed(os, c) && c.volume > 0
    ensures Total(SellQueue(os, c.price), GotBy(c.fills)) == Min(c.volume, Total(SellQueue(os, c.price), QtyOf()))
  {
    var buys, sells := BuyQueue(os, c.price), SellQueue(os, c.price);
    var half := Ration(buys, c.volume, map[]);
    UniqueSort(os, EligibleSell(c.price), SellFirst());
    forall o | o in sells ensures o.oid !in half {
      if o.oid in half {
        RationKeys(buys, c.volume, map[], o.oid);
        var x :| x in buys && x.oid == o.oid;
        SidesApart(os, c.price, x, o);
      }
    }
    RationTotal(sells, c.volume, half);
  }

  // ---- the residue no longer crosses ----

  function Left(c: Result, o: Order): nat {
    var got := Got(c.fills, o.oid);
    if o.qty >= got then o.qty - got else 0
  }

  /** If every buy the price reaches is absorbed, a buy with a remainder was not reached. */
  lemma AbsorbedBuy(os: seq<Order>, c: Result, b: Order)
    requires Rationed(os, c) && SoleOid(os, b) && b.side.Buy? && Left(c, b) > 0
    requires c.volume == Demand(os, c.price) > 0
    ensures b.price < c.price
  {
    FillIsDue(os, c, b);
    if EligibleBuy(c.price)(b) {
      BuyAbsorbed(os, c.price, b);
    }
  }

  lemma BuyAbsorbed(os: seq<Order>, p: nat, b: Order)
    requires SoleOid(os, b) && EligibleBuy(p)(b)
    ensures Ahead(BuyQueue(os, p), b.oid) + b.qty <= Demand(os, p)
  {
    SoleInSort(os, EligibleBuy(p), BuyFirst(), b);
    QueuesSorted(os, p);
    AheadBound(BuyQueue(os, p), BuyFirst(), b, QtyOf());
    QueueTotals(os, p);
  }

  lemma AbsorbedSell(os: seq<Order>, c: Result, s: Order)
    requires Rationed(os, c) && SoleOid(os, s) && s.side.Sell? && Left(c, s) > 0
    requires c.volume == Supply(os, c.price) > 0
    ensures s.price > c.price
  {
    FillIsDue(os, c, s);
    if EligibleSell(c.price)(s) {
      SellAbsorbed(os, c.price, s);
    }
  }

  lemma SellAbsorbed(os: seq<Order>, p: nat, s: Order)
    requires SoleOid(os, s) && EligibleSell(p)(s)
    ensures Ahead(SellQueue(os, p), s.oid) + s.qty <= Supply(os, p)
  {
    SoleInSort(os, EligibleSell(p), SellFirst(), s);
    QueuesSorted(os, p);
    AheadBound(SellQueue(os, p), SellFirst(), s, QtyOf());
    QueueTotals(os, p);
  }

  /** Supply up to a sell's own limit covers everything queued up to and including it. */
  lemma SupplyCovers(os: seq<Order>, p: nat, s: Order, q: nat)
    requires SoleOid(os, s) && EligibleSell(p)(s) && s.price <= q
    ensures Ahead(SellQueue(os, p), s.oid) + s.qty <= Supply(os, q)
  {
    SoleInSort(os, EligibleSell(p), SellFirst(), s);
    QueuesSorted(os, p);
    var queue := SellQueue(os, p);
    forall x | x in queue && SellFirst()(x, s) ensures SupplyAt(q)(x) >= x.qty {
      QueueMembers(os, p, x);
    }
    AheadBound(queue, SellFirst(), s, SupplyAt(q));
    TotalPerm(queue, Filter(os, EligibleSell(p)), SupplyAt(q));
    TotalFilterLe(os, EligibleSell(p), SupplyAt(q));
  }

  lemma DemandCovers(os: seq<Order>, p: nat, b: Order, q: nat)
    requires SoleOid(os, b) && EligibleBuy(p)(b) && b.price >= q
    ensures Ahead(BuyQueue(os, p), b.oid) + b.qty <= Demand(os, q)
  {
    SoleInSort(os, EligibleBuy(p), BuyFirst(), b);
    QueuesSorted(os, p);
    var queue := BuyQueue(os, p);
    forall x | x in queue && BuyFirst()(x, b) ensures DemandAt(q)(x) >= x.qty {
      QueueMembers(os, p, x);
    }
    AheadBound(queue, BuyFirst(), b, DemandAt(q));
    TotalPerm(queue, Filter(os, EligibleBuy(p)), DemandAt(q));
    TotalFilterLe(os, EligibleBuy(p), DemandAt(q));
  }

  /** Buys all absorbed: a sell left over at or below an unfilled buy's limit means more supply there. */
  lemma CrossedUnderDemand(os: seq<Order>, c: Result, b: Order, s: Order)
    requires Rationed(os, c) && SoleOid(os, b) && SoleOid(os, s) && b.side.Buy? && s.side.Sell?
    requires Left(c, b) > 0 && Left(c, s) > 0 && b.price >= s.price
    requires c.volume == Demand(os, c.price) > 0
    ensures Volume(os, b.price) > c.volume
  {
    AbsorbedBuy(os, c, b);
    FillIsDue(os, c, s);
    SupplyCovers(os, c.price, s, b.price);
    SoleMember(os, b);
    TotalAtLeast(os, DemandAt(c.price), DemandAt(b.price), b);
  }

  lemma CrossedUnderSupply(os: seq<Order>, c: Result, b: Order, s: Order)
    requires Rationed(os, c) && SoleOid(os, b) && SoleOid(os, s) && b.side.Buy? && s.side.Sell?
    requires Left(c, b) > 0 && Left(c, s) > 0 && b.price >= s.price
    requires c.volume == Supply(os, c.price) > 0
    ensures Volume(os, s.price) > c.volume
  {
    AbsorbedSell(os, c, s);
    FillIsDue(os, c, b);
    DemandCovers(os, c.price, b, s.price);
    SoleMember(os, s);
    TotalAtLeast(os, SupplyAt(c.price), SupplyAt(s.price), s);
  }

  /** A crossing pair of orders with something to trade gives their prices a positive volume. */
  lemma CrossingPairTrades(os: seq<Order>, b: Order, s: Order)
    requires b in os && s in os && b.side.Buy? && s.side.Sell? && b.price >= s.price
    requires b.qty > 0 && s.qty > 0
    ensures Volume(os, b.price) > 0
  {
    TotalAtLeast(os, (o: Order) => 0, DemandAt(b.price), b);
    TotalAtLeast(os, (o: Order) => 0, SupplyAt(b.price), s);
  }

  /** After any clearing no unfilled buy remainder is priced at or above any unfilled sell remainder. */
  lemma ResidueUncrossed(os: seq<Order>, b: Order, s: Order)
    requires SoleOid(os, b) && SoleOid(os, s) && b.side.Buy? && s.side.Sell?
    requires Left(Clear(os), b) > 0 && Left(Clear(os), s) > 0
    ensures b.price < s.price
  {
    var c := Clear(os);
    ClearIsClearing(os);
    if b.price >= s.price {
      if c.volume == 0 {
        SoleMember(os, b);
        SoleMember(os, s);
        CrossingPairTrades(os, b, s);
      } else if c.volume == Demand(os, c.price) {
        CrossedUnderDemand(os, c, b, s);
      } else {
        CrossedUnderSupply(os, c, b, s);
      }
    }
  }

  /** The batch with every order reduced to what the clearing left of it. */
  function Residue(os: seq<Order>, c: Result): (r: seq<Order>)
    ensures |r| == |os|
    ensures forall i | 0 <= i < |os| :: r[i] == os[i].(qty := Left(c, os[i]))
  {
    seq(|os|, i requires 0 <= i < |os| => os[i].(qty := Left(c, os[i])))
  }

  lemma ResidueUncrossedAt(os: seq<Order>, i: nat, j: nat)
    requires UniqueOids(os) && i < |os| && j < |os| && os[i].side.Buy? && os[j].side.Sell?
    requires Left(Clear(os), os[i]) > 0 && Left(Clear(os), os[j]) > 0
    ensures os[i].price < os[j].price
  {
    UniqueIsSole(os, os[i]);
    UniqueIsSole(os, os[j]);
    ResidueUncrossed(os, os[i], os[j]);
  }

  lemma ResidueVolume(os: seq<Order>, p: int)
    requires UniqueOids(os)
    ensures Volume(Residue(os, Clear(os)), p) == 0
  {
    var r := Residue(os, Clear(os));
    if Volume(r, p) > 0 {
      TotalPositive(r, DemandAt(p));
      TotalPositive(r, SupplyAt(p));
      var i :| 0 <= i < |r| && DemandAt(p)(r[i]) > 0;
      var j :| 0 <= j < |r| && SupplyAt(p)(r[j]) > 0;
      ResidueUncrossedAt(os, i, j);
    }
  }

  /** Clearing the residue again trades nothing. */
  lemma ClearingIsComplete(os: seq<Order>)
    requires UniqueOids(os)
    ensures Clear(Residue(os, Clear(os))) == Result(0, 0, map[])
  {
    var r := Residue(os, Clear(os));
    ClearIsClearing(r);
    ResidueVolume(os, Clear(r).price);
  }

  // ---- batches that clear alike ----

  /** Two batches offer the same volume at every price, and agree on imbalance and quotes
      wherever anything trades. */
  ghost predicate SameBook(a: seq<Order>, b: seq<Order>) {
    forall q: int ::
      && Volume(a, q) == Volume(b, q)
      && (Volume(a, q) > 0 ==> Imbalance(a, q) == Imbalance(b, q) && (Quoted(a, q) <==> Quoted(b, q)))
  }

  lemma SameBookSamePrice(a: seq<Order>, b: seq<Order>, c: Result)
    requires SameBook(a, b) && IsClearing(a, c)
    ensures IsClearingPrice(b, c.price, c.volume)
  {
    forall q: int ensures Volume(b, q) <= c.volume {
      assert Volume(a, q) <= c.volume;
    }
    forall q: int | Quoted(b, q) && Volume(b, q) == c.volume && c.volume > 0 ensures Preferred(b, c.price, q) {
      assert Volume(a, q) == c.volume && Volume(a, c.price) == c.volume;
      assert Preferred(a, c.price, q);
    }
  }

  lemma SameBookSameClear(a: seq<Order>, b: seq<Order>)
    requires SameBook(a, b)
    requires Clear(a).volume > 0 ==>
               && BuyQueue(a, Clear(a).price) == BuyQueue(b, Clear(a).price)
               && SellQueue(a, Clear(a).price) == SellQueue(b, Clear(a).price)
    ensures Clear(a) == Clear(b)
  {
    ClearIsClearing(a);
    ClearIsClearing(b);
    var c, d := Clear(a), Clear(b);
    SameBookSamePrice(a, b, c);
    ClearingPriceUnique(b, c.price, c.volume, d.price, d.volume);
  }

  /** With unique oids the outcome does not depend on the order of the batch. */
  lemma ClearOrderIndependent(a: seq<Order>, b: seq<Order>)
    requires UniqueOids(a) && multiset(a) == multiset(b)
    ensures Clear(a) == Clear(b)
  {
    PermSameBook(a, b);
    QueueOrderIndependent(a, b, EligibleBuy(Clear(a).price), BuyFirst());
    QueueOrderIndependent(a, b, EligibleSell(Clear(a).price), SellFirst());
    SameBookSameClear(a, b);
  }

  lemma PermSameBook(a: seq<Order>, b: seq<Order>)
    requires multiset(a) == multiset(b)
    ensures SameBook(a, b)
  {
    forall o: Order ensures o in a <==> o in b {
      PermMember(a, b, o);
    }
    forall q: int ensures Demand(a, q) == Demand(b, q) && Supply(a, q) == Supply(b, q) {
      TotalPerm(a, b, DemandAt(q));
      TotalPerm(a, b, SupplyAt(q));
    }
  }

  lemma QueueOrderIndependent(a: seq<Order>, b: seq<Order>, elig: Order -> bool, le: (Order, Order) -> bool)
    requires UniqueOids(a) && multiset(a) == multiset(b)
    requires TotalPreorder(le)
    requires forall x, y :: le(x, y) && le(y, x) ==> x.oid == y.oid
    ensures Sort(Filter(a, elig), le) == Sort(Filter(b, elig), le)
  {
    FilterPerm(a, b, elig);
    var s, t := Sort(Filter(a, elig), le), Sort(Filter(b, elig), le);
    SortSorted(Filter(a, elig), le);
    SortSorted(Filter(b, elig), le);
    FilterMembers(a, elig);
    forall x, y | x in s && y in s && le(x, y) && le(y, x) ensures x == y {
      SortMember(Filter(a, elig), le, x);
      SortMember(Filter(a, elig), le, y);
      UniqueIsSole(a, y);
      SoleMember(a, y);
    }
    SortedUnique(s, t, le);
  }
}

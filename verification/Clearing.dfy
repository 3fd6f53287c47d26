/** Uniform-price clearing of a batch: price selection, then price-time rationing. */
module Clearing {
  import opened Sequences
  import opened Orders

  // ---- demand, supply and the volume a price would trade ----

  function DemandAt(p: int): Order -> nat {
    (o: Order) => if o.side.Buy? && o.price >= p then o.qty else 0
  }

  function SupplyAt(p: int): Order -> nat {
    (o: Order) => if o.side.Sell? && o.price <= p then o.qty else 0
  }

  function Demand(os: seq<Order>, p: int): nat { Total(os, DemandAt(p)) }

  function Supply(os: seq<Order>, p: int): nat { Total(os, SupplyAt(p)) }

  function Volume(os: seq<Order>, p: int): nat {
    Min(Demand(os, p), Supply(os, p))
  }

  function Imbalance(os: seq<Order>, p: int): nat {
    var d, s := Demand(os, p), Supply(os, p);
    if d >= s then d - s else s - d
  }

  ghost predicate Quoted(os: seq<Order>, p: int) {
    exists o :: o in os && o.price == p
  }

  // ---- price selection ----

  /** The distinct prices of the batch, ascending. */
  function Ladder(os: seq<Order>): (r: seq<nat>)
    ensures forall i, j | 0 <= i < j < |r| :: r[i] < r[j]
    ensures forall p :: p in r <==> exists o :: o in os && o.price == p
  {
    if os == [] then [] else
      var r := AddPrice(os[0].price, Ladder(os[1..]));
      assert forall o :: o in os <==> o == os[0] || o in os[1..];
      r
  }

  function AddPrice(p: nat, r: seq<nat>): (r': seq<nat>)
    requires forall i, j | 0 <= i < j < |r| :: r[i] < r[j]
    ensures forall i, j | 0 <= i < j < |r'| :: r'[i] < r'[j]
    ensures forall q :: q in r' <==> q == p || q in r
  {
    if r == [] || p < r[0] then [p] + r
    else if p == r[0] then r
    else
      assert r == [r[0]] + r[1..];
      var t := AddPrice(p, r[1..]);
      assert forall i | 0 <= i < |t| :: t[i] in t && r[0] < t[i];
      [r[0]] + t
  }

  /** The best candidate so far. `imb` is not read while `volume` is 0. */
  datatype Best = Best(price: nat, volume: nat, imb: nat)

  function Better(os: seq<Order>, b: Best, p: nat): Best {
    var v, imb := Volume(os, p), Imbalance(os, p);
    if v > b.volume || (v == b.volume && v > 0 && imb < b.imb) then Best(p, v, imb) else b
  }

  function Select(os: seq<Order>, prices: seq<nat>): Best {
    if prices == [] then Best(0, 0, 0)
    else Better(os, Select(os, prices[..|prices|-1]), prices[|prices|-1])
  }

  // ---- eligibility and price-time priority ----

  function EligibleBuy(p: nat): Order -> bool { (o: Order) => o.side.Buy? && o.price >= p }
  function EligibleSell(p: nat): Order -> bool { (o: Order) => o.side.Sell? && o.price <= p }

  function BuyFirst(): (Order, Order) -> bool {
    (a: Order, b: Order) => a.price > b.price || (a.price == b.price && a.oid <= b.oid)
  }

  function SellFirst(): (Order, Order) -> bool {
    (a: Order, b: Order) => a.price < b.price || (a.price == b.price && a.oid <= b.oid)
  }

  function BuyQueue(os: seq<Order>, p: nat): seq<Order> { Sort(Filter(os, EligibleBuy(p)), BuyFirst()) }
  function SellQueue(os: seq<Order>, p: nat): seq<Order> { Sort(Filter(os, EligibleSell(p)), SellFirst()) }

  // ---- rationing ----

  type Fills = map<nat, nat>   // oid -> filled quantity

  function Got(fills: Fills, oid: nat): nat {
    if oid in fills then fills[oid] else 0
  }

  function Ration(queue: seq<Order>, rem: nat, fills: Fills): Fills {
    if queue == [] || rem == 0 then fills
    else
      var o, f := queue[0], Min(rem, queue[0].qty);
      Ration(queue[1..], rem - f, fills[o.oid := Got(fills, o.oid) + f])
  }

  function FillsAt(os: seq<Order>, p: nat, v: nat): Fills {
    Ration(SellQueue(os, p), v, Ration(BuyQueue(os, p), v, map[]))
  }

  datatype Result = Result(price: nat, volume: nat, fills: Fills)

  function Clear(os: seq<Order>): Result {
    var b := Select(os, Ladder(os));
    if b.volume == 0 then Result(0, 0, map[])
    else Result(b.price, b.volume, FillsAt(os, b.price, b.volume))
  }

  /** The builder's clearing: a best-price loop, then one rationing loop per side. */
  method ClearBatch(os: seq<Order>) returns (c: Result)
    ensures c == Clear(os)
  {
    var prices := Ladder(os);
    var bestP: nat, bestV: nat, bestImb: nat := 0, 0, 0;
    for i := 0 to |prices|
      invariant Best(bestP, bestV, bestImb) == Select(os, prices[..i])
    {
      assert prices[..i+1][..i] == prices[..i];
      var v, imb := Volume(os, prices[i]), Imbalance(os, prices[i]);
      if v > bestV || (v == bestV && v > 0 && imb < bestImb) {
        bestP, bestV, bestImb := prices[i], v, imb;
      }
    }
    assert prices[..|prices|] == prices;
    if bestV == 0 {
      return Result(0, 0, map[]);
    }
    var fills := RationQueue(BuyQueue(os, bestP), bestV, map[]);
    fills := RationQueue(SellQueue(os, bestP), bestV, fills);
    c := Result(bestP, bestV, fills);
  }

  method RationQueue(queue: seq<Order>, volume: nat, before: Fills) returns (fills: Fills)
    ensures fills == Ration(queue, volume, before)
  {
    fills := before;
    var rem, i := volume, 0;
    while i < |queue| && rem != 0
      invariant 0 <= i <= |queue|
      invariant Ration(queue[i..], rem, fills) == Ration(queue, volume, before)
    {
      var f := Min(rem, queue[i].qty);
      assert queue[i..][1..] == queue[i+1..];
      fills := fills[queue[i].oid := Got(fills, queue[i].oid) + f];
      rem, i := rem - f, i + 1;
    }
  }
}

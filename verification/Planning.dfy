/** Round planning: which queued orders clear in an auction, which sealed ones stay hidden,
    and how the batch cap is filled. */
module Planning {
  import opened Sequences
  import opened Orders

  // ---- crossing ----

  function LowestSell(os: seq<Order>): Option<nat> {
    if os == [] then None
    else
      var rest := LowestSell(os[1..]);
      if os[0].side.Buy? then rest
      else if rest.Some? && rest.value <= os[0].price then rest
      else Some(os[0].price)
  }

  function HighestBuy(os: seq<Order>): Option<nat> {
    if os == [] then None
    else
      var rest := HighestBuy(os[1..]);
      if os[0].side.Sell? then rest
      else if rest.Some? && rest.value >= os[0].price then rest
      else Some(os[0].price)
  }

  predicate Crosses(o: Order, minSell: Option<nat>, maxBuy: Option<nat>) {
    if o.side.Buy? then minSell.Some? && o.price >= minSell.value
    else maxBuy.Some? && o.price <= maxBuy.value
  }

  predicate Elapsed(o: Order, now: int) {
    o.expiry.Some? && o.expiry.value <= now
  }

  // ---- one round, no cap ----

  /** `shown` and `public` clear now; `carry` and `deferred` wait hidden, `overflow` waits
      for room; `expired` is dropped. */
  datatype Plan = Plan(shown: seq<Order>, public: seq<Order>, carry: seq<Order>,
                       expired: seq<Order>, deferred: seq<Order>, overflow: seq<Order>)

  type Ready = Order -> bool
  function AllReady(): Ready { (o: Order) => true }

  function ReadySealed(ready: Ready): Order -> bool { (o: Order) => o.sealed && ready(o) }
  function UnreadySealed(ready: Ready): Order -> bool { (o: Order) => o.sealed && !ready(o) }

  /** The liquidity a plan judges crossing against: what would actually be submitted. */
  function Liquidity(pending: seq<Order>, resting: seq<Order>, ready: Ready): seq<Order> {
    resting + Filter(pending, IsPublic()) + Filter(pending, ReadySealed(ready))
  }

  function Crossing(minSell: Option<nat>, maxBuy: Option<nat>): Order -> bool {
    (o: Order) => Crosses(o, minSell, maxBuy)
  }
  function Late(minSell: Option<nat>, maxBuy: Option<nat>, now: int): Order -> bool {
    (o: Order) => !Crosses(o, minSell, maxBuy) && Elapsed(o, now)
  }
  function Hidden(minSell: Option<nat>, maxBuy: Option<nat>, now: int): Order -> bool {
    (o: Order) => !Crosses(o, minSell, maxBuy) && !Elapsed(o, now)
  }
  function Lapsed(now: int): Order -> bool { (o: Order) => Elapsed(o, now) }
  function Waiting(now: int): Order -> bool { (o: Order) => !Elapsed(o, now) }

  function PlanRound(pending: seq<Order>, resting: seq<Order>, now: int, ready: Ready): Plan {
    var avail := Filter(pending, ReadySealed(ready));
    var blocked := Filter(pending, UnreadySealed(ready));
    var all := Liquidity(pending, resting, ready);
    var ms, mb := LowestSell(all), HighestBuy(all);
    Plan(Filter(avail, Crossing(ms, mb)), Filter(pending, IsPublic()), Filter(avail, Hidden(ms, mb, now)),
         Filter(avail, Late(ms, mb, now)) + Filter(blocked, Lapsed(now)), Filter(blocked, Waiting(now)), [])
  }

  lemma FilterSnoc(s: seq<Order>, i: nat, p: Order -> bool)
    requires i < |s|
    ensures Filter(s[..i+1], p) == Filter(s[..i], p) + (if p(s[i]) then [s[i]] else [])
  {
    assert s[..i+1] == s[..i] + [s[i]];
    FilterConcat(s[..i], [s[i]], p);
  }

  /** The planner as it runs: one pass over the ready sealed orders, one over the rest. */
  method PlanRoundLoop(pending: seq<Order>, resting: seq<Order>, now: int, ready: Ready) returns (plan: Plan)
    ensures plan == PlanRound(pending, resting, now, ready)
  {
    var public := Filter(pending, IsPublic());
    var avail := Filter(pending, ReadySealed(ready));
    var blocked := Filter(pending, UnreadySealed(ready));
    var all := resting + public + avail;
    var ms, mb := LowestSell(all), HighestBuy(all);
    var shown, carry, expired, deferred := [], [], [], [];
    for i := 0 to |avail|
      invariant shown == Filter(avail[..i], Crossing(ms, mb))
      invariant carry == Filter(avail[..i], Hidden(ms, mb, now))
      invariant expired == Filter(avail[..i], Late(ms, mb, now))
    {
      FilterSnoc(avail, i, Crossing(ms, mb));
      FilterSnoc(avail, i, Hidden(ms, mb, now));
      FilterSnoc(avail, i, Late(ms, mb, now));
      if Crosses(avail[i], ms, mb) {
        shown := shown + [avail[i]];
      } else if Elapsed(avail[i], now) {
        expired := expired + [avail[i]];
      } else {
        carry := carry + [avail[i]];
      }
    }
    assert avail[..|avail|] == avail;
    var late := expired;
    for i := 0 to |blocked|
      invariant expired == late + Filter(blocked[..i], Lapsed(now))
      invariant deferred == Filter(blocked[..i], Waiting(now))
    {
      FilterSnoc(blocked, i, Lapsed(now));
      FilterSnoc(blocked, i, Waiting(now));
      if Elapsed(blocked[i], now) {
        expired := expired + [blocked[i]];
      } else {
        deferred := deferred + [blocked[i]];
      }
    }
    assert blocked[..|blocked|] == blocked;
    plan := Plan(shown, public, carry, expired, deferred, []);
  }

  // ---- the capped batch ----

  const FIT_PASSES: nat := 4

  /** A capacity policy: the batch it takes from candidates in queue order. */
  type Policy = seq<Order> -> seq<Order>

  function Candidate(crossing: set<Order>): Order -> bool {
    (o: Order) => !o.sealed || o in crossing
  }

  function Members(s: seq<Order>): set<Order> { set o | o in s }

  /** One refill: cap the candidates, then plan the batch alone. */
  function Refill(pending: seq<Order>, resting: seq<Order>, fit: Policy, now: int, crossing: set<Order>): Plan {
    PlanRound(fit(Filter(pending, Candidate(crossing))), resting, now, AllReady())
  }

  function Stuck(plan: Plan): seq<Order> { plan.carry + plan.expired }

  datatype Passed = Passed(plan: Plan, carry: seq<Order>, expired: seq<Order>)

  function Passes(pending: seq<Order>, resting: seq<Order>, fit: Policy, now: int, n: nat, crossing: set<Order>,
                  carry: seq<Order>, expired: seq<Order>, proven: seq<Order>): Passed
    requires n <= FIT_PASSES
    decreases FIT_PASSES - n
  {
    var crossing' := if n == FIT_PASSES then Members(proven) else crossing;
    var plan := Refill(pending, resting, fit, now, crossing');
    if Stuck(plan) == [] then Passed(plan, carry, expired)
    else if n == FIT_PASSES then Passed(plan, carry + plan.carry, expired + plan.expired)
    else Passes(pending, resting, fit, now, n + 1, crossing' - Members(Stuck(plan)),
                carry + plan.carry, expired + plan.expired, plan.shown)
  }

  function PlanPasses(pending: seq<Order>, resting: seq<Order>, fit: Policy, now: int, ready: Ready): Passed {
    var full := PlanRound(pending, resting, now, ready);
    Passes(pending, resting, fit, now, 0, Members(full.shown), full.carry, full.expired, [])
  }

  function Placed(r: Passed, deferred: seq<Order>): set<Order> {
    Members(r.plan.shown + r.plan.public + r.carry + r.expired + deferred)
  }

  function PlanBatch(pending: seq<Order>, resting: seq<Order>, fit: Policy, now: int, ready: Ready): Plan {
    var full := PlanRound(pending, resting, now, ready);
    var r := PlanPasses(pending, resting, fit, now, ready);
    Plan(r.plan.shown, r.plan.public, r.carry, r.expired, full.deferred,
         Filter(pending, NotIn(Placed(r, full.deferred))))
  }

  /** The batch planner as it runs: at most FIT_PASSES + 1 refills, stopping when none is stuck. */
  method PlanBatchLoop(pending: seq<Order>, resting: seq<Order>, fit: Policy, now: int, ready: Ready)
    returns (batch: Plan)
    ensures batch == PlanBatch(pending, resting, fit, now, ready)
  {
    var full := PlanRoundLoop(pending, resting, now, ready);
    var crossing := Members(full.shown);
    var carry, expired := full.carry, full.expired;
    var plan := Plan([], [], [], [], [], []);
    ghost var goal := PlanPasses(pending, resting, fit, now, ready);
    var n := 0;
    while n <= FIT_PASSES
      invariant 0 <= n <= FIT_PASSES + 1
      invariant n <= FIT_PASSES ==>
                  Passes(pending, resting, fit, now, n, crossing, carry, expired, plan.shown) == goal
      invariant n > FIT_PASSES ==> Passed(plan, carry, expired) == goal
    {
      if n == FIT_PASSES {
        crossing := Members(plan.shown);
      }
      plan := PlanRoundLoop(fit(Filter(pending, Candidate(crossing))), resting, now, AllReady());
      var stuck := plan.carry + plan.expired;
      if stuck == [] {
        break;
      }
      carry, expired := carry + plan.carry, expired + plan.expired;
      crossing := crossing - Members(stuck);
      n := n + 1;
    }
    assert Passed(plan, carry, expired) == goal;
    var placed := Members(plan.shown + plan.public + carry + expired + full.deferred);
    batch := Plan(plan.shown, plan.public, carry, expired, full.deferred, Filter(pending, NotIn(placed)));
  }
}

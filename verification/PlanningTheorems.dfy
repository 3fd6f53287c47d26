/** What planning guarantees: hiding non-crossing orders does not change the clearing, every
    order it shows has a counterparty in the batch, refilling the capped batch reaches a
    fixed point, and the plan is a partition of the queue. */
module PlanningTheorems {
  import opened Sequences
  import opened Orders
  import opened Clearing
  import opened ClearingTheorems
  import opened Planning

  // ---- crossing means having a counterparty ----

  ghost predicate HasMatch(o: Order, os: seq<Order>) {
    exists x :: x in os && Matches(o, x)
  }

  lemma {:induction false} LowestSellBounds(os: seq<Order>, s: Order)
    requires s in os && s.side.Sell?
    ensures LowestSell(os).Some? && LowestSell(os).value <= s.price
  {
    if s != os[0] {
      LowestSellBounds(os[1..], s);
    }
  }

  lemma {:induction false} HighestBuyBounds(os: seq<Order>, b: Order)
    requires b in os && b.side.Buy?
    ensures HighestBuy(os).Some? && HighestBuy(os).value >= b.price
  {
    if b != os[0] {
      HighestBuyBounds(os[1..], b);
    }
  }

  lemma {:induction false} LowestSellFound(os: seq<Order>) returns (s: Order)
    requires LowestSell(os).Some?
    ensures s in os && s.side.Sell? && s.price == LowestSell(os).value
  {
    if os[0].side.Sell? && os[0].price == LowestSell(os).value {
      s := os[0];
    } else {
      s := LowestSellFound(os[1..]);
    }
  }

  lemma {:induction false} HighestBuyFound(os: seq<Order>) returns (b: Order)
    requires HighestBuy(os).Some?
    ensures b in os && b.side.Buy? && b.price == HighestBuy(os).value
  {
    if os[0].side.Buy? && os[0].price == HighestBuy(os).value {
      b := os[0];
    } else {
      b := HighestBuyFound(os[1..]);
    }
  }

  /** The best-price test decides exactly whether some order of the liquidity matches. */
  lemma CrossesIffMatch(os: seq<Order>, o: Order)
    ensures Crosses(o, LowestSell(os), HighestBuy(os)) <==> HasMatch(o, os)
  {
    if Crosses(o, LowestSell(os), HighestBuy(os)) {
      if o.side.Buy? {
        var s := LowestSellFound(os);
        assert Matches(o, s);
      } else {
        var b := HighestBuyFound(os);
        assert Matches(o, b);
      }
    }
    if HasMatch(o, os) {
      var x :| x in os && Matches(o, x);
      if o.side.Buy? {
        LowestSellBounds(os, x);
      } else {
        HighestBuyBounds(os, x);
      }
    }
  }

  // ---- where one round's planning puts an order ----

  lemma LiquidityMember(pending: seq<Order>, resting: seq<Order>, ready: Ready, x: Order)
    ensures x in Liquidity(pending, resting, ready) <==>
              x in resting || (x in pending && (x.sealed ==> ready(x)))
  {
    FilterMember(pending, IsPublic(), x);
    FilterMember(pending, ReadySealed(ready), x);
  }

  lemma PlanRoundMember(pending: seq<Order>, resting: seq<Order>, now: int, ready: Ready, o: Order)
    ensures var plan, all := PlanRound(pending, resting, now, ready), Liquidity(pending, resting, ready);
            var here := o in pending && o.sealed;
            && (o in plan.shown <==> here && ready(o) && HasMatch(o, all))
            && (o in plan.public <==> o in pending && !o.sealed)
            && (o in plan.carry <==> here && ready(o) && !HasMatch(o, all) && !Elapsed(o, now))
            && (o in plan.expired <==> here && !(ready(o) && HasMatch(o, all)) && Elapsed(o, now))
            && (o in plan.deferred <==> here && !ready(o) && !Elapsed(o, now))
  {
    var avail, blocked := Filter(pending, ReadySealed(ready)), Filter(pending, UnreadySealed(ready));
    var all := Liquidity(pending, resting, ready);
    var ms, mb := LowestSell(all), HighestBuy(all);
    CrossesIffMatch(all, o);
    FilterMember(pending, ReadySealed(ready), o);
    FilterMember(pending, UnreadySealed(ready), o);
    FilterMember(pending, IsPublic(), o);
    FilterMember(avail, Crossing(ms, mb), o);
    FilterMember(avail, Hidden(ms, mb, now), o);
    FilterMember(avail, Late(ms, mb, now), o);
    FilterMember(blocked, Lapsed(now), o);
    FilterMember(blocked, Waiting(now), o);
  }

  /** Every order a plan shows has a counterparty among the orders that will be submitted. */
  lemma ShownHasCounterparty(pending: seq<Order>, resting: seq<Order>, now: int, ready: Ready, o: Order)
    requires o in PlanRound(pending, resting, now, ready).shown
    ensures var plan := PlanRound(pending, resting, now, ready);
            HasMatch(o, resting + plan.public + plan.shown)
  {
    PlanRoundMember(pending, resting, now, ready, o);
    var all := Liquidity(pending, resting, ready);
    var x :| x in all && Matches(o, x);
    LiquidityMember(pending, resting, ready, x);
    LiquidityMember(pending, resting, ready, o);
    PlanRoundMember(pending, resting, now, ready, x);
    assert Matches(x, o);
  }

  /** A non-empty show set clears a positive volume. */
  lemma ShownTrades(os: seq<Order>, o: Order)
    requires o in os && HasMatch(o, os) && Positive(os)
    ensures Clear(os).volume > 0
  {
    var x :| x in os && Matches(o, x);
    if o.side.Buy? {
      CrossingPairTrades(os, o, x);
    } else {
      CrossingPairTrades(os, x, o);
    }
    ClearIsClearing(os);
    var b := if o.side.Buy? then o else x;
    assert Volume(os, b.price) > 0;
  }

  // ---- planning is clearing-neutral ----

  /** Every order of `avail` that `keep` leaves out matches nothing in base + avail. */
  ghost predicate HidesUnmatched(base: seq<Order>, avail: seq<Order>, keep: Order -> bool) {
    forall o :: o in avail && !keep(o) ==> !HasMatch(o, base + avail)
  }

  lemma HiddenDoNotCount(base: seq<Order>, avail: seq<Order>, keep: Order -> bool, q: int, o: Order)
    requires HidesUnmatched(base, avail, keep)
    requires Volume(base + avail, q) > 0
    requires o in avail && !keep(o)
    ensures o.price != q && (o.side.Buy? ==> o.price < q) && (o.side.Sell? ==> o.price > q)
  {
    var os := base + avail;
    TotalPositive(os, DemandAt(q));
    TotalPositive(os, SupplyAt(q));
    var b :| b in os && DemandAt(q)(b) > 0;
    var s :| s in os && SupplyAt(q)(s) > 0;
    assert !Matches(o, b) && !Matches(o, s);
  }

  lemma HidingTotals(base: seq<Order>, avail: seq<Order>, keep: Order -> bool, q: int)
    requires HidesUnmatched(base, avail, keep)
    ensures var a, b := base + avail, base + Filter(avail, keep);
            && Demand(b, q) <= Demand(a, q) && Supply(b, q) <= Supply(a, q)
            && (Volume(a, q) > 0 ==> Demand(b, q) == Demand(a, q) && Supply(b, q) == Supply(a, q))
  {
    TotalConcat(base, avail, DemandAt(q));
    TotalConcat(base, avail, SupplyAt(q));
    TotalConcat(base, Filter(avail, keep), DemandAt(q));
    TotalConcat(base, Filter(avail, keep), SupplyAt(q));
    TotalFilterLe(avail, keep, DemandAt(q));
    TotalFilterLe(avail, keep, SupplyAt(q));
    if Volume(base + avail, q) > 0 {
      forall o | o in avail && !keep(o) ensures DemandAt(q)(o) == 0 && SupplyAt(q)(o) == 0 {
        HiddenDoNotCount(base, avail, keep, q, o);
      }
      TotalFilter(avail, keep, DemandAt(q));
      TotalFilter(avail, keep, SupplyAt(q));
    }
  }

  lemma HidingKeepsQuotes(base: seq<Order>, avail: seq<Order>, keep: Order -> bool, q: int)
    requires HidesUnmatched(base, avail, keep)
    requires Volume(base + avail, q) > 0
    ensures Quoted(base + avail, q) <==> Quoted(base + Filter(avail, keep), q)
  {
    FilterMembers(avail, keep);
    forall o | o in avail && o.price == q ensures keep(o) {
      if !keep(o) {
        HiddenDoNotCount(base, avail, keep, q, o);
      }
    }
  }

  lemma HidingSameBook(base: seq<Order>, avail: seq<Order>, keep: Order -> bool)
    requires HidesUnmatched(base, avail, keep)
    ensures SameBook(base + avail, base + Filter(avail, keep))
  {
    var a, b := base + avail, base + Filter(avail, keep);
    forall q: int
      ensures Volume(a, q) == Volume(b, q)
      ensures Volume(a, q) > 0 ==> Imbalance(a, q) == Imbalance(b, q) && (Quoted(a, q) <==> Quoted(b, q))
    {
      HidingTotals(base, avail, keep, q);
      if Volume(a, q) > 0 {
        HidingKeepsQuotes(base, avail, keep, q);
      }
    }
  }

  lemma HidingSameQueue(base: seq<Order>, avail: seq<Order>, keep: Order -> bool, elig: Order -> bool)
    requires forall o :: o in avail && !keep(o) ==> !elig(o)
    ensures Filter(base + avail, elig) == Filter(base + Filter(avail, keep), elig)
  {
    FilterConcat(base, avail, elig);
    FilterConcat(base, Filter(avail, keep), elig);
    FilterTwice(avail, keep, elig, elig);
  }

  lemma HidingIsNeutral(base: seq<Order>, avail: seq<Order>, keep: Order -> bool)
    requires HidesUnmatched(base, avail, keep)
    ensures Clear(base + avail) == Clear(base + Filter(avail, keep))
  {
    var a, b := base + avail, base + Filter(avail, keep);
    HidingSameBook(base, avail, keep);
    var c := Clear(a);
    if c.volume > 0 {
      ClearIsClearing(a);
      assert Volume(a, c.price) > 0;
      forall o | o in avail && !keep(o) ensures !EligibleBuy(c.price)(o) && !EligibleSell(c.price)(o) {
        HiddenDoNotCount(base, avail, keep, c.price, o);
      }
      HidingSameQueue(base, avail, keep, EligibleBuy(c.price));
      HidingSameQueue(base, avail, keep, EligibleSell(c.price));
    }
    SameBookSameClear(a, b);
  }

  /** Clearing the book, the public orders and all ready sealed orders gives the same price,
      volume and fills as clearing only those the plan shows. */
  lemma PlanningIsNeutral(pending: seq<Order>, resting: seq<Order>, now: int, ready: Ready)
    ensures var plan := PlanRound(pending, resting, now, ready);
            Clear(Liquidity(pending, resting, ready)) == Clear(resting + plan.public + plan.shown)
  {
    var base, avail := resting + Filter(pending, IsPublic()), Filter(pending, ReadySealed(ready));
    var all := Liquidity(pending, resting, ready);
    var keep := Crossing(LowestSell(all), HighestBuy(all));
    forall o | o in avail && !keep(o) ensures !HasMatch(o, base + avail) {
      CrossesIffMatch(all, o);
    }
    HidingIsNeutral(base, avail, keep);
  }

  /** The submitted batch (book, shown, public) clears as the whole ready liquidity would. */
  lemma SubmittedClearsAlike(pending: seq<Order>, resting: seq<Order>, now: int, ready: Ready)
    requires UniqueOids(Liquidity(pending, resting, ready))
    ensures var plan := PlanRound(pending, resting, now, ready);
            Clear(resting + plan.shown + plan.public) == Clear(Liquidity(pending, resting, ready))
  {
    var plan := PlanRound(pending, resting, now, ready);
    PlanningIsNeutral(pending, resting, now, ready);
    var base, avail := resting + plan.public, Filter(pending, ReadySealed(ready));
    var all := Liquidity(pending, resting, ready);
    var keep := Crossing(LowestSell(all), HighestBuy(all));
    UniqueSub(base, avail, keep);
    ClearOrderIndependent(base + plan.shown, resting + plan.shown + plan.public);
  }

  lemma UniqueSub(base: seq<Order>, avail: seq<Order>, keep: Order -> bool)
    requires UniqueOids(base + avail)
    ensures UniqueOids(base + Filter(avail, keep))
  {
    var os, sub := base + avail, Filter(avail, keep);
    assert forall i | 0 <= i < |avail| :: avail[i] == os[|base| + i];
    UniqueFilter(avail, keep);
    FilterMembers(avail, keep);
    forall i, j | 0 <= i < j < |base + sub| ensures (base + sub)[i].oid != (base + sub)[j].oid {
      if i < |base| <= j {
        assert sub[j - |base|] in avail;
        assert base[i] == os[i];
      } else if j < |base| {
        assert os[i] == base[i] && os[j] == base[j];
      }
    }
  }

  // ---- the capped batch reaches a fixed point ----

  function Without(c: seq<Order>, gone: set<Order>): seq<Order> { Filter(c, NotIn(gone)) }

  predicate AllSealed(s: set<Order>) { forall o | o in s :: o.sealed }

  /** The policy batches each candidate at most once, and nothing else. */
  ghost predicate BatchesFrom(fit: Policy, c: seq<Order>) {
    Distinct(fit(c)) && forall o | o in fit(c) :: o in c
  }

  /** Taking sealed candidates out drops nothing the policy batched before. */
  ghost predicate KeepsBatched(fit: Policy, c: seq<Order>, gone: set<Order>) {
    forall o | o in fit(c) && o !in gone :: o in fit(Without(c, gone))
  }

  ghost predicate SafePolicy(fit: Policy) {
    && (forall c {:trigger BatchesFrom(fit, c)} :: Distinct(c) ==> BatchesFrom(fit, c))
    && (forall c, gone {:trigger KeepsBatched(fit, c, gone)} ::
          Distinct(c) && AllSealed(gone) ==> KeepsBatched(fit, c, gone))
  }

  function Batched(pending: seq<Order>, fit: Policy, crossing: set<Order>): seq<Order> {
    fit(Filter(pending, Candidate(crossing)))
  }

  lemma BatchedDistinct(pending: seq<Order>, fit: Policy, crossing: set<Order>)
    requires Distinct(pending) && SafePolicy(fit)
    ensures Distinct(Batched(pending, fit, crossing))
  {
    FilterDistinct(pending, Candidate(crossing));
    assert BatchesFrom(fit, Filter(pending, Candidate(crossing)));
  }

  lemma BatchedMember(pending: seq<Order>, fit: Policy, crossing: set<Order>, o: Order)
    requires Distinct(pending) && SafePolicy(fit)
    ensures o in Batched(pending, fit, crossing) ==> o in pending && (o.sealed ==> o in crossing)
  {
    FilterDistinct(pending, Candidate(crossing));
    assert BatchesFrom(fit, Filter(pending, Candidate(crossing)));
    FilterMember(pending, Candidate(crossing), o);
  }

  lemma RefillMember(pending: seq<Order>, resting: seq<Order>, fit: Policy, now: int, crossing: set<Order>, o: Order)
    ensures var plan, batch := Refill(pending, resting, fit, now, crossing), Batched(pending, fit, crossing);
            && (o in plan.shown <==> o in batch && o.sealed && HasMatch(o, Liquidity(batch, resting, AllReady())))
            && (o in plan.public <==> o in batch && !o.sealed)
            && (o in Stuck(plan) <==> o in batch && o.sealed && !HasMatch(o, Liquidity(batch, resting, AllReady())))
  {
    PlanRoundMember(Batched(pending, fit, crossing), resting, now, AllReady(), o);
  }

  /** The orders a pass may drop from the candidates: sealed ones it did not show. */
  ghost predicate Narrows(pending: seq<Order>, resting: seq<Order>, fit: Policy, now: int,
                          crossing: set<Order>, crossing': set<Order>) {
    && AllSealed(crossing)
    && crossing' <= crossing
    && Members(Refill(pending, resting, fit, now, crossing).shown) <= crossing'
  }

  /** A batched order that stays a candidate is batched again by the next pass. */
  lemma RebatchesKept(pending: seq<Order>, resting: seq<Order>, fit: Policy, now: int,
                      crossing: set<Order>, crossing': set<Order>, o: Order)
    requires Distinct(pending) && SafePolicy(fit) && Narrows(pending, resting, fit, now, crossing, crossing')
    requires o in Batched(pending, fit, crossing) && (o.sealed ==> o in crossing')
    ensures o in Batched(pending, fit, crossing')
  {
    var c, gone := Filter(pending, Candidate(crossing)), crossing - crossing';
    FilterDistinct(pending, Candidate(crossing));
    assert KeepsBatched(fit, c, gone);
    FilterTwice(pending, Candidate(crossing), NotIn(gone), Candidate(crossing'));
    assert Without(c, gone) == Filter(pending, Candidate(crossing'));
  }

  /** Each pass keeps all the orders the previous pass showed, and all its public orders. */
  lemma PassKeepsPrevious(pending: seq<Order>, resting: seq<Order>, fit: Policy, now: int,
                          crossing: set<Order>, crossing': set<Order>, o: Order)
    requires Distinct(pending) && SafePolicy(fit) && Narrows(pending, resting, fit, now, crossing, crossing')
    ensures var before := Refill(pending, resting, fit, now, crossing);
            var after := Refill(pending, resting, fit, now, crossing');
            && (o in before.shown ==> o in after.shown)
            && (o in before.public ==> o in after.public)
  {
    RefillMember(pending, resting, fit, now, crossing, o);
    RefillMember(pending, resting, fit, now, crossing', o);
    var before := Refill(pending, resting, fit, now, crossing);
    if o in before.public {
      RebatchesKept(pending, resting, fit, now, crossing, crossing', o);
    }
    if o in before.shown {
      RebatchesKept(pending, resting, fit, now, crossing, crossing', o);
      MatchSurvives(pending, resting, fit, now, crossing, crossing', o);
    }
  }

  /** Crossing is mutual, so a shown order's counterparty is never one that is taken out. */
  lemma MatchSurvives(pending: seq<Order>, resting: seq<Order>, fit: Policy, now: int,
                      crossing: set<Order>, crossing': set<Order>, o: Order)
    requires Distinct(pending) && SafePolicy(fit) && Narrows(pending, resting, fit, now, crossing, crossing')
    requires o in Refill(pending, resting, fit, now, crossing).shown
    ensures HasMatch(o, Liquidity(Batched(pending, fit, crossing'), resting, AllReady()))
  {
    var batch, batch' := Batched(pending, fit, crossing), Batched(pending, fit, crossing');
    ShownHasCounterparty(batch, resting, now, AllReady(), o);
    var plan := Refill(pending, resting, fit, now, crossing);
    var x :| x in resting + plan.public + plan.shown && Matches(o, x);
    if x !in resting {
      RefillMember(pending, resting, fit, now, crossing, x);
      RebatchesKept(pending, resting, fit, now, crossing, crossing', x);
    }
    LiquidityMember(batch', resting, AllReady(), x);
  }

  /** When only proven reveals compete, none of them is stuck. */
  lemma ProvenNotStuck(pending: seq<Order>, resting: seq<Order>, fit: Policy, now: int, crossing: set<Order>)
    requires Distinct(pending) && SafePolicy(fit) && AllSealed(crossing)
    requires Members(Refill(pending, resting, fit, now, crossing).shown) <= crossing
    ensures Stuck(Refill(pending, resting, fit, now, Members(Refill(pending, resting, fit, now, crossing).shown))) == []
  {
    var shown := Members(Refill(pending, resting, fit, now, crossing).shown);
    var last := Refill(pending, resting, fit, now, shown);
    if Stuck(last) != [] {
      var o := Stuck(last)[0];
      RefillMember(pending, resting, fit, now, shown, o);
      BatchedMember(pending, fit, shown, o);
      PassKeepsPrevious(pending, resting, fit, now, crossing, shown, o);
    }
  }

  lemma ShownAreCandidates(pending: seq<Order>, resting: seq<Order>, fit: Policy, now: int, crossing: set<Order>)
    requires Distinct(pending) && SafePolicy(fit)
    ensures var plan := Refill(pending, resting, fit, now, crossing);
            Members(plan.shown) <= crossing - Members(Stuck(plan))
  {
    forall o | o in Refill(pending, resting, fit, now, crossing).shown
      ensures o in crossing && o !in Stuck(Refill(pending, resting, fit, now, crossing))
    {
      RefillMember(pending, resting, fit, now, crossing, o);
      BatchedMember(pending, fit, crossing, o);
    }
  }

  /** The plan is a refill from sealed candidates all taken from `pool`. */
  ghost predicate RefilledFrom(plan: Plan, pending: seq<Order>, resting: seq<Order>, fit: Policy, now: int,
                               pool: set<Order>, last: set<Order>) {
    AllSealed(last) && last <= pool && plan == Refill(pending, resting, fit, now, last)
  }

  /** The last pass executed never has a stuck sealed order, and is a refill from some of the
      candidates the passes began with. */
  lemma {:induction false} PassesSettle(pending: seq<Order>, resting: seq<Order>, fit: Policy, now: int, n: nat,
                                        crossing: set<Order>, carry: seq<Order>, expired: seq<Order>,
                                        previous: set<Order>, proven: seq<Order>, pool: set<Order>)
    returns (last: set<Order>)
    requires n <= FIT_PASSES && Distinct(pending) && SafePolicy(fit)
    requires AllSealed(pool) && crossing <= pool && previous <= pool
    requires n > 0 ==> proven == Refill(pending, resting, fit, now, previous).shown
    ensures var r := Passes(pending, resting, fit, now, n, crossing, carry, expired, proven);
            Stuck(r.plan) == [] && RefilledFrom(r.plan, pending, resting, fit, now, pool, last)
    decreases FIT_PASSES - n
  {
    if n == FIT_PASSES {
      ShownAreCandidates(pending, resting, fit, now, previous);
      ProvenNotStuck(pending, resting, fit, now, previous);
      last := Members(proven);
    } else {
      var plan := Refill(pending, resting, fit, now, crossing);
      last := crossing;
      if Stuck(plan) != [] {
        last := PassesSettle(pending, resting, fit, now, n + 1, crossing - Members(Stuck(plan)),
                             carry + plan.carry, expired + plan.expired, crossing, plan.shown, pool);
      }
    }
  }

  /** The capped plan is a refill with nothing stuck, and only sealed orders that are ready and
      have a counterparty in the whole liquidity ever compete for its room. */
  lemma PlanBatchSettles(pending: seq<Order>, resting: seq<Order>, fit: Policy, now: int, ready: Ready)
    returns (last: set<Order>)
    requires Distinct(pending) && SafePolicy(fit)
    ensures AllSealed(last) && last <= Members(PlanRound(pending, resting, now, ready).shown)
    ensures PlanPasses(pending, resting, fit, now, ready).plan == Refill(pending, resting, fit, now, last)
    ensures Stuck(Refill(pending, resting, fit, now, last)) == []
  {
    var full := PlanRound(pending, resting, now, ready);
    var pool := Members(full.shown);
    forall o | o in full.shown ensures o.sealed {
      PlanRoundMember(pending, resting, now, ready, o);
    }
    assert AllSealed(pool);
    last := PassesSettle(pending, resting, fit, now, 0, pool, full.carry, full.expired, {}, [], pool);
  }

  /** Every order the capped plan shows has a counterparty in the book or the batch itself. */
  lemma BatchShownHasCounterparty(pending: seq<Order>, resting: seq<Order>, fit: Policy, now: int, ready: Ready,
                                  o: Order)
    requires Distinct(pending) && SafePolicy(fit)
    requires o in PlanBatch(pending, resting, fit, now, ready).shown
    ensures var b := PlanBatch(pending, resting, fit, now, ready); HasMatch(o, resting + b.public + b.shown)
  {
    var last := PlanBatchSettles(pending, resting, fit, now, ready);
    ShownHasCounterparty(Batched(pending, fit, last), resting, now, AllReady(), o);
  }

  /** A capped plan that shows anything clears a positive volume. */
  lemma BatchShownTrades(pending: seq<Order>, resting: seq<Order>, fit: Policy, now: int, ready: Ready)
    requires Distinct(pending) && SafePolicy(fit)
    requires Positive(resting + pending)
    requires PlanBatch(pending, resting, fit, now, ready).shown != []
    ensures var b := PlanBatch(pending, resting, fit, now, ready); Clear(resting + b.public + b.shown).volume > 0
  {
    var b := PlanBatch(pending, resting, fit, now, ready);
    var o := b.shown[0];
    BatchShownHasCounterparty(pending, resting, fit, now, ready, o);
    var last := PlanBatchSettles(pending, resting, fit, now, ready);
    var os := resting + b.public + b.shown;
    forall x | x in os ensures x.qty > 0 {
      RefillMember(pending, resting, fit, now, last, x);
      BatchedMember(pending, fit, last, x);
      assert x in resting + pending;
    }
    ShownTrades(os, o);
  }

  // ---- the plan partitions the queue ----

  /** The dropped lists so far: duplicate-free sealed orders of the queue, apart from each
      other, from the deferred ones and from the candidates still competing. */
  ghost predicate Apart(pending: seq<Order>, deferred: seq<Order>, crossing: set<Order>, carry: seq<Order>,
                        expired: seq<Order>) {
    && Distinct(carry) && Distinct(expired)
    && (forall o | o in carry :: o in pending && o.sealed && o !in expired && o !in deferred && o !in crossing)
    && (forall o | o in expired :: o in pending && o.sealed && o !in deferred && o !in crossing)
    && (forall o | o in crossing :: o in pending && o.sealed && o !in deferred)
  }

  ghost predicate Sorted(pending: seq<Order>, deferred: seq<Order>, r: Passed) {
    && Apart(pending, deferred, Members(r.plan.shown), r.carry, r.expired)
    && Distinct(r.plan.shown) && Distinct(r.plan.public)
    && (forall o | o in r.plan.public :: o in pending && !o.sealed)
  }

  lemma PlanRoundDistinct(pending: seq<Order>, resting: seq<Order>, now: int, ready: Ready)
    requires Distinct(pending)
    ensures var plan := PlanRound(pending, resting, now, ready);
            && Distinct(plan.shown) && Distinct(plan.public) && Distinct(plan.carry)
            && Distinct(plan.expired) && Distinct(plan.deferred)
  {
    var avail, blocked := Filter(pending, ReadySealed(ready)), Filter(pending, UnreadySealed(ready));
    var all := Liquidity(pending, resting, ready);
    var ms, mb := LowestSell(all), HighestBuy(all);
    FilterDistinct(pending, ReadySealed(ready));
    FilterDistinct(pending, UnreadySealed(ready));
    FilterDistinct(pending, IsPublic());
    FilterDistinct(avail, Crossing(ms, mb));
    FilterDistinct(avail, Hidden(ms, mb, now));
    FilterDistinct(avail, Late(ms, mb, now));
    FilterDistinct(blocked, Lapsed(now));
    FilterDistinct(blocked, Waiting(now));
    forall o | o in Filter(blocked, Lapsed(now)) ensures o !in Filter(avail, Late(ms, mb, now)) {
      FilterMember(blocked, Lapsed(now), o);
      FilterMember(pending, UnreadySealed(ready), o);
      FilterMember(avail, Late(ms, mb, now), o);
      FilterMember(pending, ReadySealed(ready), o);
    }
    DistinctConcat(Filter(avail, Late(ms, mb, now)), Filter(blocked, Lapsed(now)));
  }

  /** One refill's stuck orders join the dropped lists without overlap. */
  lemma RefillApart(pending: seq<Order>, resting: seq<Order>, fit: Policy, now: int, deferred: seq<Order>,
                    crossing: set<Order>, carry: seq<Order>, expired: seq<Order>)
    requires Distinct(pending) && SafePolicy(fit) && Apart(pending, deferred, crossing, carry, expired)
    ensures var plan := Refill(pending, resting, fit, now, crossing);
            && Apart(pending, deferred, crossing - Members(Stuck(plan)), carry + plan.carry, expired + plan.expired)
            && Sorted(pending, deferred, Passed(plan, carry, expired))
  {
    var plan, batch := Refill(pending, resting, fit, now, crossing), Batched(pending, fit, crossing);
    forall o
      ensures o in plan.shown || o in plan.carry || o in plan.expired ==> o in crossing
      ensures o in plan.public ==> o in pending && !o.sealed
      ensures !(o in plan.carry && o in plan.expired)
    {
      PlanRoundMember(batch, resting, now, AllReady(), o);
      BatchedMember(pending, fit, crossing, o);
    }
    BatchedDistinct(pending, fit, crossing);
    PlanRoundDistinct(batch, resting, now, AllReady());
    DistinctConcat(carry, plan.carry);
    DistinctConcat(expired, plan.expired);
  }

  lemma {:induction false} PassesApart(pending: seq<Order>, resting: seq<Order>, fit: Policy, now: int, n: nat,
                                       deferred: seq<Order>,
                                       crossing: set<Order>, carry: seq<Order>, expired: seq<Order>, proven: seq<Order>)
    requires n <= FIT_PASSES && Distinct(pending) && SafePolicy(fit)
    requires Apart(pending, deferred, crossing, carry, expired)
    requires Members(proven) <= crossing
    requires Stuck(Passes(pending, resting, fit, now, n, crossing, carry, expired, proven).plan) == []
    ensures Sorted(pending, deferred, Passes(pending, resting, fit, now, n, crossing, carry, expired, proven))
    decreases FIT_PASSES - n
  {
    var crossing' := if n == FIT_PASSES then Members(proven) else crossing;
    assert Apart(pending, deferred, crossing', carry, expired);
    RefillApart(pending, resting, fit, now, deferred, crossing', carry, expired);
    var plan := Refill(pending, resting, fit, now, crossing');
    if Stuck(plan) != [] && n < FIT_PASSES {
      ShownAreCandidates(pending, resting, fit, now, crossing');
      PassesApart(pending, resting, fit, now, n + 1, deferred, crossing' - Members(Stuck(plan)),
                  carry + plan.carry, expired + plan.expired, plan.shown);
    }
  }

  lemma PlanBatchSorted(pending: seq<Order>, resting: seq<Order>, fit: Policy, now: int, ready: Ready)
    requires Distinct(pending) && SafePolicy(fit)
    ensures var full := PlanRound(pending, resting, now, ready);
            Sorted(pending, full.deferred, PlanPasses(pending, resting, fit, now, ready)) && Distinct(full.deferred)
  {
    var full := PlanRound(pending, resting, now, ready);
    PlanRoundDistinct(pending, resting, now, ready);
    forall o
      ensures o in full.carry ==>
              o in pending && o.sealed && o !in full.expired && o !in full.deferred && o !in full.shown
      ensures o in full.expired ==> o in pending && o.sealed && o !in full.deferred && o !in full.shown
      ensures o in full.shown ==> o in pending && o.sealed && o !in full.deferred
    {
      PlanRoundMember(pending, resting, now, ready, o);
    }
    assert Apart(pending, full.deferred, Members(full.shown), full.carry, full.expired);
    var last := PlanBatchSettles(pending, resting, fit, now, ready);
    PassesApart(pending, resting, fit, now, 0, full.deferred, Members(full.shown), full.carry, full.expired, []);
  }

  function Lists(b: Plan): seq<Order> { b.shown + b.public + b.carry + b.expired + b.deferred + b.overflow }

  /** Each pending order lands in exactly one of the plan's six lists. */
  lemma PlanBatchPartitions(pending: seq<Order>, resting: seq<Order>, fit: Policy, now: int, ready: Ready)
    requires Distinct(pending) && SafePolicy(fit)
    ensures multiset(Lists(PlanBatch(pending, resting, fit, now, ready))) == multiset(pending)
  {
    var b := PlanBatch(pending, resting, fit, now, ready);
    var full := PlanRound(pending, resting, now, ready);
    var placed := b.shown + b.public + b.carry + b.expired + b.deferred;
    PlanBatchSorted(pending, resting, fit, now, ready);
    forall o ensures o in full.deferred ==> o in pending && o.sealed {
      PlanRoundMember(pending, resting, now, ready, o);
    }
    DistinctConcat(b.shown, b.public);
    DistinctConcat(b.shown + b.public, b.carry);
    DistinctConcat(b.shown + b.public + b.carry, b.expired);
    DistinctConcat(b.shown + b.public + b.carry + b.expired, b.deferred);
    OverflowCompletes(pending, placed);
  }

  lemma OverflowCompletes(pending: seq<Order>, placed: seq<Order>)
    requires Distinct(pending) && Distinct(placed)
    requires forall o | o in placed :: o in pending
    ensures multiset(placed + Filter(pending, NotIn(Members(placed)))) == multiset(pending)
  {
    var rest := Filter(pending, NotIn(Members(placed)));
    FilterDistinct(pending, NotIn(Members(placed)));
    FilterMembers(pending, NotIn(Members(placed)));
    DistinctConcat(placed, rest);
    DistinctPerm(placed + rest, pending);
  }
}

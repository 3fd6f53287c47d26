/** What a build leaves behind: the round it sends is one the service can settle, and a build
    that fails gives back the orders it took. */
module LifecycleSends {
  import opened Sequences
  import opened Orders
  import opened Clearing
  import opened Planning
  import PT = PlanningTheorems
  import opened BatchCap
  import BatchCapTheorems
  import SD = SeqDiscipline
  import opened Lifecycle
  import opened LifecycleInvariants
  import opened LifecycleReceipts
  import opened LifecycleQueues
  import opened LifecycleBuilds

  // ---- no step after planning makes the batch heavier ----

  /** `b` takes no more of any limit than `a`. */
  ghost predicate Lighter(a: seq<Order>, b: seq<Order>, gas: Gas) {
    |b| <= |a| && Total(b, gas) <= Total(a, gas) && |Filter(b, IsSealed())| <= |Filter(a, IsSealed())|
  }

  lemma {:induction false} LighterFilter(q: seq<Order>, p: Order -> bool, gas: Gas)
    ensures Lighter(q, Filter(q, p), gas)
  {
    if q == [] {
      assert Filter(q, p) == [];
    } else {
      LighterFilter(q[1..], p, gas);
    }
  }

  lemma LighterConcat(a: seq<Order>, b: seq<Order>, a': seq<Order>, b': seq<Order>, gas: Gas)
    requires Lighter(a, a', gas) && Lighter(b, b', gas)
    ensures Lighter(a + b, a' + b', gas)
  {
    TotalConcat(a, b, gas);
    TotalConcat(a', b', gas);
    FilterConcat(a, b, IsSealed());
    FilterConcat(a', b', IsSealed());
  }

  lemma LighterPerm(a: seq<Order>, b: seq<Order>, gas: Gas)
    requires multiset(a) == multiset(b)
    ensures Lighter(a, b, gas)
  {
    PermSize(a, b);
    TotalPerm(a, b, gas);
    FilterPerm(a, b, IsSealed());
    PermSize(Filter(a, IsSealed()), Filter(b, IsSealed()));
  }

  /** An order's gas does not depend on its price. */
  ghost predicate PriceBlind(gas: Gas) { forall o: Order, p: nat :: gas(o.(price := p)) == gas(o) }

  lemma {:induction false} LighterReprice(q: seq<Order>, lp: nat, gas: Gas)
    requires PriceBlind(gas)
    ensures Lighter(q, Reprice(q, lp), gas)
  {
    if q == [] {
      assert Reprice(q, lp) == [];
    } else {
      LighterReprice(q[1..], lp, gas);
      assert Reprice(q, lp)[1..] == Reprice(q[1..], lp);
    }
  }

  lemma LighterSanitized(q: seq<Order>, floor: SD.Floors, gas: Gas)
    ensures Lighter(q, SD.Sanitized(q, floor).kept, gas)
  {
    var kept, dead := SD.Sanitized(q, floor).kept, SD.Dropees(SD.Sanitized(q, floor).dead);
    SD.SanitizeIsExact(q, floor);
    assert multiset(kept + dead) == multiset(q);
    LighterPerm(q, kept + dead, gas);
    TotalConcat(kept, dead, gas);
    FilterConcat(kept, dead, IsSealed());
  }

  /** The public orders a round carries are no heavier than those planned. */
  lemma PublicLighter(q: seq<Order>, lp: nat, floor: SD.Floors, took: set<Key>, gas: Gas)
    requires PriceBlind(gas)
    ensures var r := Reprice(Filter(q, Priceable(lp)), lp);
            Lighter(q, Filter(SD.Sanitized(r, floor).kept, FreeOf(took)), gas)
  {
    var p := Filter(q, Priceable(lp));
    LighterFilter(q, Priceable(lp), gas);
    LighterReprice(p, lp, gas);
    LighterSanitized(Reprice(p, lp), floor, gas);
    LighterFilter(SD.Sanitized(Reprice(p, lp), floor).kept, FreeOf(took), gas);
  }

  /** Only sealed orders of the batch are shown, in batch order. */
  lemma ShownOf(b: Batch, a: BuildArgs)
    requires AllSealedIn(b.sealed) && AllPublicIn(b.public)
    ensures var all := Liquidity(b.sealed + b.public, a.resting, AllReady());
            StillShown(b, a) == Filter(b.sealed, Crossing(LowestSell(all), HighestBuy(all)))
  {
    FilterConcat(b.sealed, b.public, ReadySealed(AllReady()));
    FilterAll(b.sealed, ReadySealed(AllReady()));
    FilterNone(b.public, ReadySealed(AllReady()));
    assert b.sealed + [] == b.sealed;
  }

  lemma BatchLighter(plan: Plan, a: BuildArgs, took: set<Key>)
    requires PriceBlind(a.gas) && AllSealedIn(plan.shown) && AllPublicIn(plan.public)
    requires AllPublicIn(Unclaimed(Disciplined(plan, a), took).public)
    ensures var b := Unclaimed(Disciplined(plan, a), took);
            Lighter(plan.shown + plan.public, StillShown(b, a) + b.public, a.gas)
  {
    var b := Unclaimed(Disciplined(plan, a), took);
    var all := Liquidity(b.sealed + b.public, a.resting, AllReady());
    FilterMembers(plan.shown, FreeOf(took));
    ShownOf(b, a);
    LighterFilter(plan.shown, FreeOf(took), a.gas);
    LighterFilter(b.sealed, Crossing(LowestSell(all), HighestBuy(all)), a.gas);
    PublicLighter(plan.public, a.lastPrice, a.floor, took, a.gas);
    LighterConcat(plan.shown, plan.public, StillShown(b, a), b.public, a.gas);
  }

  ghost predicate Within(os: seq<Order>, gas: Gas, lim: Limits) {
    && |os| <= lim.cap && Total(os, gas) <= lim.budget
    && (lim.sealedCap.Some? ==> |Filter(os, IsSealed())| <= lim.sealedCap.value)
  }

  lemma PlanWithin(all: seq<Order>, a: BuildArgs)
    requires Distinct(all)
    ensures var plan := PlanBatch(all, a.resting, CapPolicy(a.gas, a.lim), a.now, a.ready);
            && Within(plan.shown + plan.public, a.gas, a.lim)
            && (forall o | o in plan.shown :: a.ready(o))
  {
    var fit := CapPolicy(a.gas, a.lim);
    var plan := PlanBatch(all, a.resting, fit, a.now, a.ready);
    BatchCapTheorems.CapPolicyIsSafe(a.gas, a.lim);
    var last := PT.PlanBatchSettles(all, a.resting, fit, a.now, a.ready);
    BatchCapTheorems.UnstuckIsWholeBatch(all, a.resting, fit, a.now, last);
    LighterPerm(PT.Batched(all, fit, last), plan.shown + plan.public, a.gas);
    BatchCapTheorems.BatchWithinLimits(Filter(all, Candidate(last)), a.gas, a.lim);
    forall o | o in plan.shown ensures a.ready(o) {
      PT.RefillMember(all, a.resting, fit, a.now, last, o);
      PT.BatchedMember(all, fit, last, o);
      PT.PlanRoundMember(all, a.resting, a.now, a.ready, o);
    }
  }

  // ---- the public orders still pass the service's checks ----

  ghost predicate Below(low: SD.Floors, run: SD.Floors) { forall a: nat :: SD.At(low, a) <= SD.At(run, a) }

  lemma BelowRaised(low: SD.Floors, run: SD.Floors, x: nat, n: nat)
    requires Below(low, run) && n > SD.At(run, x)
    ensures Below(low[x := n], run[x := n]) && Below(low, run[x := n])
  {
    var low', run' := low[x := n], run[x := n];
    forall a: nat ensures SD.At(low', a) <= SD.At(run', a) {
      assert SD.At(low, a) <= SD.At(run, a);
    }
    forall a: nat ensures SD.At(low, a) <= SD.At(run', a) {
      assert SD.At(low, a) <= SD.At(run, a);
    }
  }

  /** A walk that passes goes on passing when orders leave the round or floors are lower. */
  lemma {:induction false} AcceptsFewer(q: seq<Order>, p: Order -> bool, run: SD.Floors, low: SD.Floors)
    requires SD.Accepts(q, run) && Below(low, run)
    ensures SD.Accepts(Filter(q, p), low)
  {
    if q == [] {
      assert Filter(q, p) == [];
    } else {
      var x, n := q[0].account, q[0].seqno;
      BelowRaised(low, run, x, n);
      assert SD.At(low, x) <= SD.At(run, x);
      AcceptsFewer(q[1..], p, run[x := n], if p(q[0]) then low[x := n] else low);
      if p(q[0]) {
        assert Filter(q, p) == [q[0]] + Filter(q[1..], p);
      }
    }
  }

  ghost predicate Priced(o: Order, lp: nat) { o.market ==> lp > 0 && InBand(o.price, lp) }

  /** Every market order that is kept is priced inside the band. */
  lemma KeptPriced(q: seq<Order>, lp: nat, floor: SD.Floors, o: Order)
    requires AllPublicIn(q) && o in SD.Sanitized(Reprice(Filter(q, Priceable(lp)), lp), floor).kept
    ensures Priced(o, lp)
  {
    var p := Filter(q, Priceable(lp));
    var r := Reprice(p, lp);
    var sane := SD.Sanitized(r, floor);
    SD.SanitizeIsExact(r, floor);
    PermMember(sane.kept + SD.Dropees(sane.dead), r, o);
    FilterMembers(q, Priceable(lp));
    var i :| 0 <= i < |r| && r[i] == o;
    assert p[i] in p;
    if o.market {
      MarketPriceAtEdge(o.side, lp, 0);
    }
  }

  // ---- the round a build sends ----

  lemma ShownMatched(b: Batch, a: BuildArgs, o: Order)
    requires AllSealedIn(b.sealed) && AllPublicIn(b.public) && o in StillShown(b, a)
    ensures PT.HasMatch(o, a.resting + StillShown(b, a) + b.public)
  {
    var q := b.sealed + b.public;
    var plan := PlanRound(q, a.resting, a.now, AllReady());
    PT.ShownHasCounterparty(q, a.resting, a.now, AllReady(), o);
    var x :| x in a.resting + plan.public + plan.shown && Matches(o, x);
    PT.PlanRoundMember(q, a.resting, a.now, AllReady(), x);
  }

  /** A round the service can settle: every revealed order is ready and has a counterparty in the
      round, the public orders beat their floors, market orders are in the band, and the round
      keeps within its limits. */
  ghost predicate Settleable(r: Record, a: BuildArgs) {
    && (forall o | o in r.sealed :: a.ready(o) && PT.HasMatch(o, a.resting + r.sealed + r.public))
    && SD.Accepts(r.public, a.floor)
    && (forall o | o in r.public :: Priced(o, a.lastPrice))
    && Within(r.Orders(), a.gas, a.lim)
  }

  lemma SettleableTrades(r: Record, a: BuildArgs)
    requires Settleable(r, a)
    ensures r.sealed != [] && Positive(a.resting + r.sealed + r.public) ==>
            Clear(a.resting + r.sealed + r.public).volume > 0
  {
    if r.sealed != [] && Positive(a.resting + r.sealed + r.public) {
      PT.ShownTrades(a.resting + r.sealed + r.public, r.sealed[0]);
    }
  }

  lemma SentPublic(plan: Plan, a: BuildArgs, took: set<Key>)
    requires AllPublicIn(plan.public)
    ensures var b := Unclaimed(Disciplined(plan, a), took);
            SD.Accepts(b.public, a.floor) && forall o | o in b.public :: Priced(o, a.lastPrice)
  {
    var r := Reprice(Filter(plan.public, Priceable(a.lastPrice)), a.lastPrice);
    var kept := SD.Sanitized(r, a.floor).kept;
    SD.SanitizeIsExact(r, a.floor);
    AcceptsFewer(kept, FreeOf(took), a.floor, a.floor);
    FilterMembers(kept, FreeOf(took));
    forall o | o in kept ensures Priced(o, a.lastPrice) {
      KeptPriced(plan.public, a.lastPrice, a.floor, o);
    }
  }

  lemma SentSealed(plan: Plan, b: Batch, a: BuildArgs, o: Order)
    requires AllSealedIn(b.sealed) && AllPublicIn(b.public) && (forall x | x in b.sealed :: x in plan.shown)
    requires (forall x | x in plan.shown :: a.ready(x)) && o in StillShown(b, a)
    ensures a.ready(o) && PT.HasMatch(o, a.resting + StillShown(b, a) + b.public)
  {
    ShownMatched(b, a, o);
    PT.PlanRoundMember(b.sealed + b.public, a.resting, a.now, AllReady(), o);
  }

  lemma AllMatched(plan: Plan, b: Batch, a: BuildArgs)
    requires AllSealedIn(b.sealed) && AllPublicIn(b.public) && (forall x | x in b.sealed :: x in plan.shown)
    requires forall x | x in plan.shown :: a.ready(x)
    ensures forall o | o in StillShown(b, a) :: a.ready(o) && PT.HasMatch(o, a.resting + StillShown(b, a) + b.public)
  {
    forall o | o in StillShown(b, a) ensures a.ready(o) && PT.HasMatch(o, a.resting + StillShown(b, a) + b.public) {
      SentSealed(plan, b, a, o);
    }
  }

  lemma PlannedIsSettleable(plan: Plan, a: BuildArgs, took: set<Key>)
    requires PriceBlind(a.gas) && AllSealedIn(plan.shown) && AllPublicIn(plan.public)
    requires Within(plan.shown + plan.public, a.gas, a.lim) && forall x | x in plan.shown :: a.ready(x)
    requires AllPublicIn(Unclaimed(Disciplined(plan, a), took).public)
    ensures Settleable(NewRecord(Shown(Unclaimed(Disciplined(plan, a), took), a), a), a)
  {
    var b := Unclaimed(Disciplined(plan, a), took);
    BatchLighter(plan, a, took);
    SentPublic(plan, a, took);
    FilterMembers(plan.shown, FreeOf(took));
    AllMatched(plan, b, a);
  }

  lemma SentIsSettleable(s: State, a: BuildArgs, took: set<Key>)
    requires Inv(s, {}) && PriceBlind(a.gas)
    requires AllPublicIn(Unclaimed(Disciplined(PlanOf(s, a), a), took).public)
    ensures Settleable(NewRecord(Shown(Unclaimed(Disciplined(PlanOf(s, a), a), took), a), a), a)
  {
    AllOf(s, a);
    DistinctKeysIff(Attach(s.pending, s.expiry));
    PlanWithin(Attach(s.pending, s.expiry), a);
    PlannedIsSettleable(PlanOf(s, a), a, took);
  }

  /** In flight, nothing or the round just made. */
  ghost predicate NothingBut(x: State, r: Record) { x.inflight.None? || x.inflight == Some(r) }

  lemma SubmitOnly(s: State, b: Batch, taken: seq<Order>, expired: seq<Order>, a: BuildArgs)
    requires s.inflight.None?
    ensures NothingBut(Assemble(s, b, taken, expired, a), NewRecord(Shown(b, a), a))
  {
    var s1, rec := Rehide(End(s, b.dead), b, a), NewRecord(Shown(b, a), a);
    RehideMoves(s, b, a);
    RequeueMoves(s1, Reprice(taken, a.lastPrice), KeySet(expired) + KeySet(b.dead), Some(a.now));
    SubmitOne(s1, Shown(b, a), a);
    AssembleForms(s, b, taken, expired, a, (x: State) => NothingBut(x, rec));
  }

  lemma SubmitOne(s: State, b: Batch, a: BuildArgs)
    requires s.inflight.None?
    ensures NothingBut(Submit(s, b, a), NewRecord(b, a))
  {
  }

  /** The round that leaves the hands of a build which planned in state `s`. */
  lemma SentBatch(s: State, a: BuildArgs, cfg: Config, refused: set<nat>)
    requires Inv(s, {}) && s.inflight.None? && Credible(a.second, s) && BookApart(a.resting, PlanOf(s, a).shown)
    requires PriceBlind(a.gas)
    ensures var b, s3 := InBatch(s, a, cfg, refused), Seconded(s, a, cfg, refused);
            var f := Assemble(s3, b, Took(s, a), PlanOf(s, a).expired, a).inflight;
            f.Some? ==> Settleable(f.value, a)
  {
    var b, s3 := InBatch(s, a, cfg, refused), Seconded(s, a, cfg, refused);
    ReadyToAssemble(s, a, cfg, refused);
    SentIsSettleable(s, a, Looked(Underway(s, a), a.second, cfg, refused).took);
    if Assemble(s3, b, Took(s, a), PlanOf(s, a).expired, a).inflight.Some? {
      SubmitOnly(s3, b, Took(s, a), PlanOf(s, a).expired, a);
    }
  }

  /** How a build goes on from the state it planned in. */
  lemma BuildForms(s: State, a: BuildArgs, cfg: Config, refused: set<nat>)
    requires !Gated(s, a.now)
    ensures var s1, s' := Opening(s, a, cfg, refused), Build(s, a, cfg, refused);
            var ended := KeySet(PlanOf(s1, a).expired);
            && (a.fate.FailsPricing? ==> s' == RequeueUnsent(Underway(s1, a), Took(s1, a), ended))
            && (a.fate.FailsFloors? ==> s' == RequeueUnsent(Underway(s1, a), Reprice(Took(s1, a), a.lastPrice), ended))
            && (a.fate.FailsPricing? || a.fate.FailsFloors? ==> s'.inflight == s1.inflight)
            && (!a.fate.FailsPricing? && !a.fate.FailsFloors? ==>
                  s' == Assemble(Seconded(s1, a, cfg, refused), InBatch(s1, a, cfg, refused), Took(s1, a),
                                 PlanOf(s1, a).expired, a))
  {
    ArriveAllRounds(TakeBatch(Opening(s, a, cfg, refused), a), a.middle);
  }

  /** Whatever the pricing, the floors, a late landing and the arrivals meanwhile do to the batch
      that was planned, the round a build sends is one the service can settle; and a round that
      reveals anything clears a positive volume. */
  lemma SentRoundSettles(s: State, a: BuildArgs, cfg: Config, refused: set<nat>)
    requires Inv(s, {}) && !Gated(s, a.now) && HonestBuild(s, a, cfg, refused) && PriceBlind(a.gas)
    requires Build(s, a, cfg, refused).inflight.Some?
    ensures var r := Build(s, a, cfg, refused).inflight.value;
            && Settleable(r, a)
            && (r.sealed != [] && Positive(a.resting + r.sealed + r.public) ==>
                  Clear(a.resting + r.sealed + r.public).volume > 0)
  {
    OpeningKeeps(s, a, cfg, refused);
    BuildForms(s, a, cfg, refused);
    SentBatch(Opening(s, a, cfg, refused), a, cfg, refused);
    SettleableTrades(Build(s, a, cfg, refused).inflight.value, a);
  }

  // ---- what a failed build gives back ----

  lemma {:induction false} RepriceFilter(q: seq<Order>, lp: nat, ks: set<Key>)
    ensures Filter(Reprice(q, lp), FreeOf(ks)) == Reprice(Filter(q, FreeOf(ks)), lp)
  {
    if q == [] {
      assert Reprice(q, lp) == [];
    } else {
      RepriceFilter(q[1..], lp, ks);
      assert Reprice(q, lp)[1..] == Reprice(q[1..], lp);
    }
  }

  /** What is put back is the part of the queue still owned, in queue order. */
  lemma BackInOrder(all: seq<Order>, ks: set<Key>, skip: set<Key>, held: set<Key>)
    requires held <= ks && ks - skip == held
    ensures Filter(Filter(all, HeldIn(ks)), FreeOf(skip)) == Filter(all, HeldIn(held))
  {
    var both := (o: Order) => KeyOf(o) in ks && KeyOf(o) !in skip;
    FilterTwice(all, HeldIn(ks), FreeOf(skip), both);
    FilterAgree(all, both, HeldIn(held));
  }

  /** The orders of the queue with these keys, in queue order, with their market orders priced. */
  function Returned(s: State, held: set<Key>, lp: nat): seq<Order> {
    Reprice(Filter(Attach(s.pending, s.expiry), HeldIn(held)), lp)
  }

  /** Orders in hand are neither queued nor held by a sighted round. */
  lemma HandApart(s: State, held: set<Key>)
    requires Inv(s, held)
    ensures held !! SightedKeys(s.zombies, -1) + KeySet(s.pending)
  {
    HeldUnsighted(s, held);
  }

  lemma HandKept(s: State, a: BuildArgs)
    requires Inv(s, {}) && s.inflight.None?
    ensures KeySet(Hand(PlanOf(s, a))) !! SightedKeys(Underway(s, a).zombies, -1) + KeySet(Underway(s, a).pending)
  {
    UnderwayKeeps(s, a);
    HandApart(Underway(s, a), KeySet(Hand(PlanOf(s, a))));
  }

  lemma HandUnexpired(s: State, a: BuildArgs)
    requires Inv(s, {})
    ensures KeySet(Hand(PlanOf(s, a))) !! KeySet(PlanOf(s, a).expired)
  {
    AllOf(s, a);
  }

  lemma EarlySkip(s: State, a: BuildArgs, skip: set<Key>)
    requires Inv(s, {}) && s.inflight.None?
    requires skip ==
             KeySet(PlanOf(s, a).expired) + SightedKeys(Underway(s, a).zombies, -1) + KeySet(Underway(s, a).pending)
    ensures var plan := PlanOf(s, a);
            KeySet(Hand(plan)) <= KeySet(Hand(plan) + plan.expired)
              && KeySet(Hand(plan) + plan.expired) - skip == KeySet(Hand(plan))
  {
    var plan, s2 := PlanOf(s, a), Underway(s, a);
    HandKept(s, a);
    HandUnexpired(s, a);
    KeySetConcat(Hand(plan), plan.expired);
    SkipSets(KeySet(Hand(plan)), KeySet(plan.expired), SightedKeys(s2.zombies, -1), KeySet(s2.pending));
  }

  lemma SkipSets(hand: set<Key>, gone: set<Key>, sighted: set<Key>, queued: set<Key>)
    requires hand !! gone && hand !! sighted + queued
    ensures hand <= hand + gone && (hand + gone) - (gone + sighted + queued) == hand
  {
  }

  lemma EarlyBack(s: State, a: BuildArgs)
    requires Inv(s, {}) && s.inflight.None?
    ensures var s2, plan := Underway(s, a), PlanOf(s, a);
            var skip := KeySet(plan.expired) + SightedKeys(s2.zombies, -1) + KeySet(s2.pending);
            Filter(Took(s, a), FreeOf(skip)) == Filter(Attach(s.pending, s.expiry), HeldIn(KeySet(Hand(plan))))
  {
    var s2, plan, all := Underway(s, a), PlanOf(s, a), Attach(s.pending, s.expiry);
    var skip := KeySet(plan.expired) + SightedKeys(s2.zombies, -1) + KeySet(s2.pending);
    EarlySkip(s, a, skip);
    BackInOrder(all, KeySet(Hand(plan) + plan.expired), skip, KeySet(Hand(plan)));
  }

  /** A build that fails reading a price or a floor gives the queue back: nothing is lost but what
      had expired. The batch it took stands first, in queue order; then what was left waiting, in
      queue order; then what arrived meanwhile. */
  lemma FailedBuildRestores(s: State, a: BuildArgs, cfg: Config, refused: set<nat>)
    requires Inv(s, {}) && !Gated(s, a.now) && Credible(a.first, s)
    requires a.fate.FailsPricing? || a.fate.FailsFloors?
    ensures var s1, lp := Opening(s, a, cfg, refused), if a.fate.FailsPricing? then 0 else a.lastPrice;
            var all, plan := Attach(s1.pending, s1.expiry), PlanOf(s1, a);
            && Build(s, a, cfg, refused).pending == Returned(s1, KeySet(Hand(plan)), lp) + Underway(s1, a).pending
            && Filter(all, InSet(Members(Wait(plan)))) <= Underway(s1, a).pending
            && KeySet(all) == KeySet(Hand(plan)) + KeySet(Wait(plan)) + KeySet(plan.expired)
  {
    var s1 := Opening(s, a, cfg, refused);
    var s2, plan := Underway(s1, a), PlanOf(s1, a);
    var skip := KeySet(plan.expired) + SightedKeys(s2.zombies, -1) + KeySet(s2.pending);
    OpeningKeeps(s, a, cfg, refused);
    BuildForms(s, a, cfg, refused);
    AllOf(s1, a);
    UnderwayKeeps(s1, a);
    EarlyBack(s1, a);
    RepriceFilter(Took(s1, a), a.lastPrice, skip);
    Unpriced(Filter(Attach(s1.pending, s1.expiry), HeldIn(KeySet(Hand(plan)))));
  }

  lemma Unpriced(q: seq<Order>)
    ensures Reprice(q, 0) == q
  {
  }

  lemma TakenKeySet(all: seq<Order>, plan: Plan)
    requires Parts(all, Hand(plan), Wait(plan), plan.expired)
    ensures KeySet(TakenOf(all, plan)) == KeySet(Hand(plan) + plan.expired)
  {
    FilterMembers(all, HeldIn(KeySet(Hand(plan) + plan.expired)));
  }

  /** The hidden again: sealed orders of the batch that have lost their counterparty. */
  function HiddenAgain(b: Batch, a: BuildArgs): seq<Order> { Filter(b.sealed, NotIn(Members(StillShown(b, a)))) }

  lemma LateBack(s: State, b: Batch, all: seq<Order>, plan: Plan, a: BuildArgs, held: set<Key>)
    requires Assembling(s, b, TakenOf(all, plan), plan.expired, a, held)
    requires Parts(all, Hand(plan), Wait(plan), plan.expired)
    ensures var skip := LateSkip(Rehide(End(s, b.dead), b, a), b, plan.expired);
            Filter(TakenOf(all, plan), FreeOf(skip)) == Filter(all, HeldIn(ShownKeys(b, a)))
  {
    var s1 := Rehide(End(s, b.dead), b, a);
    var ks, skip, shown := KeySet(Hand(plan) + plan.expired), LateSkip(s1, b, plan.expired), ShownKeys(b, a);
    TakenKeySet(all, plan);
    assert shown <= ks && ks - skip <= shown && shown !! skip by {
      LateHand(s, b, TakenOf(all, plan), plan.expired, a, held);
      HandApart(s1, shown);
    }
    BackInOrder(all, ks, skip, shown);
  }

  lemma LateQueue(s: State, b: Batch, taken: seq<Order>, expired: seq<Order>, a: BuildArgs)
    requires a.fate.FailsLate? && (StillShown(b, a) != [] || b.public != [] || a.pruned != {})
    ensures var skip := LateSkip(Rehide(End(s, b.dead), b, a), b, expired);
            Assemble(s, b, taken, expired, a).pending ==
              Filter(Reprice(taken, a.lastPrice), FreeOf(skip)) + (HiddenAgain(b, a) + s.pending)
  {
  }

  lemma HandSplits(b: Batch, a: BuildArgs, held: set<Key>, accepted: map<Key, Order>)
    requires BatchOf(b, held, accepted)
    ensures held == ShownKeys(b, a) + KeySet(HiddenAgain(b, a)) + KeySet(b.dead)
  {
    ShownBatch(b, a, held, accepted);
    RehideSplits(b.sealed, StillShown(b, a));
  }

  /** A build whose payload cannot be made puts back, in front and in queue order, every order it
      would have sent; behind them stand the sealed orders that had lost their counterparty, and
      then the queue as the second look and the arrivals left it. Of the batch it took, what is
      not put back was ended or is held by a late landing. */
  lemma LateFailureRestores(s: State, a: BuildArgs, cfg: Config, refused: set<nat>)
    requires Inv(s, {}) && !Gated(s, a.now) && HonestBuild(s, a, cfg, refused) && a.fate.FailsLate?
    requires var b := InBatch(Opening(s, a, cfg, refused), a, cfg, refused);
             StillShown(b, a) != [] || b.public != [] || a.pruned != {}
    ensures var s1 := Opening(s, a, cfg, refused);
            var b, plan := InBatch(s1, a, cfg, refused), PlanOf(s1, a);
            && Build(s, a, cfg, refused).pending ==
                 Returned(s1, ShownKeys(b, a), a.lastPrice) +
                   (HiddenAgain(b, a) + Seconded(s1, a, cfg, refused).pending)
            && KeySet(Hand(plan)) - Looked(Underway(s1, a), a.second, cfg, refused).took ==
                 ShownKeys(b, a) + KeySet(HiddenAgain(b, a)) + KeySet(b.dead)
  {
    var s1 := Opening(s, a, cfg, refused);
    OpeningKeeps(s, a, cfg, refused);
    BuildForms(s, a, cfg, refused);
    LateReturns(s1, a, cfg, refused);
  }

  lemma LateReturns(s: State, a: BuildArgs, cfg: Config, refused: set<nat>)
    requires Inv(s, {}) && s.inflight.None? && Credible(a.second, s) && BookApart(a.resting, PlanOf(s, a).shown)
    requires var b := InBatch(s, a, cfg, refused); StillShown(b, a) != [] || b.public != [] || a.pruned != {}
    requires a.fate.FailsLate?
    ensures var s3, b, plan := Seconded(s, a, cfg, refused), InBatch(s, a, cfg, refused), PlanOf(s, a);
            && Assemble(s3, b, Took(s, a), plan.expired, a).pending ==
                 Returned(s, ShownKeys(b, a), a.lastPrice) + (HiddenAgain(b, a) + s3.pending)
            && KeySet(Hand(plan)) - Looked(Underway(s, a), a.second, cfg, refused).took ==
                 ShownKeys(b, a) + KeySet(HiddenAgain(b, a)) + KeySet(b.dead)
  {
    var s3, b, plan := Seconded(s, a, cfg, refused), InBatch(s, a, cfg, refused), PlanOf(s, a);
    var held := KeySet(Hand(plan)) - Looked(Underway(s, a), a.second, cfg, refused).took;
    AllOf(s, a);
    ReadyToAssemble(s, a, cfg, refused);
    HandSplits(b, a, held, s3.accepted);
    LateBack(s3, b, Attach(s.pending, s.expiry), plan, a, held);
    RepriceFilter(Took(s, a), a.lastPrice, LateSkip(Rehide(End(s3, b.dead), b, a), b, plan.expired));
    LateQueue(s3, b, Took(s, a), plan.expired, a);
  }
}

/** Building a round: the orders a build takes out of the mempool end, go back, or fly. */
module LifecycleBuilds {
  import opened Sequences
  import opened Orders
  import opened Clearing
  import CT = ClearingTheorems
  import opened Planning
  import PT = PlanningTheorems
  import opened BatchCap
  import BatchCapTheorems
  import SD = SeqDiscipline
  import opened Lifecycle
  import opened LifecycleInvariants
  import opened LifecycleReceipts
  import opened LifecycleClaims
  import opened LifecycleSweeps
  import opened LifecycleReleases
  import opened LifecycleQueues

  // ---- the plan, by keys ----

  function Hand(plan: Plan): seq<Order> { plan.shown + plan.public }
  function Wait(plan: Plan): seq<Order> { plan.carry + plan.deferred + plan.overflow }

  /** `all` falls into three parts with no key in common. */
  ghost predicate Parts(all: seq<Order>, hand: seq<Order>, wait: seq<Order>, gone: seq<Order>) {
    && DistinctKeys(hand) && DistinctKeys(wait)
    && KeySet(hand) !! KeySet(wait) && KeySet(hand) !! KeySet(gone) && KeySet(wait) !! KeySet(gone)
    && KeySet(all) == KeySet(hand) + KeySet(wait) + KeySet(gone)
    && (forall o | o in hand || o in wait || o in gone :: o in all)
  }

  lemma PartsOf(all: seq<Order>, hand: seq<Order>, wait: seq<Order>, gone: seq<Order>)
    requires DistinctKeys(all) && multiset(all) == multiset(hand + wait + gone)
    ensures Parts(all, hand, wait, gone)
  {
    PermKeys(all, hand + wait + gone);
    DistinctKeysSplit(hand + wait, gone);
    DistinctKeysSplit(hand, wait);
    KeySetConcat(hand + wait, gone);
    KeySetConcat(hand, wait);
    forall o | o in hand || o in wait || o in gone ensures o in all {
      assert o in hand + wait + gone;
    }
  }

  lemma PlanParts(all: seq<Order>, a: BuildArgs)
    requires DistinctKeys(all)
    ensures var plan := PlanBatch(all, a.resting, CapPolicy(a.gas, a.lim), a.now, a.ready);
            Parts(all, Hand(plan), Wait(plan), plan.expired)
  {
    var plan := PlanBatch(all, a.resting, CapPolicy(a.gas, a.lim), a.now, a.ready);
    DistinctKeysIff(all);
    BatchCapTheorems.CapPolicyIsSafe(a.gas, a.lim);
    PT.PlanBatchPartitions(all, a.resting, CapPolicy(a.gas, a.lim), a.now, a.ready);
    ListsRegroup(plan);
    PartsOf(all, Hand(plan), Wait(plan), plan.expired);
  }

  lemma ListsRegroup(p: Plan)
    ensures multiset(PT.Lists(p)) == multiset(Hand(p) + Wait(p) + p.expired)
  {
  }

  ghost predicate AllSealedIn(os: seq<Order>) { forall o | o in os :: o.sealed }
  ghost predicate AllPublicIn(os: seq<Order>) { forall o | o in os :: !o.sealed }

  lemma PlanKinds(all: seq<Order>, a: BuildArgs)
    requires DistinctKeys(all)
    ensures var plan := PlanBatch(all, a.resting, CapPolicy(a.gas, a.lim), a.now, a.ready);
            AllSealedIn(plan.shown) && AllPublicIn(plan.public)
  {
    var fit := CapPolicy(a.gas, a.lim);
    var plan := PlanBatch(all, a.resting, fit, a.now, a.ready);
    DistinctKeysIff(all);
    BatchCapTheorems.CapPolicyIsSafe(a.gas, a.lim);
    var last := PT.PlanBatchSettles(all, a.resting, fit, a.now, a.ready);
    forall o ensures (o in plan.shown ==> o.sealed) && (o in plan.public ==> !o.sealed) {
      PT.RefillMember(all, a.resting, fit, a.now, last, o);
    }
  }

  lemma AttachRetags(os: seq<Order>, expiry: map<nat, int>)
    ensures Retagged(os, Attach(os, expiry))
  {
  }

  lemma RepriceRetags(os: seq<Order>, lp: nat)
    ensures Retagged(os, Reprice(os, lp))
  {
  }

  /** The service accepts a market order's price within ten percent of the last price. */
  predicate InBand(p: nat, lp: nat) { lp * (100 - MARKET_BAND_PCT) <= p * 100 <= lp * (100 + MARKET_BAND_PCT) }

  /** A market order is priced inside the band, at its very edge: a buy at the highest price the
      service accepts, a sell at the lowest. */
  lemma MarketPriceAtEdge(side: Side, lp: nat, p: nat)
    requires lp > 0
    ensures InBand(MarketPrice(side, lp), lp)
    ensures InBand(p, lp) ==> if side.Buy? then p <= MarketPrice(side, lp) else p >= MarketPrice(side, lp)
  {
    var q := (lp * 90 + 99) / 100;
    assert q * 100 <= lp * 90 + 99 && lp * 90 <= q * 100;
  }

  // ---- taking the batch, and giving it back ----

  lemma WaitFilter(all: seq<Order>, wait: seq<Order>)
    requires DistinctKeys(all) && forall o | o in wait :: o in all
    ensures var q := Filter(all, InSet(Members(wait))); DistinctKeys(q) && KeySet(q) == KeySet(wait)
  {
    FilterDistinctKeys(all, InSet(Members(wait)));
    FilterMembers(all, InSet(Members(wait)));
  }

  /** The queue as the planner sees it. */
  lemma AllOf(s: State, a: BuildArgs)
    requires Inv(s, {})
    ensures var all, plan := Attach(s.pending, s.expiry), PlanOf(s, a);
            && DistinctKeys(all) && KeySet(all) == KeySet(s.pending) && AllKnown(s.accepted, all)
            && Parts(all, Hand(plan), Wait(plan), plan.expired)
            && AllSealedIn(plan.shown) && AllPublicIn(plan.public)
  {
    AttachRetags(s.pending, s.expiry);
    RetaggedKeys(s.pending, Attach(s.pending, s.expiry), s.accepted);
    PlanParts(Attach(s.pending, s.expiry), a);
    PlanKinds(Attach(s.pending, s.expiry), a);
  }

  /** Taking the batch: what it does not take waits in the queue, what expired ends. */
  lemma TakeBatchKeeps(s: State, a: BuildArgs)
    requires Inv(s, {}) && s.inflight.None?
    ensures Inv(TakeBatch(s, a), KeySet(Hand(PlanOf(s, a)))) && Moves(s, TakeBatch(s, a))
    ensures KeySet(TakeBatch(s, a).pending) == KeySet(Wait(PlanOf(s, a)))
  {
    var all, plan, s' := Attach(s.pending, s.expiry), PlanOf(s, a), TakeBatch(s, a);
    AllOf(s, a);
    WaitFilter(all, Wait(plan));
    FilterKnown(s.accepted, all, InSet(Members(Wait(plan))));
    Regroup(s, s', {}, KeySet(Hand(plan)));
  }

  /** A build that fails puts back exactly the orders still in its hands. */
  lemma RequeueKeeps(s: State, held: set<Key>, taken: seq<Order>, ended: set<Key>)
    requires Inv(s, held) && s.inflight.None? && DistinctKeys(taken) && AllKnown(s.accepted, taken)
    requires held <= KeySet(taken) - ended
    requires KeySet(taken) - ended - SightedKeys(s.zombies, -1) - KeySet(s.pending) <= held
    ensures Inv(RequeueUnsent(s, taken, ended), {})
    ensures KeySet(RequeueUnsent(s, taken, ended).pending) == KeySet(s.pending) + held
  {
    var skip := ended + SightedKeys(s.zombies, -1) + KeySet(s.pending);
    var back := Filter(taken, FreeOf(skip));
    HeldUnsighted(s, held);
    FilterKeys(taken, skip);
    assert KeySet(back) == held;
    FilterKnown(s.accepted, taken, FreeOf(skip));
    PutBack(s, RequeueUnsent(s, taken, ended), held, back, {});
    assert held - KeySet(back) - {} == {};
  }

  lemma HeldUnsighted(s: State, held: set<Key>)
    requires Inv(s, held)
    ensures held !! SightedKeys(s.zombies, -1)
  {
    forall j | 0 <= j < |s.zombies| && s.zombies[j].Sighted() ensures s.zombies[j].rid.keys !! held {
      assert Holds(s.zombies, {}, j) && s.zombies[j].rid in SightedRids(s.zombies);
    }
  }

  function TakenOf(all: seq<Order>, plan: Plan): seq<Order> {
    Filter(all, HeldIn(KeySet(plan.shown + plan.public + plan.expired)))
  }

  lemma TakenKeys(all: seq<Order>, plan: Plan, accepted: map<Key, Order>)
    requires DistinctKeys(all) && AllKnown(accepted, all) && Parts(all, Hand(plan), Wait(plan), plan.expired)
    ensures DistinctKeys(TakenOf(all, plan)) && AllKnown(accepted, TakenOf(all, plan))
    ensures KeySet(TakenOf(all, plan)) == KeySet(Hand(plan)) + KeySet(plan.expired)
  {
    var ks := KeySet(plan.shown + plan.public + plan.expired);
    KeySetConcat(plan.shown + plan.public, plan.expired);
    FilterDistinctKeys(all, HeldIn(ks));
    FilterKnown(accepted, all, HeldIn(ks));
    FilterMembers(all, HeldIn(ks));
  }

  // ---- the batch after pricing, floors and the second look ----

  /** The orders in a build's hands: to show, to send, and to end; together exactly `held`. */
  ghost predicate BatchOf(b: Batch, held: set<Key>, accepted: map<Key, Order>) {
    && DistinctKeys(b.sealed) && DistinctKeys(b.public)
    && KeySet(b.sealed) !! KeySet(b.public) && KeySet(b.sealed) !! KeySet(b.dead) && KeySet(b.public) !! KeySet(b.dead)
    && held == KeySet(b.sealed) + KeySet(b.public) + KeySet(b.dead)
    && AllKnown(accepted, b.sealed) && AllKnown(accepted, b.public)
    && AllSealedIn(b.sealed) && AllPublicIn(b.public)
  }

  lemma PricedSplit(q: seq<Order>, lp: nat)
    requires DistinctKeys(q)
    ensures var p, u := Filter(q, Priceable(lp)), Filter(q, Unpriceable(lp));
            DistinctKeys(p) && KeySet(p) !! KeySet(u) && KeySet(p) + KeySet(u) == KeySet(q)
  {
    FilterDistinctKeys(q, Priceable(lp));
    FilterMembers(q, Priceable(lp));
    FilterMembers(q, Unpriceable(lp));
    DistinctKeysIff(q);
  }

  lemma SanitizedKeys(r: seq<Order>, floor: SD.Floors)
    requires DistinctKeys(r)
    ensures var sane := SD.Sanitized(r, floor); var dead := SD.Dropees(sane.dead);
            && DistinctKeys(sane.kept) && KeySet(sane.kept) !! KeySet(dead)
            && KeySet(sane.kept) + KeySet(dead) == KeySet(r)
            && forall o | o in sane.kept :: o in r
  {
    var sane := SD.Sanitized(r, floor);
    var both := sane.kept + SD.Dropees(sane.dead);
    SD.SanitizeIsExact(r, floor);
    assert multiset(both) == multiset(r);
    PermKeys(r, both);
    DistinctKeysSplit(sane.kept, SD.Dropees(sane.dead));
    KeySetConcat(sane.kept, SD.Dropees(sane.dead));
    assert forall o | o in sane.kept :: o in both;
  }

  lemma PricedKinds(q: seq<Order>, lp: nat, accepted: map<Key, Order>)
    requires AllPublicIn(q) && AllKnown(accepted, q)
    ensures var r := Reprice(Filter(q, Priceable(lp)), lp); AllPublicIn(r) && AllKnown(accepted, r)
    ensures KeySet(Reprice(Filter(q, Priceable(lp)), lp)) == KeySet(Filter(q, Priceable(lp)))
  {
    var p := Filter(q, Priceable(lp));
    FilterMembers(q, Priceable(lp));
    RepriceRetags(p, lp);
    RetaggedKeys(p, Reprice(p, lp), accepted);
    forall o | o in Reprice(p, lp) ensures !o.sealed {
      var i :| 0 <= i < |p| && Reprice(p, lp)[i] == o;
      assert p[i] in p;
    }
  }

  /** Pricing and the sequence discipline lose no public order: each is kept or ended. */
  lemma DisciplineSplits(q: seq<Order>, lp: nat, floor: SD.Floors, accepted: map<Key, Order>)
    requires DistinctKeys(q) && AllPublicIn(q) && AllKnown(accepted, q)
    ensures var sane := SD.Sanitized(Reprice(Filter(q, Priceable(lp)), lp), floor);
            var dead := Filter(q, Unpriceable(lp)) + SD.Dropees(sane.dead);
            && DistinctKeys(sane.kept) && KeySet(sane.kept) !! KeySet(dead)
            && KeySet(sane.kept) + KeySet(dead) == KeySet(q)
            && AllPublicIn(sane.kept) && AllKnown(accepted, sane.kept)
  {
    var p, u := Filter(q, Priceable(lp)), Filter(q, Unpriceable(lp));
    PricedSplit(q, lp);
    PricedKinds(q, lp, accepted);
    RepriceRetags(p, lp);
    RetaggedKeys(p, Reprice(p, lp), accepted);
    SanitizedKeys(Reprice(p, lp), floor);
    KeySetConcat(u, SD.Dropees(SD.Sanitized(Reprice(p, lp), floor).dead));
  }

  lemma DisciplinedBatch(plan: Plan, a: BuildArgs, accepted: map<Key, Order>)
    requires DistinctKeys(Hand(plan)) && AllKnown(accepted, Hand(plan)) && AllSealedIn(plan.shown)
             && AllPublicIn(plan.public)
    ensures BatchOf(Disciplined(plan, a), KeySet(Hand(plan)), accepted)
  {
    DistinctKeysSplit(plan.shown, plan.public);
    KeySetConcat(plan.shown, plan.public);
    assert forall o :: o in Hand(plan) <==> o in plan.shown || o in plan.public;
    DisciplineSplits(plan.public, a.lastPrice, a.floor, accepted);
  }

  lemma UnclaimedBatch(b: Batch, held: set<Key>, accepted: map<Key, Order>, took: set<Key>)
    requires BatchOf(b, held, accepted)
    ensures BatchOf(Unclaimed(b, took), held - took, accepted)
  {
    FilterKeys(b.sealed, took);
    FilterKeys(b.public, took);
    FilterKeySet(b.dead, took);
    FilterMembers(b.sealed, FreeOf(took));
    FilterMembers(b.public, FreeOf(took));
  }

  // ---- hiding again what lost its counterparty ----

  lemma StillShownIn(b: Batch, a: BuildArgs)
    requires DistinctKeys(b.sealed + b.public) && AllPublicIn(b.public)
    ensures DistinctKeys(StillShown(b, a)) && forall o | o in StillShown(b, a) :: o in b.sealed && o.sealed
  {
    var q := b.sealed + b.public;
    var avail := Filter(q, ReadySealed(AllReady()));
    var all := Liquidity(q, a.resting, AllReady());
    FilterDistinctKeys(q, ReadySealed(AllReady()));
    FilterDistinctKeys(avail, Crossing(LowestSell(all), HighestBuy(all)));
    forall o | o in StillShown(b, a) ensures o in b.sealed && o.sealed {
      PT.PlanRoundMember(q, a.resting, a.now, AllReady(), o);
    }
  }

  lemma RehideSplits(sealed: seq<Order>, shown: seq<Order>)
    requires DistinctKeys(sealed) && forall o | o in shown :: o in sealed
    ensures var hidden := Filter(sealed, NotIn(Members(shown)));
            DistinctKeys(hidden) && KeySet(hidden) !! KeySet(shown) && KeySet(hidden) + KeySet(shown) == KeySet(sealed)
  {
    FilterDistinctKeys(sealed, NotIn(Members(shown)));
    FilterMembers(sealed, NotIn(Members(shown)));
    DistinctKeysIff(sealed);
  }

  function Shown(b: Batch, a: BuildArgs): Batch { Batch(StillShown(b, a), b.public, []) }

  lemma ShownBatch(b: Batch, a: BuildArgs, held: set<Key>, accepted: map<Key, Order>)
    requires BatchOf(b, held, accepted)
    ensures BatchOf(Shown(b, a), KeySet(StillShown(b, a)) + KeySet(b.public), accepted)
    ensures forall o | o in StillShown(b, a) :: o in b.sealed
  {
    DistinctKeysConcat(b.sealed, b.public);
    StillShownIn(b, a);
    assert KeySet([]) == {};
  }

  lemma RehideSets(held: set<Key>, sealed: set<Key>, public: set<Key>, dead: set<Key>, hidden: set<Key>,
                   shown: set<Key>)
    requires held == sealed + public + dead && sealed !! public && sealed !! dead && public !! dead
    requires hidden !! shown && hidden + shown == sealed
    ensures held - hidden - dead == shown + public && hidden == sealed - shown
  {
  }

  /** What is left in hand once the dead have ended and the unmatched are hidden again. */
  lemma RehideKeeps(s: State, b: Batch, a: BuildArgs, held: set<Key>)
    requires Inv(s, held) && s.inflight.None? && BatchOf(b, held, s.accepted)
    ensures var s' := Rehide(End(s, b.dead), b, a);
            && Moves(s, s') && Inv(s', KeySet(StillShown(b, a)) + KeySet(b.public))
            && KeySet(s'.pending) == KeySet(s.pending) + (KeySet(b.sealed) - KeySet(StillShown(b, a)))
  {
    var s' := Rehide(End(s, b.dead), b, a);
    var hidden := Filter(b.sealed, NotIn(Members(StillShown(b, a))));
    ShownBatch(b, a, held, s.accepted);
    RehideSplits(b.sealed, StillShown(b, a));
    FilterKnown(s.accepted, b.sealed, NotIn(Members(StillShown(b, a))));
    PutBack(s, s', held, hidden, KeySet(b.dead));
    RehideSets(held, KeySet(b.sealed), KeySet(b.public), KeySet(b.dead), KeySet(hidden), KeySet(StillShown(b, a)));
  }

  // ---- sending the round ----

  /** Two incarnations in a build's hands belong to different orders. */
  lemma HeldOids(s: State, held: set<Key>, q: seq<Order>)
    requires Inv(s, held) && DistinctKeys(q) && KeySet(q) <= held
    ensures UniqueOids(q)
  {
    forall i, j | 0 <= i < j < |q| ensures q[i].oid != q[j].oid {
      assert q[i] in q && q[j] in q;
      assert KeyOf(q[i]) in held && KeyOf(q[j]) in held;
      assert s.tip[q[i].oid] == KeyOf(q[i]) && s.tip[q[j].oid] == KeyOf(q[j]);
    }
  }

  /** A sealed order never rests in the book. */
  ghost predicate BookApart(resting: seq<Order>, shown: seq<Order>) {
    forall r, o | r in resting && o in shown :: r.oid != o.oid
  }

  lemma FillsFit(resting: seq<Order>, b: Batch, o: Order)
    requires UniqueOids(b.sealed + b.public) && BookApart(resting, b.sealed) && o in b.sealed
    ensures Got(Clear(resting + b.sealed + b.public).fills, o.oid) <= o.qty
  {
    var q := b.sealed + b.public;
    assert resting + b.sealed + b.public == resting + q;
    UniqueIsSole(q, o);
    FilterNone(resting, HasOid(o.oid));
    FilterConcat(resting, q, HasOid(o.oid));
    CT.FillWithinLimits(resting + q, o);
  }

  lemma NewRecordOk(s: State, b: Batch, a: BuildArgs, held: set<Key>)
    requires Inv(s, held) && BatchOf(b, held, s.accepted) && b.dead == [] && BookApart(a.resting, b.sealed)
    ensures RecordOk(s.accepted, KeySet(s.retry), NewRecord(b, a)) && NewRecord(b, a).rid.keys == held
  {
    var q := b.sealed + b.public;
    DistinctKeysConcat(b.sealed, b.public);
    KeySetConcat(b.sealed, b.public);
    assert KeySet(b.dead) == {};
    HeldOids(s, held, q);
    forall o | o in b.sealed ensures Got(Clear(a.resting + b.sealed + b.public).fills, o.oid) <= o.qty {
      FillsFit(a.resting, b, o);
    }
    assert forall o :: o in q <==> o in b.sealed || o in b.public;
  }

  lemma LaunchRounds(s: State, r: Record)
    requires Inv(s, r.rid.keys) && s.inflight.None? && RecordOk(s.accepted, KeySet(s.retry), r) && r.claimed == map[]
    requires forall j | Live(s.zombies, {}, j) :: s.zombies[j].rid != r.rid || s.zombies[j].Sighted()
    ensures Rounds(s.(inflight := Some(r)), Ctx({}, {}, Fin(s.log), SightedRids(s.zombies), {}))
  {
    forall j | Holds(s.zombies, {}, j) ensures s.zombies[j].rid.keys !! r.rid.keys {
      assert s.zombies[j].rid in SightedRids(s.zombies);
    }
  }

  /** The orders in hand become the round in flight. */
  lemma LaunchKeeps(s: State, r: Record)
    requires Inv(s, r.rid.keys) && s.inflight.None? && RecordOk(s.accepted, KeySet(s.retry), r) && r.claimed == map[]
    requires forall j | Live(s.zombies, {}, j) :: s.zombies[j].rid != r.rid || s.zombies[j].Sighted()
    ensures Inv(s.(inflight := Some(r)), {})
  {
    var s' := s.(inflight := Some(r));
    LaunchRounds(s, r);
    SameBooks(s, s');
    assert Logged(s', Fin(s.log), {}) by {
      forall rc | rc in s.log ensures rc.rid != r.rid {
        assert rc.key in Fin(s.log) && rc.key !in r.rid.keys;
      }
    }
    forall k | k in s'.accepted && k !in s'.ended ensures InCustody(k, s', {}) {
      assert k in r.rid.keys || InCustody(k, s, {});
    }
  }

  /** A rebuilt round replaces its released, unsighted record. */
  lemma DedupKeeps(s: State, held: set<Key>, rid: RoundId)
    requires Inv(s, held)
    ensures var s' := s.(zombies := Filter(s.zombies, OtherThan(rid)));
            Inv(s', held) && forall j | Live(s'.zombies, {}, j) :: s'.zombies[j].rid != rid || s'.zombies[j].Sighted()
  {
    var zs := Filter(s.zombies, OtherThan(rid));
    var c := Ctx({}, held, Fin(s.log), SightedRids(s.zombies), {});
    FilterZombiesKeeps(s, c, OtherThan(rid));
    FilterMembers(s.zombies, OtherThan(rid));
    forall j | Live(zs, {}, j) ensures zs[j].rid != rid || zs[j].Sighted() {
      assert zs[j] in zs;
    }
    SightedSubset(s.zombies, zs);
    FewerPrior(s.(zombies := zs), c, SightedRids(zs));
  }

  lemma SightedSubset(zs: seq<Record>, zs': seq<Record>)
    requires forall z | z in zs' :: z in zs
    ensures SightedRids(zs') <= SightedRids(zs)
  {
    forall r | r in SightedRids(zs') ensures r in SightedRids(zs) {
      var j :| 0 <= j < |zs'| && zs'[j].Sighted() && zs'[j].rid == r;
      assert zs'[j] in zs';
      var i :| 0 <= i < |zs| && zs[i] == zs'[j];
    }
  }

  lemma FewerPrior(s: State, c: Ctx, prior: set<RoundId>)
    requires Core(s, c) && c.stale == {} && prior <= c.prior
    ensures Core(s, c.(prior := prior))
  {
    assert HeldOnce(s.zombies, c.gone, prior, {});
  }

  /** Sending the round: refused for now, its orders go back; sent, they are in flight. */
  lemma SubmitKeeps(s: State, b: Batch, a: BuildArgs, held: set<Key>)
    requires Inv(s, held) && s.inflight.None? && BatchOf(b, held, s.accepted) && b.dead == []
             && BookApart(a.resting, b.sealed)
    ensures Inv(Submit(s, b, a), {})
  {
    var q, rec := b.sealed + b.public, NewRecord(b, a);
    NewRecordOk(s, b, a, held);
    if a.fate.ChainBusy? {
      DistinctKeysConcat(b.sealed, b.public);
      assert forall x :: x in q <==> x in b.sealed || x in b.public;
      PutBack(s, Submit(s, b, a), held, q, {});
      assert held - KeySet(q) - {} == {};
    } else {
      DedupKeeps(s, held, rec.rid);
      LaunchKeeps(s.(zombies := Filter(s.zombies, OtherThan(rec.rid))), rec);
    }
  }

  // ---- the whole build ----

  lemma LookedKeeps(s: State, held: set<Key>, look: Look, cfg: Config, refused: set<nat>)
    requires Inv(s, held) && Credible(look, s)
    ensures var v := Looked(s, look, cfg, refused);
            Inv(v.s, held - v.took) && Grows(s, v.s) && v.took <= SightedKeys(v.s.zombies, -1)
  {
    if s.zombies == [] {
      assert held - {} == held;
    } else {
      ResolveZombiesKeeps(s, held, look, cfg, refused);
    }
  }

  /** A build after its second look: `b`, with keys `held`, is what it still has in hand of the
      orders `taken` from the mempool. */
  ghost predicate Assembling(s: State, b: Batch, taken: seq<Order>, expired: seq<Order>, a: BuildArgs, held: set<Key>) {
    && Inv(s, held) && s.inflight.None? && BatchOf(b, held, s.accepted) && BookApart(a.resting, b.sealed)
    && DistinctKeys(taken) && AllKnown(s.accepted, taken)
    && held <= KeySet(taken) - KeySet(expired)
    && KeySet(taken) - KeySet(expired) - SightedKeys(s.zombies, -1) <= held
  }

  /** What a build has in hand once the unmatched are hidden again. */
  function ShownKeys(b: Batch, a: BuildArgs): set<Key> { KeySet(StillShown(b, a)) + KeySet(b.public) }

  /** What a build that fails late does not put back in front. */
  function LateSkip(s: State, b: Batch, expired: seq<Order>): set<Key> {
    KeySet(expired) + KeySet(b.dead) + SightedKeys(s.zombies, -1) + KeySet(s.pending)
  }

  lemma LateKeys(taken: set<Key>, expired: set<Key>, sighted: set<Key>, sealed: set<Key>, shown: set<Key>,
                 public: set<Key>, dead: set<Key>, pending: set<Key>)
    requires sealed !! public && sealed !! dead && public !! dead && shown <= sealed
    requires sealed + public + dead <= taken - expired && taken - expired - sighted <= sealed + public + dead
    ensures shown + public <= taken - (expired + dead)
    ensures taken - (expired + dead) - sighted - (pending + (sealed - shown)) <= shown + public
  {
  }

  /** The orders a late failure puts back are exactly those still in hand. */
  lemma LateHand(s: State, b: Batch, taken: seq<Order>, expired: seq<Order>, a: BuildArgs, held: set<Key>)
    requires Assembling(s, b, taken, expired, a, held)
    ensures var s1 := Rehide(End(s, b.dead), b, a);
            && Moves(s, s1) && Inv(s1, ShownKeys(b, a))
            && ShownKeys(b, a) <= KeySet(taken) - (KeySet(expired) + KeySet(b.dead))
            && KeySet(taken) - LateSkip(s1, b, expired) <= ShownKeys(b, a)
  {
    RehideKeeps(s, b, a, held);
    ShownBatch(b, a, held, s.accepted);
    LateKeys(KeySet(taken), KeySet(expired), SightedKeys(s.zombies, -1), KeySet(b.sealed), KeySet(StillShown(b, a)),
             KeySet(b.public), KeySet(b.dead), KeySet(s.pending));
  }

  lemma AssembleFails(s: State, b: Batch, taken: seq<Order>, expired: seq<Order>, a: BuildArgs, held: set<Key>)
    requires Assembling(s, b, taken, expired, a, held)
    ensures var s1 := Rehide(End(s, b.dead), b, a).(gate := Some(a.now));
            Inv(RequeueUnsent(s1, Reprice(taken, a.lastPrice), KeySet(expired) + KeySet(b.dead)), {})
  {
    var s1 := Rehide(End(s, b.dead), b, a);
    LateHand(s, b, taken, expired, a, held);
    RepriceRetags(taken, a.lastPrice);
    RetaggedKeys(taken, Reprice(taken, a.lastPrice), s.accepted);
    GateKeeps(s1, ShownKeys(b, a), Some(a.now));
    RequeueKeeps(s1.(gate := Some(a.now)), ShownKeys(b, a), Reprice(taken, a.lastPrice),
                 KeySet(expired) + KeySet(b.dead));
  }

  lemma AssembleSends(s: State, b: Batch, a: BuildArgs, held: set<Key>)
    requires Inv(s, held) && s.inflight.None? && BatchOf(b, held, s.accepted) && BookApart(a.resting, b.sealed)
    ensures var s1, b1 := Rehide(End(s, b.dead), b, a), Shown(b, a);
            Inv(Submit(s1, b1, a), {}) && (b1.sealed == [] && b1.public == [] ==> Inv(s1, {}))
  {
    RehideKeeps(s, b, a, held);
    ShownBatch(b, a, held, s.accepted);
    assert StillShown(b, a) == [] && b.public == [] ==> ShownKeys(b, a) == {};
    SubmitKeeps(Rehide(End(s, b.dead), b, a), Shown(b, a), a, ShownKeys(b, a));
  }

  /** The three ways the end of a build can go. */
  lemma AssembleForms(s: State, b: Batch, taken: seq<Order>, expired: seq<Order>, a: BuildArgs, inv: State -> bool)
    requires var s1, b1 := Rehide(End(s, b.dead), b, a), Shown(b, a);
             && (b1.sealed == [] && b1.public == [] ==> inv(s1))
             && inv(RequeueUnsent(s1.(gate := Some(a.now)), Reprice(taken, a.lastPrice),
                                  KeySet(expired) + KeySet(b.dead)))
             && inv(Submit(s1, b1, a))
    ensures inv(Assemble(s, b, taken, expired, a))
  {
  }

  /** The end of a build keeps the invariant. */
  lemma AssembleKeeps(s: State, b: Batch, taken: seq<Order>, expired: seq<Order>, a: BuildArgs, held: set<Key>)
    requires Assembling(s, b, taken, expired, a, held)
    ensures Inv(Assemble(s, b, taken, expired, a), {})
  {
    AssembleSends(s, b, a, held);
    AssembleFails(s, b, taken, expired, a, held);
    AssembleForms(s, b, taken, expired, a, (x: State) => Inv(x, {}));
  }

  lemma GateKeeps(s: State, held: set<Key>, gate: Option<int>)
    requires Inv(s, held)
    ensures Inv(s.(gate := gate), held)
  {
    var s' := s.(gate := gate);
    SameBooks(s, s');
    forall k | InCustody(k, s, {}) ensures InCustody(k, s', {}) {}
  }

  /** What a build may believe: its looks at the chain, and a book free of sealed orders. */
  ghost predicate HonestBuild(s: State, a: BuildArgs, cfg: Config, refused: set<nat>) {
    var s1 := Opening(s, a, cfg, refused);
    && Credible(a.first, s) && Credible(a.second, s1)
    && BookApart(a.resting, PlanOf(s1, a).shown)
  }

  /** The batch is out of the mempool, whatever has arrived since. */
  lemma UnderwayKeeps(s: State, a: BuildArgs)
    requires Inv(s, {}) && s.inflight.None?
    ensures var s2 := Underway(s, a);
            && Inv(s2, KeySet(Hand(PlanOf(s, a)))) && SameRounds(s, s2) && Extends(s.accepted, s2.accepted)
            && TakeBatch(s, a).pending <= s2.pending
  {
    TakeBatchKeeps(s, a);
    ArriveAllKeeps(TakeBatch(s, a), KeySet(Hand(PlanOf(s, a))), a.middle);
  }

  lemma ExtendsKnown(accepted: map<Key, Order>, accepted': map<Key, Order>, os: seq<Order>)
    requires Extends(accepted, accepted') && AllKnown(accepted, os)
    ensures AllKnown(accepted', os)
  {
  }

  lemma BuildFails(s: State, a: BuildArgs, lp: nat)
    requires Inv(s, {}) && s.inflight.None?
    ensures var plan, all := PlanOf(s, a), Attach(s.pending, s.expiry);
            && Inv(RequeueUnsent(Underway(s, a), TakenOf(all, plan), KeySet(plan.expired)), {})
            && Inv(RequeueUnsent(Underway(s, a), Reprice(TakenOf(all, plan), lp), KeySet(plan.expired)), {})
  {
    var plan, all, s2 := PlanOf(s, a), Attach(s.pending, s.expiry), Underway(s, a);
    AllOf(s, a);
    UnderwayKeeps(s, a);
    TakenKeys(all, plan, s.accepted);
    ExtendsKnown(s.accepted, s2.accepted, TakenOf(all, plan));
    RequeueKeeps(s2, KeySet(Hand(plan)), TakenOf(all, plan), KeySet(plan.expired));
    RepriceRetags(TakenOf(all, plan), lp);
    RetaggedKeys(TakenOf(all, plan), Reprice(TakenOf(all, plan), lp), s2.accepted);
    RequeueKeeps(s2, KeySet(Hand(plan)), Reprice(TakenOf(all, plan), lp), KeySet(plan.expired));
  }

  /** The second look, and what arrives after it, with the batch still in hand. */
  lemma SecondLookKeeps(s: State, a: BuildArgs, cfg: Config, refused: set<nat>)
    requires Inv(s, {}) && s.inflight.None? && Credible(a.second, s)
    ensures var v := Looked(Underway(s, a), a.second, cfg, refused);
            var s3 := ArriveAll(v.s, a.late);
            && Inv(s3, KeySet(Hand(PlanOf(s, a))) - v.took) && s3.inflight.None? && Extends(s.accepted, s3.accepted)
            && s3.zombies == v.s.zombies && s3.log == v.s.log && v.took <= SightedKeys(s3.zombies, -1)
            && (Whole(s.log) ==> Whole(s3.log)) && v.s.pending <= s3.pending
  {
    var v := Looked(Underway(s, a), a.second, cfg, refused);
    UnderwayKeeps(s, a);
    LookedKeeps(Underway(s, a), KeySet(Hand(PlanOf(s, a))), a.second, cfg, refused);
    ArriveAllKeeps(v.s, KeySet(Hand(PlanOf(s, a))) - v.took, a.late);
  }

  /** The state and the batch a build assembles its round from. */
  function Seconded(s: State, a: BuildArgs, cfg: Config, refused: set<nat>): State {
    ArriveAll(Looked(Underway(s, a), a.second, cfg, refused).s, a.late)
  }

  function InBatch(s: State, a: BuildArgs, cfg: Config, refused: set<nat>): Batch {
    Unclaimed(Disciplined(PlanOf(s, a), a), Looked(Underway(s, a), a.second, cfg, refused).took)
  }

  function Took(s: State, a: BuildArgs): seq<Order> { TakenOf(Attach(s.pending, s.expiry), PlanOf(s, a)) }

  /** A build, from the market it plans in. */
  lemma BuildFrom(s: State, a: BuildArgs, cfg: Config, refused: set<nat>)
    requires !Gated(s, a.now)
    ensures var s1 := Opening(s, a, cfg, refused);
            Build(s, a, cfg, refused) == Finish(Underway(s1, a), PlanOf(s1, a), Took(s1, a), a, cfg, refused)
  {
  }

  lemma ReadyToAssemble(s: State, a: BuildArgs, cfg: Config, refused: set<nat>)
    requires Inv(s, {}) && s.inflight.None? && Credible(a.second, s) && BookApart(a.resting, PlanOf(s, a).shown)
    ensures Assembling(Seconded(s, a, cfg, refused), InBatch(s, a, cfg, refused), Took(s, a), PlanOf(s, a).expired, a,
                       KeySet(Hand(PlanOf(s, a))) - Looked(Underway(s, a), a.second, cfg, refused).took)
  {
    var plan, all, s3 := PlanOf(s, a), Attach(s.pending, s.expiry), Seconded(s, a, cfg, refused);
    var took := Looked(Underway(s, a), a.second, cfg, refused).took;
    AllOf(s, a);
    TakenKeys(all, plan, s.accepted);
    SecondLookKeeps(s, a, cfg, refused);
    ExtendsKnown(s.accepted, s3.accepted, Hand(plan));
    ExtendsKnown(s.accepted, s3.accepted, TakenOf(all, plan));
    DisciplinedBatch(plan, a, s3.accepted);
    UnclaimedBatch(Disciplined(plan, a), KeySet(Hand(plan)), s3.accepted, took);
    FilterMembers(plan.shown, FreeOf(took));
  }

  /** The market a build plans in. */
  lemma OpeningKeeps(s: State, a: BuildArgs, cfg: Config, refused: set<nat>)
    requires Inv(s, {}) && s.inflight.None? && Credible(a.first, s)
    ensures var s1 := Opening(s, a, cfg, refused);
            Inv(s1, {}) && s1.inflight.None? && (Whole(s.log) ==> Whole(s1.log))
  {
    var v := Looked(s.(gate := None), a.first, cfg, refused);
    GateKeeps(s, {}, None);
    LookedKeeps(s.(gate := None), {}, a.first, cfg, refused);
    assert {} - v.took == {};
    ArriveAllKeeps(v.s, {}, a.early);
  }

  /** A build keeps the invariant however it ends, and whatever arrives while it is under way. */
  lemma BuildKeeps(s: State, a: BuildArgs, cfg: Config, refused: set<nat>)
    requires Inv(s, {}) && (!Gated(s, a.now) ==> HonestBuild(s, a, cfg, refused))
    ensures Inv(Build(s, a, cfg, refused), {})
  {
    if !Gated(s, a.now) {
      var s1 := Opening(s, a, cfg, refused);
      OpeningKeeps(s, a, cfg, refused);
      if a.fate.FailsPricing? || a.fate.FailsFloors? {
        BuildFails(s1, a, a.lastPrice);
      } else {
        ReadyToAssemble(s1, a, cfg, refused);
        AssembleKeeps(Seconded(s1, a, cfg, refused), InBatch(s1, a, cfg, refused), Took(s1, a),
                      PlanOf(s1, a).expired, a,
                      KeySet(Hand(PlanOf(s1, a))) - Looked(Underway(s1, a), a.second, cfg, refused).took);
      }
    }
  }

  // ---- what a build does beside its looks ----

  /** The record-keeping of rounds, apart from the round in flight. */
  ghost predicate SameRecords(s: State, s': State) {
    s'.log == s.log && s'.looks == s.looks && (forall z | z in s'.zombies :: z in s.zombies)
  }

  ghost predicate Unsent(s: State, s': State) {
    s'.inflight == s.inflight
      || (s'.inflight.Some? && !s'.inflight.value.Sighted() && s'.inflight.value.deadSince.None?)
  }

  lemma SubmitRecords(s: State, b: Batch, a: BuildArgs)
    ensures SameRecords(s, Submit(s, b, a)) && Unsent(s, Submit(s, b, a))
  {
    FilterMembers(s.zombies, OtherThan(NewRecord(b, a).rid));
  }

  lemma MovesRecords(s: State, s': State)
    requires Moves(s, s')
    ensures SameRecords(s, s') && Unsent(s, s')
  {
  }

  lemma RehideMoves(s: State, b: Batch, a: BuildArgs)
    ensures Moves(s, Rehide(End(s, b.dead), b, a))
  {
  }

  lemma RequeueMoves(s: State, taken: seq<Order>, ended: set<Key>, gate: Option<int>)
    ensures Moves(s, RequeueUnsent(s.(gate := gate), taken, ended))
  {
  }

  lemma AssembleRecords(s: State, b: Batch, taken: seq<Order>, expired: seq<Order>, a: BuildArgs)
    ensures SameRecords(s, Assemble(s, b, taken, expired, a)) && Unsent(s, Assemble(s, b, taken, expired, a))
  {
    var s1 := Rehide(End(s, b.dead), b, a);
    RehideMoves(s, b, a);
    MovesRecords(s, s1);
    RequeueMoves(s1, Reprice(taken, a.lastPrice), KeySet(expired) + KeySet(b.dead), Some(a.now));
    SubmitRecords(s1, Shown(b, a), a);
  }

  /** The state a build's last look leaves behind, with what arrives after it. */
  function LastLook(s: State, a: BuildArgs, cfg: Config, refused: set<nat>): State {
    var s1 := Opening(s, a, cfg, refused);
    if a.fate.FailsPricing? || a.fate.FailsFloors? then Underway(s1, a)
    else Seconded(s1, a, cfg, refused)
  }

  lemma BuildRecords(s: State, a: BuildArgs, cfg: Config, refused: set<nat>)
    requires !Gated(s, a.now)
    ensures var s', v := Build(s, a, cfg, refused), LastLook(s, a, cfg, refused);
            SameRecords(v, s') && Unsent(v, s')
  {
    var s1 := Opening(s, a, cfg, refused);
    var plan := PlanOf(s1, a);
    var taken := TakenOf(Attach(s1.pending, s1.expiry), plan);
    if a.fate.FailsPricing? || a.fate.FailsFloors? {
      RequeueRecords(Underway(s1, a), taken, KeySet(plan.expired));
      RequeueRecords(Underway(s1, a), Reprice(taken, a.lastPrice), KeySet(plan.expired));
    } else {
      var v := Looked(Underway(s1, a), a.second, cfg, refused);
      AssembleRecords(ArriveAll(v.s, a.late), Unclaimed(Disciplined(plan, a), v.took), taken, plan.expired, a);
    }
  }

  lemma RequeueRecords(s: State, taken: seq<Order>, ended: set<Key>)
    ensures SameRecords(s, RequeueUnsent(s, taken, ended)) && RequeueUnsent(s, taken, ended).inflight == s.inflight
  {
  }

  lemma LastLookWhole(s: State, a: BuildArgs, cfg: Config, refused: set<nat>)
    requires Inv(s, {}) && !Gated(s, a.now) && HonestBuild(s, a, cfg, refused) && Whole(s.log)
    ensures Whole(LastLook(s, a, cfg, refused).log)
  {
    var s1 := Opening(s, a, cfg, refused);
    OpeningKeeps(s, a, cfg, refused);
    UnderwayKeeps(s1, a);
    SecondLookKeeps(s1, a, cfg, refused);
  }

  /** A build settles released rounds whole, if it settles any. */
  lemma BuildWhole(s: State, a: BuildArgs, cfg: Config, refused: set<nat>)
    requires Inv(s, {}) && (!Gated(s, a.now) ==> HonestBuild(s, a, cfg, refused)) && Whole(s.log)
    ensures Whole(Build(s, a, cfg, refused).log)
  {
    if !Gated(s, a.now) {
      LastLookWhole(s, a, cfg, refused);
      BuildRecords(s, a, cfg, refused);
    }
  }
}

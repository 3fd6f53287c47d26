/** An order that has ended can be queued again: its round lands late, is sighted, and reverts. These
    theorems say that this is the only way, and where it happens. */
module LifecycleEnded {
  import opened Sequences
  import opened Orders
  import opened Lifecycle
  import opened LifecycleInvariants
  import opened LifecycleReceipts
  import opened LifecycleSettling
  import opened LifecycleClaims
  import opened LifecycleSweeps
  import opened LifecycleReleases
  import opened LifecycleQueues
  import opened LifecycleBuilds
  import opened LifecycleRuns

  // ---- vocabulary ----

  /** The orders of the round in flight that no other round holds. */
  function FlyingKeys(f: Option<Record>): set<Key> {
    if f.Some? then f.value.rid.keys - f.value.claimed.Keys else {}
  }

  /** The orders that are queued, in flight, or in a build's hands. */
  function Astir(s: State, held: set<Key>): set<Key> { KeySet(s.pending) + FlyingKeys(s.inflight) + held }

  /** Of the orders that have ended, only those in `woken` are astir, and none waits to be re-sealed. */
  ghost predicate Asleep(s: State, held: set<Key>, woken: set<Key>) {
    && s.ended <= s.accepted.Keys && KeySet(s.retry) !! s.ended
    && s.ended * Astir(s, held) <= woken
  }

  /** The orders of the sighted rounds that a look reads as not landed. */
  function Reverted(zs: seq<Record>, look: Look): set<Key> {
    set j, k | 0 <= j < |zs| && zs[j].Sighted() && zs[j].rid !in look.landed + look.unread && k in zs[j].rid.keys :: k
  }

  /** The ended orders that a look gives back. */
  function Wakes(s: State, look: Look): set<Key> { s.ended * Reverted(s.zombies, look) }

  /** The same of a build's second look, taken by a build that planned in state `s` and gets so far. */
  function WakesLater(s: State, a: BuildArgs): set<Key> {
    if a.fate.FailsPricing? || a.fate.FailsFloors? then {} else Wakes(Underway(s, a), a.second)
  }

  function WokenBy(s: State, e: Event, cfg: Config): set<Key> {
    match e
    case Arrives(_) => {}
    case Sweeps(look, _) => Wakes(s, look)
    case Building(a, refused) =>
      if Gated(s, a.now) then {}
      else Wakes(s, a.first) + WakesLater(Opening(s, a, cfg, refused), a)
  }

  /** The orders given back, in the course of a run, by a look taken after they had ended. */
  function Woken(es: seq<Event>, cfg: Config): set<Key> {
    if es == [] then {}
    else Woken(es[..|es|-1], cfg) + WokenBy(Run(es[..|es|-1], cfg), es[|es|-1], cfg)
  }

  // ---- steps, by what they add ----

  /** A step that ends `over`, adds `back` to what is astir, and otherwise only unseen orders or
      orders that waited to be re-sealed. */
  lemma Shift(s: State, held: set<Key>, s': State, held': set<Key>, over: set<Key>, back: set<Key>, woken: set<Key>)
    requires Asleep(s, held, woken) && s.accepted.Keys <= s'.accepted.Keys
    requires s'.ended <= s.ended + over && over <= s'.accepted.Keys
    requires over !! Astir(s', held') && over !! KeySet(s'.retry)
    requires Astir(s', held') - Astir(s, held) - back !! s.ended && s.ended * back <= woken
    requires KeySet(s'.retry) - KeySet(s.retry) !! s.ended
    ensures Asleep(s', held', woken)
  {
    forall k | k in s'.ended && k in Astir(s', held') ensures k in woken {
      assert k in s.ended;
      if k !in back {
        assert k !in Astir(s', held') - Astir(s, held) - back;
      }
    }
    forall k | k in KeySet(s'.retry) ensures k !in s'.ended {
      assert k in KeySet(s.retry) || k in KeySet(s'.retry) - KeySet(s.retry);
    }
  }

  /** A step that only moves what is astir, or lets go of it, and ends `over`. */
  lemma Settles(s: State, held: set<Key>, s': State, held': set<Key>, over: set<Key>, woken: set<Key>)
    requires Asleep(s, held, woken) && s.accepted == s'.accepted && s'.retry == s.retry
    requires s'.ended == s.ended + over && over <= s.accepted.Keys && over !! KeySet(s.retry)
    requires over !! Astir(s', held') && Astir(s', held') <= Astir(s, held)
    ensures Asleep(s', held', woken)
  {
    assert Astir(s', held') - Astir(s, held) - {} == {};
    Shift(s, held, s', held', over, {}, woken);
  }

  lemma More(s: State, held: set<Key>, woken: set<Key>, woken': set<Key>)
    requires Asleep(s, held, woken) && woken <= woken'
    ensures Asleep(s, held, woken')
  {
  }

  // ---- arrivals ----

  lemma PlaceAsleep(s: State, held: set<Key>, n: Ticket, woken: set<Key>)
    requires Inv(s, held) && Asleep(s, held, woken)
    ensures Asleep(Place(s, n), held, woken)
  {
    var s' := Place(s, n);
    PlaceQueues(s, Ctx({}, held, Fin(s.log), SightedRids(s.zombies), {}), n);
    Shift(s, held, s', held, {}, {}, woken);
  }

  lemma DrainedParts(q: seq<Order>, expiry: map<nat, int>, now: int, refused: set<nat>)
    requires DistinctKeys(q)
    ensures var a, b, c := KeySet(Filter(q, Resealed(expiry, now, refused))),
                           KeySet(Filter(q, StillRefused(expiry, now, refused))),
                           KeySet(Filter(q, Lapsing(expiry, now)));
            a <= KeySet(q) && b <= KeySet(q) && c <= KeySet(q) && a !! c && b !! c
  {
    FilterMembers(q, Resealed(expiry, now, refused));
    FilterMembers(q, StillRefused(expiry, now, refused));
    FilterMembers(q, Lapsing(expiry, now));
    DistinctKeysIff(q);
  }

  lemma RetryStill(s: State, held: set<Key>)
    requires Inv(s, held)
    ensures KeySet(s.retry) !! Astir(s, held) && KeySet(s.retry) <= s.accepted.Keys
  {
    if s.inflight.Some? {
      assert RecordOk(s.accepted, KeySet(s.retry), s.inflight.value);
    }
  }

  lemma DrainAsleep(s: State, held: set<Key>, now: int, refused: set<nat>, woken: set<Key>)
    requires Inv(s, held) && Asleep(s, held, woken)
    ensures Asleep(Drain(s, now, refused), held, woken)
  {
    var s' := Drain(s, now, refused);
    var queued, late := Filter(s.retry, Resealed(s.expiry, now, refused)), Filter(s.retry, Lapsing(s.expiry, now));
    DrainIsExact(s, now, refused);
    DrainedParts(s.retry, s.expiry, now, refused);
    KeySetConcat(s.pending, queued);
    RetryStill(s, held);
    Shift(s, held, s', held, KeySet(late), {}, woken);
  }

  lemma {:induction false} ArriveAllAsleep(s: State, held: set<Key>, vs: seq<Arrival>, woken: set<Key>)
    requires Inv(s, held) && Asleep(s, held, woken)
    ensures Asleep(ArriveAll(s, vs), held, woken)
    decreases |vs|
  {
    if vs == [] {
      assert ArriveAll(s, vs) == s;
    } else {
      ArriveAsleep(s, held, vs[0], woken);
      ArriveKeeps(s, held, vs[0]);
      ArriveAllAsleep(Arrive(s, vs[0]), held, vs[1..], woken);
    }
  }

  lemma ArriveAsleep(s: State, held: set<Key>, v: Arrival, woken: set<Key>)
    requires Inv(s, held) && Asleep(s, held, woken)
    ensures Asleep(Arrive(s, v), held, woken)
  {
    match v
    case Placing(n) => PlaceAsleep(s, held, n, woken);
    case Draining(now, refused) => DrainAsleep(s, held, now, refused, woken);
  }

  // ---- a settlement ----

  lemma SettledStill(s: State, c: Ctx)
    requires Core(s, c)
    ensures Fin(s.log) !! Astir(s, c.held) && Fin(s.log) !! KeySet(s.retry) && Fin(s.log) <= s.accepted.Keys
  {
  }

  /** A settlement queues only re-seals never seen before, and ends only what it receipts. */
  lemma FinalizeAsleep(s: State, held: set<Key>, s0: State, c: Ctx, rec: Record, now: int, refused: set<nat>,
                       woken: set<Key>)
    requires Asleep(s, held, woken) && Counters(s) && s0 == s.(inflight := s0.inflight) && c.held == held
    requires FlyingKeys(s0.inflight) <= FlyingKeys(s.inflight)
    requires var s' := Finalize(s0, rec, now, refused); Core(s', c) && s'.inflight == s0.inflight
    ensures Asleep(Finalize(s0, rec, now, refused), held, woken)
  {
    var s' := Finalize(s0, rec, now, refused);
    FinalizeAdds(s0, rec, now, refused);
    NewlyKeys(s, s.pending, s'.pending);
    NewlyKeys(s, s.retry, s'.retry);
    SettledStill(s', c);
    Shift(s, held, s', held, Fin(s'.log), {}, woken);
  }

  // ---- a look at the released rounds ----

  /** The sweep so far: what had ended before it, or is receipted since, and nothing astir beyond
      `woken`. */
  ghost predicate Dozing(s: State, w: Sweeping, held: set<Key>, woken: set<Key>) {
    Asleep(w.s, held, woken) && w.s.ended <= s.ended + Fin(w.s.log)
  }

  lemma ClaimAsleep(s: State, held: set<Key>, i: nat, t: int, woken: set<Key>)
    requires Asleep(s, held, woken) && i < |s.zombies| && !s.zombies[i].Sighted()
    ensures Asleep(Claim(Sight(s, i, Some(t)), i), held, woken)
  {
    var s' := Claim(Sight(s, i, Some(t)), i);
    ClaimShape(s, i, t);
    FilterKeySet(s.pending, s.zombies[i].rid.keys);
    Settles(s, held, s', held, {}, woken);
  }

  lemma FlyingBack(f: Option<Record>, zs: seq<Record>, f': Option<Record>, zs': seq<Record>, i: nat, gone: set<nat>,
                   fin: set<Key>)
    requires Unclaims(f, zs, f', zs', i) && Backed(f, zs, gone, fin)
    ensures FlyingKeys(f') <= FlyingKeys(f) + zs[i].rid.keys
  {
  }

  /** Exactly the orders of the reverted round that are nowhere else join the queue. */
  lemma RevertQueues(s: State, c: Ctx, i: nat)
    requires Core(s, c) && Holds(s.zombies, c.gone, i)
    ensures KeySet(Unclaim(Sight(s, i, None), i).pending) == KeySet(s.pending) + (s.zombies[i].rid.keys - Busy(s, i))
  {
    var z := s.zombies[i];
    UnclaimShape(s, i);
    assert RecordOk(s.accepted, KeySet(s.retry), z);
    FilterKeySet(z.Orders(), Busy(s, i));
    KeySetConcat(Filter(z.Orders(), FreeOf(Busy(s, i))), s.pending);
  }

  lemma UnclaimAsleep(s: State, c: Ctx, i: nat, woken: set<Key>)
    requires Core(s, c) && Asleep(s, c.held, woken) && Holds(s.zombies, c.gone, i)
    requires s.ended * s.zombies[i].rid.keys <= woken
    ensures Asleep(Unclaim(Sight(s, i, None), i), c.held, woken)
  {
    var s' := Unclaim(Sight(s, i, None), i);
    UnclaimShape(s, i);
    RevertQueues(s, c, i);
    FlyingBack(s.inflight, s.zombies, s'.inflight, s'.zombies, i, c.gone, c.fin);
    Shift(s, c.held, s', c.held, {}, s.zombies[i].rid.keys, woken);
  }

  lemma DozingSinks(s: State, w: Sweeping, n: nat, look: Look, held: set<Key>, woken: set<Key>)
    requires Midway(s.zombies, w, n, look, held) && n < |s.zombies| && Dozing(s, w, held, woken)
    requires w.s.zombies[n].Sighted() && w.s.zombies[n].rid !in look.landed + look.unread && Wakes(s, look) <= woken
    ensures Dozing(s, w.(s := Unclaim(Sight(w.s, n, None), n)), held, woken)
  {
    var c, z := Midpoint(s.zombies, w, look, held), w.s.zombies[n];
    assert Holds(w.s.zombies, c.gone, n) && z.rid.keys !! Fin(w.s.log);
    assert s.zombies[n].Sighted() && s.zombies[n].rid == z.rid;
    forall k | k in w.s.ended && k in z.rid.keys ensures k in woken {
      assert k in Reverted(s.zombies, look);
    }
    UnclaimAsleep(w.s, c, n, woken);
    UnclaimShape(w.s, n);
  }

  lemma DozingSettles(s: State, w: Sweeping, n: nat, look: Look, held: set<Key>, refused: set<nat>, woken: set<Key>)
    requires Midway(s.zombies, w, n, look, held) && n < |s.zombies| && Dozing(s, w, held, woken)
    requires w.s.zombies[n].Sighted() && w.s.zombies[n].rid in look.landed
    ensures Dozing(s, Sweeping(Finalize(w.s, w.s.zombies[n], look.time, refused), w.gone + {n}, w.took), held, woken)
  {
    var c, z := Midpoint(s.zombies, w, look, held), w.s.zombies[n];
    UnvisitedPrior(s.zombies, w, n, n);
    ZombieFinalizes(w.s, c, n, look.time, refused);
    FinalizeAsleep(w.s, held, w.s, Settle(c, n, z.rid.keys), z, look.time, refused, woken);
    FinalizeAdds(w.s, z, look.time, refused);
  }

  lemma DozingForms(s: State, w: Sweeping, n: nat, look: Look, cfg: Config, held: set<Key>, refused: set<nat>,
                    woken: set<Key>, inv: (Sweeping, nat) -> bool)
    requires Midway(s.zombies, w, n, look, held) && n < |s.zombies| && Dozing(s, w, held, woken)
    requires Wakes(s, look) <= woken && inv == ((x: Sweeping, m: nat) => Dozing(s, x, held, woken))
    ensures inv(Visiting(look, cfg, refused)(w, n), n + 1)
  {
    var z := w.s.zombies[n];
    if z.Sighted() && z.rid !in look.landed + look.unread {
      DozingSinks(s, w, n, look, held, woken);
    }
    if z.Sighted() && z.rid in look.landed {
      DozingSettles(s, w, n, look, held, refused, woken);
    }
    if !z.Sighted() {
      ClaimAsleep(w.s, held, n, look.time, woken);
      ClaimShape(w.s, n, look.time);
    }
    VisitForms(w, n, look, cfg, refused, inv);
  }

  lemma VisitsAsleep(s: State, held: set<Key>, look: Look, cfg: Config, refused: set<nat>, woken: set<Key>)
    requires Inv(s, held) && Credible(look, s) && Asleep(s, held, woken) && Wakes(s, look) <= woken
    ensures Asleep(VisitUpTo(s, |s.zombies|, look, cfg, refused).s, held, woken)
  {
    MidwayStarts(s, held, look);
    var start, step := Sweeping(s.(looks := s.looks + [look]), {}, {}), Visiting(look, cfg, refused);
    var mid := (w: Sweeping, n: nat) => Midway(s.zombies, w, n, look, held);
    var doze := (w: Sweeping, n: nat) => Dozing(s, w, held, woken);
    var inv := (w: Sweeping, n: nat) => mid(w, n) && doze(w, n);
    forall w, i: nat | inv(w, i) && i < |s.zombies| ensures inv(step(w, i), i + 1) {
      MidwayForms(s.zombies, w, i, look, cfg, held, refused, mid);
      DozingForms(s, w, i, look, cfg, held, refused, woken, doze);
    }
    IterateInduction(step, start, |s.zombies|, inv);
  }

  lemma LookedAsleep(s: State, held: set<Key>, look: Look, cfg: Config, refused: set<nat>, woken: set<Key>)
    requires Inv(s, held) && Credible(look, s) && Asleep(s, held, woken) && Wakes(s, look) <= woken
    ensures var v := Looked(s, look, cfg, refused); Asleep(v.s, held - v.took, woken)
    ensures var v := ResolveZombies(s, look, cfg, refused); Asleep(v.s, held, woken)
  {
    VisitsAsleep(s, held, look, cfg, refused, woken);
  }

  // ---- the round in flight ----

  lemma FlightSettles(s: State, look: Look, cfg: Config, refused: set<nat>, woken: set<Key>)
    requires Inv(s, {}) && Durable(look.landed, s.log) && Asleep(s, {}, woken)
    requires forall j | Holds(s.zombies, {}, j) :: s.zombies[j].rid in look.landed
    requires s.inflight.Some? && look.Reads(s.inflight.value.rid) && !InflightRival(s, s.inflight.value, look)
    ensures Asleep(Finalize(s.(inflight := None), s.inflight.value.(deadSince := None), look.time, refused), {}, woken)
  {
    var c := Ctx({}, {}, Fin(s.log), SightedRids(s.zombies), {});
    var fr, s0 := s.inflight.value.(deadSince := None), s.(inflight := None);
    LandingAlone(s, s.inflight.value, look);
    LandedCore(s, c, look.landed);
    LandingSettles(s, c, look.landed, fr);
    FinalizeKeeps(s0, Landed(c, fr.rid.keys), fr, look.time, refused);
    FinalizeAsleep(s, {}, s0, Landed(c, fr.rid.keys), fr, look.time, refused, woken);
  }

  lemma FlightReturns(s: State, fr: Record, now: int, timeout: bool, woken: set<Key>)
    requires Inv(s, {}) && Asleep(s, {}, woken) && s.inflight.Some?
    requires fr.rid == s.inflight.value.rid && fr.claimed == s.inflight.value.claimed
    requires fr.Orders() == s.inflight.value.Orders()
    ensures Asleep(Abandon(s.(inflight := None), fr, now, timeout), {}, woken)
  {
    var s' := Abandon(s.(inflight := None), fr, now, timeout);
    assert RecordOk(s.accepted, KeySet(s.retry), s.inflight.value);
    FilterKeySet(fr.Orders(), fr.claimed.Keys);
    KeySetConcat(Filter(fr.Orders(), FreeOf(fr.claimed.Keys)), s.pending);
    Settles(s, {}, s', {}, {}, woken);
  }

  lemma FlightLetsGo(s: State, now: int, woken: set<Key>)
    requires Inv(s, {}) && Asleep(s, {}, woken) && s.inflight.Some?
    ensures var fr, s0 := s.inflight.value, s.(inflight := None);
            && (forall since :: Asleep(Abandon(s0, fr.(deadSince := Some(since)), now, false), {}, woken))
            && Asleep(Abandon(s0, fr.(deadSince := None), now, true), {}, woken)
            && (forall ok, dead :: Asleep(Reread(s, ok, dead), {}, woken))
  {
    var fr, s0 := s.inflight.value, s.(inflight := None);
    forall since ensures Asleep(Abandon(s0, fr.(deadSince := Some(since)), now, false), {}, woken) {
      FlightReturns(s, fr.(deadSince := Some(since)), now, false, woken);
    }
    FlightReturns(s, fr.(deadSince := None), now, true, woken);
  }

  lemma FlightAsleep(s: State, look: Look, cfg: Config, refused: set<nat>, woken: set<Key>)
    requires Inv(s, {}) && Durable(look.landed, s.log) && Asleep(s, {}, woken)
    requires forall j | Holds(s.zombies, {}, j) :: s.zombies[j].rid in look.landed
    ensures Asleep(ResolveInflight(s, look, cfg, refused), {}, woken)
  {
    if s.inflight.Some? {
      var fr, inv := s.inflight.value, (x: State) => Asleep(x, {}, woken);
      if look.Reads(fr.rid) && !InflightRival(s, fr, look) {
        FlightSettles(s, look, cfg, refused, woken);
      }
      FlightLetsGo(s, look.time, woken);
      FlightForms(s, look, cfg, refused, inv);
    }
  }

  lemma SweepAsleep(s: State, look: Look, cfg: Config, refused: set<nat>, woken: set<Key>)
    requires Inv(s, {}) && Credible(look, s) && Asleep(s, {}, woken) && Wakes(s, look) <= woken
    ensures Asleep(Sweep(s, look, cfg, refused), {}, woken)
  {
    var v := ResolveZombies(s, look, cfg, refused);
    LookedAsleep(s, {}, look, cfg, refused, woken);
    ResolveZombiesKeeps(s, {}, look, cfg, refused);
    assert {} - v.took == {};
    FlightAsleep(v.s, look, cfg, refused, woken);
  }

  // ---- a build ----

  lemma TakeAsleep(s: State, a: BuildArgs, woken: set<Key>)
    requires Inv(s, {}) && s.inflight.None? && Asleep(s, {}, woken)
    ensures Asleep(TakeBatch(s, a), KeySet(Hand(PlanOf(s, a))), woken)
  {
    var plan := PlanOf(s, a);
    AllOf(s, a);
    TakeBatchKeeps(s, a);
    Settles(s, {}, TakeBatch(s, a), KeySet(Hand(plan)), KeySet(plan.expired), woken);
  }

  lemma UnderwayAsleep(s: State, a: BuildArgs, woken: set<Key>)
    requires Inv(s, {}) && s.inflight.None? && Asleep(s, {}, woken)
    ensures Asleep(Underway(s, a), KeySet(Hand(PlanOf(s, a))), woken)
  {
    TakeAsleep(s, a, woken);
    TakeBatchKeeps(s, a);
    ArriveAllAsleep(TakeBatch(s, a), KeySet(Hand(PlanOf(s, a))), a.middle, woken);
  }

  lemma RequeueAsleep(s: State, held: set<Key>, taken: seq<Order>, ended: set<Key>, woken: set<Key>)
    requires Asleep(s, held, woken) && s.inflight.None?
    requires KeySet(RequeueUnsent(s, taken, ended).pending) == KeySet(s.pending) + held
    ensures Asleep(RequeueUnsent(s, taken, ended), {}, woken)
  {
    Settles(s, held, RequeueUnsent(s, taken, ended), {}, {}, woken);
  }

  lemma BuildFailsAsleep(s: State, a: BuildArgs, lp: nat, woken: set<Key>)
    requires Inv(s, {}) && s.inflight.None? && Asleep(s, {}, woken)
    ensures var plan, all := PlanOf(s, a), Attach(s.pending, s.expiry);
            && Asleep(RequeueUnsent(Underway(s, a), TakenOf(all, plan), KeySet(plan.expired)), {}, woken)
            && Asleep(RequeueUnsent(Underway(s, a), Reprice(TakenOf(all, plan), lp), KeySet(plan.expired)), {}, woken)
  {
    var plan, all, s2 := PlanOf(s, a), Attach(s.pending, s.expiry), Underway(s, a);
    UnderwayAsleep(s, a, woken);
    FailsKeys(s, a, lp);
    RequeueAsleep(s2, KeySet(Hand(plan)), TakenOf(all, plan), KeySet(plan.expired), woken);
    RequeueAsleep(s2, KeySet(Hand(plan)), Reprice(TakenOf(all, plan), lp), KeySet(plan.expired), woken);
  }

  /** A failed build puts back the hand. */
  lemma FailsKeys(s: State, a: BuildArgs, lp: nat)
    requires Inv(s, {}) && s.inflight.None?
    ensures var plan, all, s2 := PlanOf(s, a), Attach(s.pending, s.expiry), Underway(s, a);
            && s2.inflight.None?
            && KeySet(RequeueUnsent(s2, TakenOf(all, plan), KeySet(plan.expired)).pending) ==
                 KeySet(s2.pending) + KeySet(Hand(plan))
            && KeySet(RequeueUnsent(s2, Reprice(TakenOf(all, plan), lp), KeySet(plan.expired)).pending) ==
                 KeySet(s2.pending) + KeySet(Hand(plan))
  {
    var plan, all, s2 := PlanOf(s, a), Attach(s.pending, s.expiry), Underway(s, a);
    AllOf(s, a);
    UnderwayKeeps(s, a);
    TakenKeys(all, plan, s.accepted);
    ExtendsKnown(s.accepted, s2.accepted, TakenOf(all, plan));
    RequeueKeeps(s2, KeySet(Hand(plan)), TakenOf(all, plan), KeySet(plan.expired));
    RepriceRetags(TakenOf(all, plan), lp);
    RetaggedKeys(TakenOf(all, plan), Reprice(TakenOf(all, plan), lp), s2.accepted);
    RequeueKeeps(s2, KeySet(Hand(plan)), Reprice(TakenOf(all, plan), lp), KeySet(plan.expired));
  }

  lemma RehideAsleep(s: State, b: Batch, a: BuildArgs, held: set<Key>, woken: set<Key>)
    requires Inv(s, held) && s.inflight.None? && BatchOf(b, held, s.accepted) && Asleep(s, held, woken)
    ensures Asleep(Rehide(End(s, b.dead), b, a), ShownKeys(b, a), woken)
  {
    var s' := Rehide(End(s, b.dead), b, a);
    RehideKeeps(s, b, a, held);
    ShownBatch(b, a, held, s.accepted);
    assert KeySet(StillShown(b, a)) <= KeySet(b.sealed);
    Settles(s, held, s', ShownKeys(b, a), KeySet(b.dead), woken);
  }

  lemma SubmitAsleep(s: State, b: Batch, a: BuildArgs, held: set<Key>, woken: set<Key>)
    requires s.inflight.None? && Asleep(s, held, woken) && KeySet(b.sealed + b.public) == held
    ensures Asleep(Submit(s, b, a), {}, woken)
  {
    KeySetConcat(b.sealed + b.public, s.pending);
    Settles(s, held, Submit(s, b, a), {}, {}, woken);
  }

  lemma AssembleAsleep(s: State, b: Batch, taken: seq<Order>, expired: seq<Order>, a: BuildArgs, held: set<Key>,
                       woken: set<Key>)
    requires Assembling(s, b, taken, expired, a, held) && Asleep(s, held, woken)
    ensures Asleep(Assemble(s, b, taken, expired, a), {}, woken)
  {
    var s1 := Rehide(End(s, b.dead), b, a);
    RehideAsleep(s, b, a, held, woken);
    KeySetConcat(StillShown(b, a), b.public);
    SubmitAsleep(s1, Shown(b, a), a, ShownKeys(b, a), woken);
    LateAsleep(s, b, taken, expired, a, held, woken);
    AssembleForms(s, b, taken, expired, a, (x: State) => Asleep(x, {}, woken));
  }

  lemma LateAsleep(s: State, b: Batch, taken: seq<Order>, expired: seq<Order>, a: BuildArgs, held: set<Key>,
                   woken: set<Key>)
    requires Assembling(s, b, taken, expired, a, held)
    requires Asleep(Rehide(End(s, b.dead), b, a), ShownKeys(b, a), woken)
    ensures var s1 := Rehide(End(s, b.dead), b, a).(gate := Some(a.now));
            Asleep(RequeueUnsent(s1, Reprice(taken, a.lastPrice), KeySet(expired) + KeySet(b.dead)), {}, woken)
  {
    var s1 := Rehide(End(s, b.dead), b, a);
    LateHand(s, b, taken, expired, a, held);
    RepriceRetags(taken, a.lastPrice);
    RetaggedKeys(taken, Reprice(taken, a.lastPrice), s.accepted);
    GateKeeps(s1, ShownKeys(b, a), Some(a.now));
    RequeueKeeps(s1.(gate := Some(a.now)), ShownKeys(b, a), Reprice(taken, a.lastPrice),
                 KeySet(expired) + KeySet(b.dead));
    RequeueAsleep(s1.(gate := Some(a.now)), ShownKeys(b, a), Reprice(taken, a.lastPrice),
                  KeySet(expired) + KeySet(b.dead), woken);
  }

  lemma OpeningAsleep(s: State, a: BuildArgs, cfg: Config, refused: set<nat>, woken: set<Key>)
    requires Inv(s, {}) && s.inflight.None? && Credible(a.first, s)
    requires Asleep(s, {}, woken) && Wakes(s, a.first) <= woken
    ensures Asleep(Opening(s, a, cfg, refused), {}, woken)
  {
    var s0 := s.(gate := None);
    var v := Looked(s0, a.first, cfg, refused);
    GateKeeps(s, {}, None);
    LookedAsleep(s0, {}, a.first, cfg, refused, woken);
    LookedKeeps(s0, {}, a.first, cfg, refused);
    assert {} - v.took == {};
    ArriveAllAsleep(v.s, {}, a.early, woken);
  }

  lemma SecondedAsleep(s: State, a: BuildArgs, cfg: Config, refused: set<nat>, woken: set<Key>)
    requires Inv(s, {}) && s.inflight.None? && Credible(a.second, s) && Asleep(s, {}, woken)
    requires Wakes(Underway(s, a), a.second) <= woken
    ensures Asleep(Seconded(s, a, cfg, refused),
                   KeySet(Hand(PlanOf(s, a))) - Looked(Underway(s, a), a.second, cfg, refused).took, woken)
  {
    var held, s2 := KeySet(Hand(PlanOf(s, a))), Underway(s, a);
    var v := Looked(s2, a.second, cfg, refused);
    UnderwayKeeps(s, a);
    UnderwayAsleep(s, a, woken);
    LookedAsleep(s2, held, a.second, cfg, refused, woken);
    LookedKeeps(s2, held, a.second, cfg, refused);
    ArriveAllAsleep(v.s, held - v.took, a.late, woken);
  }

  lemma FinishFails(s: State, a: BuildArgs, cfg: Config, refused: set<nat>, woken: set<Key>)
    requires Inv(s, {}) && s.inflight.None? && Asleep(s, {}, woken) && (a.fate.FailsPricing? || a.fate.FailsFloors?)
    ensures Asleep(Finish(Underway(s, a), PlanOf(s, a), Took(s, a), a, cfg, refused), {}, woken)
  {
    BuildFailsAsleep(s, a, a.lastPrice, woken);
  }

  lemma FinishSends(s: State, a: BuildArgs, cfg: Config, refused: set<nat>, woken: set<Key>)
    requires Inv(s, {}) && s.inflight.None? && Credible(a.second, s) && BookApart(a.resting, PlanOf(s, a).shown)
    requires Asleep(s, {}, woken) && Wakes(Underway(s, a), a.second) <= woken
    requires !a.fate.FailsPricing? && !a.fate.FailsFloors?
    ensures Asleep(Finish(Underway(s, a), PlanOf(s, a), Took(s, a), a, cfg, refused), {}, woken)
  {
    var held := KeySet(Hand(PlanOf(s, a))) - Looked(Underway(s, a), a.second, cfg, refused).took;
    ReadyToAssemble(s, a, cfg, refused);
    SecondedAsleep(s, a, cfg, refused, woken);
    AssembleAsleep(Seconded(s, a, cfg, refused), InBatch(s, a, cfg, refused), Took(s, a), PlanOf(s, a).expired, a, held,
                   woken);
  }

  /** The market a build plans in. */
  ghost predicate PlansAsleep(s: State, a: BuildArgs, woken: set<Key>) {
    && Inv(s, {}) && s.inflight.None? && Credible(a.second, s) && BookApart(a.resting, PlanOf(s, a).shown)
    && Asleep(s, {}, woken) && WakesLater(s, a) <= woken
  }

  lemma FinishAsleep(s: State, a: BuildArgs, cfg: Config, refused: set<nat>, woken: set<Key>)
    requires PlansAsleep(s, a, woken)
    ensures Asleep(Finish(Underway(s, a), PlanOf(s, a), Took(s, a), a, cfg, refused), {}, woken)
  {
    if a.fate.FailsPricing? || a.fate.FailsFloors? {
      FinishFails(s, a, cfg, refused, woken);
    } else {
      FinishSends(s, a, cfg, refused, woken);
    }
  }

  lemma OpensAsleep(s: State, a: BuildArgs, cfg: Config, refused: set<nat>, woken: set<Key>)
    requires Inv(s, {}) && s.inflight.None? && HonestBuild(s, a, cfg, refused) && Asleep(s, {}, woken)
    requires Wakes(s, a.first) + WakesLater(Opening(s, a, cfg, refused), a) <= woken
    ensures PlansAsleep(Opening(s, a, cfg, refused), a, woken)
  {
    OpeningKeeps(s, a, cfg, refused);
    OpeningAsleep(s, a, cfg, refused, woken);
  }

  lemma BuildAsleep(s: State, a: BuildArgs, cfg: Config, refused: set<nat>, woken: set<Key>)
    requires Inv(s, {}) && !Gated(s, a.now) && HonestBuild(s, a, cfg, refused) && Asleep(s, {}, woken)
    requires Wakes(s, a.first) + WakesLater(Opening(s, a, cfg, refused), a) <= woken
    ensures Asleep(Build(s, a, cfg, refused), {}, woken)
  {
    OpensAsleep(s, a, cfg, refused, woken);
    FinishAsleep(Opening(s, a, cfg, refused), a, cfg, refused, woken);
    BuildFrom(s, a, cfg, refused);
  }

  // ---- runs ----

  lemma StepAsleep(s: State, e: Event, cfg: Config, woken: set<Key>)
    requires Inv(s, {}) && Honest(s, e, cfg) && Asleep(s, {}, woken)
    ensures Asleep(Step(s, e, cfg), {}, woken + WokenBy(s, e, cfg))
  {
    var woken' := woken + WokenBy(s, e, cfg);
    More(s, {}, woken, woken');
    match e
    case Arrives(v) => ArriveAsleep(s, {}, v, woken');
    case Sweeps(look, refused) => SweepAsleep(s, look, cfg, refused, woken');
    case Building(a, refused) =>
      if !Gated(s, a.now) {
        BuildAsleep(s, a, cfg, refused, woken');
      }
  }

  lemma {:induction false} RunAsleep(es: seq<Event>, cfg: Config)
    requires HonestRun(es, cfg)
    ensures Asleep(Run(es, cfg), {}, Woken(es, cfg))
  {
    if es == [] {
      assert KeySet([]) == {};
    } else {
      RunAsleep(es[..|es|-1], cfg);
      RunKeeps(es[..|es|-1], cfg);
      StepAsleep(Run(es[..|es|-1], cfg), es[|es|-1], cfg, Woken(es[..|es|-1], cfg));
    }
  }

  /** Only accepted orders end, no order that has ended waits to be re-sealed, and an order that
      has ended is queued or in flight only if, after it ended, a late-landed round that carried it
      reverted. If no such round did, no order that has ended is ever sent again. */
  lemma EndedStaysEnded(es: seq<Event>, cfg: Config, k: Key)
    requires HonestRun(es, cfg) && k in Run(es, cfg).ended
    ensures var s := Run(es, cfg);
            k in s.accepted && k !in KeySet(s.retry) && (k in KeySet(s.pending) || Flies(s, k) ==> k in Woken(es, cfg))
  {
    RunAsleep(es, cfg);
  }
}

/** What holds after every run of a market: any interleaving of orders, re-seals, sweeps and
    builds, over any chain that re-orgs as it likes. */
module LifecycleRuns {
  import opened Sequences
  import opened Orders
  import opened Lifecycle
  import opened LifecycleInvariants
  import opened LifecycleReceipts
  import opened LifecycleSweeps
  import opened LifecycleReleases
  import opened LifecycleQueues
  import opened LifecycleBuilds
  import opened LifecycleSightings
  import opened LifecycleDeadlines

  // ---- what is assumed of the chain, step by step ----

  ghost predicate Honest(s: State, e: Event, cfg: Config) {
    match e
    case Arrives(_) => true
    case Sweeps(look, _) => Credible(look, s)
    case Building(a, refused) => Gated(s, a.now) || HonestBuild(s, a, cfg, refused)
  }

  /** Each look of the run is consistent and keeps what was settled before it. */
  ghost predicate HonestRun(es: seq<Event>, cfg: Config) {
    es != [] ==>
      var before := es[..|es|-1];
      HonestRun(before, cfg) && Honest(Run(before, cfg), es[|es|-1], cfg)
  }

  // ---- every step keeps the invariant ----

  lemma InitKeeps()
    ensures Inv(Init(), {}) && Whole(Init().log)
  {
    assert KeySet([]) == {} && Fin([]) == {};
  }

  lemma StepKeeps(s: State, e: Event, cfg: Config)
    requires Inv(s, {}) && Whole(s.log) && Honest(s, e, cfg)
    ensures Inv(Step(s, e, cfg), {}) && Whole(Step(s, e, cfg).log)
  {
    match e
    case Arrives(v) => ArriveKeeps(s, {}, v);
    case Sweeps(look, refused) => SweepKeeps(s, look, cfg, refused);
    case Building(a, refused) =>
      BuildKeeps(s, a, cfg, refused);
      BuildWhole(s, a, cfg, refused);
  }

  lemma {:induction false} RunKeeps(es: seq<Event>, cfg: Config)
    requires HonestRun(es, cfg)
    ensures Inv(Run(es, cfg), {}) && Whole(Run(es, cfg).log)
  {
    if es == [] {
      InitKeeps();
    } else {
      RunKeeps(es[..|es|-1], cfg);
      StepKeeps(Run(es[..|es|-1], cfg), es[|es|-1], cfg);
    }
  }

  // ---- the theorems ----

  /** Custody: an accepted order that has not ended is queued, in the round in flight (and not
      claimed by another), held by a sighted late-landed round, or waiting to be re-sealed. */
  lemma CustodyHolds(es: seq<Event>, cfg: Config, k: Key)
    requires HonestRun(es, cfg) && k in Run(es, cfg).accepted && k !in Run(es, cfg).ended
    ensures InCustody(k, Run(es, cfg), {})
  {
    RunKeeps(es, cfg);
  }

  /** The order is in the round in flight, and no other round holds it. */
  ghost predicate Flies(s: State, k: Key) {
    s.inflight.Some? && k in s.inflight.value.rid.keys && k !in s.inflight.value.claimed
  }

  lemma HeldNotFlying(f: Record, zs: seq<Record>, j: int, k: Key)
    requires NotedOn(f, zs, {}, {}) && RidsApart(Some(f), zs) && Holds(zs, {}, j)
    requires k in zs[j].rid.keys && k in f.rid.keys
    ensures k in f.claimed
  {
    assert f.rid != zs[j].rid;
  }

  lemma HeldApart(s: State, k: Key)
    requires Inv(s, {}) && k in SightedKeys(s.zombies, -1)
    ensures k !in KeySet(s.pending) && k !in KeySet(s.retry) && !Flies(s, k)
  {
    var j :| 0 <= j < |s.zombies| && s.zombies[j].Sighted() && k in s.zombies[j].rid.keys;
    assert Holds(s.zombies, {}, j);
    assert RecordOk(s.accepted, KeySet(s.retry), s.zombies[j]);
    if Flies(s, k) {
      HeldNotFlying(s.inflight.value, s.zombies, j, k);
    }
  }

  lemma FlyingApart(s: State)
    requires Inv(s, {})
    ensures InflightKeys(s.inflight) !! KeySet(s.pending) && InflightKeys(s.inflight) !! KeySet(s.retry)
  {
  }

  /** No two sighted rounds hold one order. */
  lemma HeldByOne(s: State, i: int, j: int)
    requires Inv(s, {}) && Holds(s.zombies, {}, i) && Holds(s.zombies, {}, j) && i != j
    ensures s.zombies[i].rid.keys !! s.zombies[j].rid.keys
  {
    if s.zombies[i].rid == s.zombies[j].rid {
      assert s.zombies[i].rid.keys == {};
    }
  }

  /** No order is in two places: the queues hold it once, never while it is in flight or while a
      sighted round holds it; no two sighted rounds hold it; and if a sighted round holds an order
      that the round in flight carries too, it is marked there as claimed. */
  lemma CustodyIsSingle(es: seq<Event>, cfg: Config)
    requires HonestRun(es, cfg)
    ensures var s := Run(es, cfg);
            && DistinctKeys(s.pending + s.retry)
            && InflightKeys(s.inflight) !! KeySet(s.pending + s.retry)
            && SightedKeys(s.zombies, -1) !! KeySet(s.pending + s.retry)
            && (forall k | k in SightedKeys(s.zombies, -1) :: !Flies(s, k))
            && (forall i, j | Holds(s.zombies, {}, i) && Holds(s.zombies, {}, j) && i != j ::
                  s.zombies[i].rid.keys !! s.zombies[j].rid.keys)
  {
    var s := Run(es, cfg);
    RunKeeps(es, cfg);
    DistinctKeysConcat(s.pending, s.retry);
    KeySetConcat(s.pending, s.retry);
    FlyingApart(s);
    forall k | k in SightedKeys(s.zombies, -1) ensures k !in KeySet(s.pending + s.retry) && !Flies(s, k) {
      HeldApart(s, k);
    }
    forall i, j | Holds(s.zombies, {}, i) && Holds(s.zombies, {}, j) && i != j
      ensures s.zombies[i].rid.keys !! s.zombies[j].rid.keys
    {
      HeldByOne(s, i, j);
    }
  }

  /** Exactly the one at `i` is true. */
  ghost predicate OnlyAt(ps: seq<bool>, i: nat) { i < |ps| && ps[i] && forall j | 0 <= j < |ps| && j != i :: !ps[j] }

  /** The four places an order can be in. */
  ghost function Whereabouts(s: State, k: Key): seq<bool> {
    [k in KeySet(s.pending), k in KeySet(s.retry), Flies(s, k), k in SightedKeys(s.zombies, -1)]
  }

  lemma OneOfFour(a: bool, b: bool, c: bool, d: bool) returns (i: nat)
    requires (a || b || c || d) && !(a && b) && (c ==> !a && !b) && (d ==> !a && !b && !c)
    ensures OnlyAt([a, b, c, d], i)
  {
    i := if a then 0 else if b then 1 else if c then 2 else 3;
  }

  lemma PlaceOf(s: State, k: Key) returns (i: nat)
    requires Inv(s, {}) && InCustody(k, s, {})
    ensures OnlyAt(Whereabouts(s, k), i)
  {
    QueuesApart(s, k);
    if k in SightedKeys(s.zombies, -1) {
      HeldApart(s, k);
    } else {
      SomewhereElse(s, k);
    }
    i := OneOfFour(k in KeySet(s.pending), k in KeySet(s.retry), Flies(s, k), k in SightedKeys(s.zombies, -1));
  }

  lemma QueuesApart(s: State, k: Key)
    requires Inv(s, {})
    ensures !(k in KeySet(s.pending) && k in KeySet(s.retry))
    ensures Flies(s, k) ==> k !in KeySet(s.pending) && k !in KeySet(s.retry)
  {
    FlyingApart(s);
  }

  lemma SomewhereElse(s: State, k: Key)
    requires InCustody(k, s, {}) && k !in SightedKeys(s.zombies, -1)
    ensures k in KeySet(s.pending) || k in KeySet(s.retry) || Flies(s, k)
  {
  }

  /** Custody is exclusive: an accepted order that has not ended is in exactly one of the queue,
      the retry list, the round in flight and the rounds sighted. */
  lemma CustodyIsExact(es: seq<Event>, cfg: Config, k: Key) returns (i: nat)
    requires HonestRun(es, cfg) && k in Run(es, cfg).accepted && k !in Run(es, cfg).ended
    ensures OnlyAt(Whereabouts(Run(es, cfg), k), i)
  {
    RunKeeps(es, cfg);
    i := PlaceOf(Run(es, cfg), k);
  }

  /** No order incarnation is settled twice, by one round or by two; a round settles for all its
      orders at once; and a settled order is not queued, waiting or held anywhere, nor in flight
      unless it is marked there as claimed. */
  lemma SettledOnce(es: seq<Event>, cfg: Config)
    requires HonestRun(es, cfg)
    ensures var s := Run(es, cfg);
            && (forall i, j | 0 <= i < j < |s.log| :: s.log[i].key != s.log[j].key)
            && (forall rc, k | rc in s.log && k in rc.rid.keys :: Receipted(s.log, rc.rid, k))
            && (forall rc | rc in s.log ::
                  && rc.key in s.accepted && rc.key in s.ended && !Flies(s, rc.key)
                  && rc.key !in KeySet(s.pending) && rc.key !in KeySet(s.retry)
                  && rc.key !in SightedKeys(s.zombies, -1))
  {
    var s := Run(es, cfg);
    RunKeeps(es, cfg);
    forall rc | rc in s.log
      ensures rc.key in s.accepted && rc.key in s.ended && !Flies(s, rc.key)
      ensures rc.key !in KeySet(s.pending) && rc.key !in KeySet(s.retry) && rc.key !in SightedKeys(s.zombies, -1)
    {
      assert rc.key in Fin(s.log);
      forall j | 0 <= j < |s.zombies| && s.zombies[j].Sighted() ensures rc.key !in s.zombies[j].rid.keys {
        assert Holds(s.zombies, {}, j);
      }
    }
  }

  function FilledFor(oid: nat): Receipt -> nat { (rc: Receipt) => if rc.key.oid == oid then rc.filled else 0 }
  function LapsedFor(oid: nat): Receipt -> nat { (rc: Receipt) => if rc.key.oid == oid then rc.left else 0 }

  lemma {:induction false} LoggedSplits(log: seq<Receipt>, x: nat)
    ensures Total(log, LoggedFor(x)) == Total(log, FilledFor(x)) + Total(log, LapsedFor(x))
  {
    if log == [] {
    } else {
      LoggedSplits(log[1..], x);
    }
  }

  /** Sealed quantity is conserved over any number of carries: what an order was placed with is
      what its incarnations traded, plus what lapsed, plus its one unsettled incarnation. */
  lemma SealedConserved(es: seq<Event>, cfg: Config, x: nat)
    requires HonestRun(es, cfg) && x in Run(es, cfg).placed && x in Run(es, cfg).tip && Run(es, cfg).tip[x].commit.Some?
    ensures var s := Run(es, cfg);
            && s.tip[x] in s.accepted
            && s.placed[x] == Total(s.log, FilledFor(x)) + Total(s.log, LapsedFor(x)) +
                                (if s.tip[x] in Fin(s.log) then 0 else s.accepted[s.tip[x]].qty)
            && (forall k | k in s.accepted && k.oid == x && k != s.tip[x] :: k in Fin(s.log))
  {
    var s := Run(es, cfg);
    RunKeeps(es, cfg);
    assert ConservedAt(s, x);
    LoggedSplits(s.log, x);
  }

  // ---- two sightings ----

  lemma OpeningWatches(s: State, a: BuildArgs, cfg: Config, refused: set<nat>)
    requires TwiceSighted(s, cfg) && s.inflight.None?
    ensures TwiceSighted(Opening(s, a, cfg, refused), cfg) && Opening(s, a, cfg, refused).inflight.None?
  {
    LookedWatches(s.(gate := None), a.first, cfg, refused);
    LookedNone(s.(gate := None), a.first, cfg, refused);
    ArriveAllRounds(Looked(s.(gate := None), a.first, cfg, refused).s, a.early);
  }

  lemma SecondedWatches(s: State, a: BuildArgs, cfg: Config, refused: set<nat>)
    requires TwiceSighted(s, cfg) && s.inflight.None?
    ensures TwiceSighted(Underway(s, a), cfg) && Underway(s, a).inflight.None?
    ensures TwiceSighted(Seconded(s, a, cfg, refused), cfg) && Seconded(s, a, cfg, refused).inflight.None?
  {
    ArriveAllRounds(TakeBatch(s, a), a.middle);
    LookedWatches(Underway(s, a), a.second, cfg, refused);
    LookedNone(Underway(s, a), a.second, cfg, refused);
    ArriveAllRounds(Looked(Underway(s, a), a.second, cfg, refused).s, a.late);
  }

  lemma BuildWatches(s: State, a: BuildArgs, cfg: Config, refused: set<nat>)
    requires TwiceSighted(s, cfg)
    ensures TwiceSighted(Build(s, a, cfg, refused), cfg)
  {
    if !Gated(s, a.now) {
      OpeningWatches(s, a, cfg, refused);
      SecondedWatches(Opening(s, a, cfg, refused), a, cfg, refused);
      BuildRecords(s, a, cfg, refused);
      var v := LastLook(s, a, cfg, refused);
      WatchedSubset(v.zombies, Build(s, a, cfg, refused).zombies, v.looks);
    }
  }

  lemma LookedNone(s: State, look: Look, cfg: Config, refused: set<nat>)
    requires s.inflight.None?
    ensures Looked(s, look, cfg, refused).s.inflight.None?
  {
    VisitsNone(s, look, cfg, refused);
  }

  lemma StepWatches(s: State, e: Event, cfg: Config)
    requires TwiceSighted(s, cfg)
    ensures TwiceSighted(Step(s, e, cfg), cfg)
  {
    match e
    case Arrives(v) => ArriveRounds(s, v);
    case Sweeps(look, refused) => SweepWatches(s, look, cfg, refused);
    case Building(a, refused) => BuildWatches(s, a, cfg, refused);
  }

  lemma {:induction false} RunWatches(es: seq<Event>, cfg: Config)
    ensures TwiceSighted(Run(es, cfg), cfg)
  {
    if es == [] {
    } else {
      RunWatches(es[..|es|-1], cfg);
      StepWatches(Run(es[..|es|-1], cfg), es[|es|-1], cfg);
    }
  }

  /** On any chain whatever, a round is settled only after two readings of it as landed, with
      none to the contrary between them, the second of them durable. */
  lemma SettledAfterTwoSightings(es: seq<Event>, cfg: Config, rc: Receipt)
    requires rc in Run(es, cfg).log
    ensures Proved(rc, Run(es, cfg).looks, cfg)
  {
    RunWatches(es, cfg);
  }

  // ---- releases ----

  lemma StepFair(s: State, e: Event, cfg: Config)
    requires Fair(s, cfg)
    ensures Fair(Step(s, e, cfg), cfg)
  {
    match e
    case Arrives(v) => ArriveRounds(s, v);
    case Sweeps(look, refused) => SweepFair(s, look, cfg, refused);
    case Building(a, refused) => BuildFair(s, a, cfg, refused);
  }

  lemma {:induction false} RunFair(es: seq<Event>, cfg: Config)
    ensures Fair(Run(es, cfg), cfg)
  {
    if es == [] {
    } else {
      RunFair(es[..|es|-1], cfg);
      StepFair(Run(es[..|es|-1], cfg), es[|es|-1], cfg);
    }
  }

  /** On any chain whatever, a round still watched after its release was released in a look that
      had found it dead, and not landed, all through the confirmation period; or, if that look
      did not find it dead, overdue. */
  lemma ReleasedOnlyWhenDue(es: seq<Event>, cfg: Config, z: Record)
    requires z in Run(es, cfg).zombies
    ensures ReleasedFairly(z, Run(es, cfg).looks, cfg)
  {
    RunFair(es, cfg);
  }
}

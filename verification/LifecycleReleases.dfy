/** Rounds leaving the list of released rounds, and rounds joining it. */
module LifecycleReleases {
  import opened Sequences
  import opened Orders
  import opened Lifecycle
  import opened LifecycleInvariants
  import opened LifecycleReceipts
  import opened LifecycleSettling
  import opened LifecycleClaims
  import opened LifecycleSweeps

  // ---- closing the gaps dropped records leave ----

  function Places(gone: set<nat>, n: nat): seq<nat> {
    if n == 0 then [] else Places(gone, n - 1) + (if n - 1 in gone then [] else [n - 1])
  }

  /** `zs'` is the records of `zs` at the positions `idx`, in order, and these are the live ones. */
  ghost predicate Picks(zs: seq<Record>, gone: set<nat>, n: nat, zs': seq<Record>, idx: seq<nat>) {
    && n <= |zs| && |idx| == |zs'|
    && (forall a | 0 <= a < |idx| :: idx[a] < n && idx[a] !in gone && zs'[a] == zs[idx[a]])
    && (forall a, b | 0 <= a < b < |idx| :: idx[a] < idx[b])
    && (forall j: nat | j < n && j !in gone :: j in idx)
  }

  lemma PicksSkip(zs: seq<Record>, gone: set<nat>, n: nat, zs': seq<Record>, idx: seq<nat>)
    requires n < |zs| && n in gone && Picks(zs, gone, n, zs', idx)
    ensures Picks(zs, gone, n + 1, zs', idx)
  {
  }

  lemma PicksNext(zs: seq<Record>, gone: set<nat>, n: nat, zs': seq<Record>, idx: seq<nat>)
    requires n < |zs| && n !in gone && Picks(zs, gone, n, zs', idx)
    ensures Picks(zs, gone, n + 1, zs' + [zs[n]], idx + [n])
  {
    forall j: nat | j < n + 1 && j !in gone ensures j in idx + [n] {
      assert j == n || j in idx;
    }
  }

  lemma {:induction false} SurvivorsPick(zs: seq<Record>, gone: set<nat>, n: nat)
    requires n <= |zs|
    ensures Picks(zs, gone, n, Survivors(zs, gone, n), Places(gone, n))
  {
    if n == 0 {
    } else {
      var kept, idx := Survivors(zs, gone, n - 1), Places(gone, n - 1);
      SurvivorsPick(zs, gone, n - 1);
      if n - 1 in gone {
        PicksSkip(zs, gone, n - 1, kept, idx);
        assert kept + [] == kept && idx + [] == idx;
      } else {
        PicksNext(zs, gone, n - 1, kept, idx);
      }
    }
  }

  lemma PickLive(zs: seq<Record>, gone: set<nat>, zs': seq<Record>, idx: seq<nat>)
    requires Picks(zs, gone, |zs|, zs', idx)
    ensures forall a | 0 <= a < |zs'| :: Live(zs, gone, idx[a]) && zs'[a] == zs[idx[a]]
    ensures forall a | Holds(zs', {}, a) :: Holds(zs, gone, idx[a])
    ensures forall j | Holds(zs, gone, j) :: exists a :: Holds(zs', {}, a) && idx[a] == j
  {
    forall j | Holds(zs, gone, j) ensures exists a :: Holds(zs', {}, a) && idx[a] == j {
      var a :| 0 <= a < |idx| && idx[a] == j;
      assert Holds(zs', {}, a);
    }
  }

  lemma PickHolder(zs: seq<Record>, gone: set<nat>, zs': seq<Record>, idx: seq<nat>, r: RoundId, k: Key)
    requires Picks(zs, gone, |zs|, zs', idx) && Holder(zs, gone, r, k)
    ensures Holder(zs', {}, r, k)
  {
    PickLive(zs, gone, zs', idx);
    var j :| Holds(zs, gone, j) && zs[j].rid == r;
    var a :| Holds(zs', {}, a) && idx[a] == j;
  }

  lemma PickBacked(f: Option<Record>, zs: seq<Record>, gone: set<nat>, fin: set<Key>, zs': seq<Record>, idx: seq<nat>)
    requires Picks(zs, gone, |zs|, zs', idx) && Backed(f, zs, gone, fin)
    ensures Backed(f, zs', {}, fin)
  {
    PickLive(zs, gone, zs', idx);
    forall r | BackedOn(r, zs, gone, fin) ensures BackedOn(r, zs', {}, fin) {
      forall k | k in r.claimed && k !in fin ensures Holder(zs', {}, r.claimed[k], k) {
        PickHolder(zs, gone, zs', idx, r.claimed[k], k);
      }
    }
  }

  lemma PickNoted(f: Option<Record>, zs: seq<Record>, gone: set<nat>, stale: set<RoundId>, zs': seq<Record>,
                  idx: seq<nat>)
    requires Picks(zs, gone, |zs|, zs', idx) && Noted(f, zs, gone, stale)
    ensures Noted(f, zs', {}, stale)
  {
    PickLive(zs, gone, zs', idx);
    forall r | NotedOn(r, zs, gone, stale) ensures NotedOn(r, zs', {}, stale) {}
  }

  lemma PickRounds(s: State, c: Ctx, zs': seq<Record>, idx: seq<nat>)
    requires Rounds(s, c) && Picks(s.zombies, c.gone, |s.zombies|, zs', idx)
    ensures Rounds(s.(zombies := zs'), c.(gone := {}))
  {
    PickLive(s.zombies, c.gone, zs', idx);
    PickBacked(s.inflight, s.zombies, c.gone, c.fin, zs', idx);
    PickNoted(s.inflight, s.zombies, c.gone, c.stale, zs', idx);
    assert RecordsOk(s.accepted, KeySet(s.retry), s.inflight, zs', {});
    assert HeldOnce(zs', {}, c.prior, c.stale);
  }

  lemma PickCustody(s: State, gone: set<nat>, zs': seq<Record>, idx: seq<nat>, k: Key)
    requires Picks(s.zombies, gone, |s.zombies|, zs', idx) && InCustody(k, s, gone)
    ensures InCustody(k, s.(zombies := zs'), {})
  {
    PickLive(s.zombies, gone, zs', idx);
    if j :| Holds(s.zombies, gone, j) && k in s.zombies[j].rid.keys {
      var a :| Holds(zs', {}, a) && idx[a] == j;
    }
  }

  lemma PickKeeps(s: State, c: Ctx, zs': seq<Record>, idx: seq<nat>)
    requires Core(s, c) && Picks(s.zombies, c.gone, |s.zombies|, zs', idx)
    ensures Core(s.(zombies := zs'), c.(gone := {}))
  {
    var s' := s.(zombies := zs');
    PickRounds(s, c, zs', idx);
    assert Logged(s', c.fin, {}) by { PickLive(s.zombies, c.gone, zs', idx); }
    SameBooks(s, s');
    forall k | InCustody(k, s, c.gone) ensures InCustody(k, s', {}) {
      PickCustody(s, c.gone, zs', idx, k);
    }
  }

  /** Closing the gaps keeps everything said of the records that remain. */
  lemma SurvivorsKeep(s: State, c: Ctx)
    requires Core(s, c)
    ensures Core(s.(zombies := Survivors(s.zombies, c.gone, |s.zombies|)), c.(gone := {}))
  {
    SurvivorsPick(s.zombies, c.gone, |s.zombies|);
    PickKeeps(s, c, Survivors(s.zombies, c.gone, |s.zombies|), Places(c.gone, |s.zombies|));
  }

  // ---- the end of a sweep over the released rounds ----

  /** Every sighted round reads as landed; those sighted only now hold exactly what was taken. */
  ghost predicate Current(zs: seq<Record>, prior: set<RoundId>, landed: set<RoundId>, took: set<Key>) {
    && (forall j | Holds(zs, {}, j) :: zs[j].rid in landed && (zs[j].rid in prior || zs[j].rid.keys <= took))
    && (forall k | k in took :: exists j :: Holds(zs, {}, j) && k in zs[j].rid.keys)
  }

  lemma RebaseNoted(f: Option<Record>, zs: seq<Record>, stale: set<RoundId>, landed: set<RoundId>)
    requires Noted(f, zs, {}, stale) && stale !! landed && forall j | Holds(zs, {}, j) :: zs[j].rid in landed
    ensures Noted(f, zs, {}, {})
  {
    forall r | NotedOn(r, zs, {}, stale) ensures NotedOn(r, zs, {}, {}) {}
  }

  lemma RebaseHeldOnce(zs: seq<Record>, prior: set<RoundId>, landed: set<RoundId>)
    requires Consistent(landed) && forall j | Holds(zs, {}, j) :: zs[j].rid in landed
    ensures HeldOnce(zs, {}, prior, {})
  {
  }

  lemma RebaseInHand(s: State, held: set<Key>, fin: set<Key>, prior: set<RoundId>, landed: set<RoundId>, took: set<Key>)
    requires InHand(held, s, fin, {}, prior) && Current(s.zombies, prior, landed, took)
    ensures InHand(held - took, s, fin, {}, SightedRids(s.zombies))
  {
  }

  lemma RebaseRounds(s: State, c: Ctx, landed: set<RoundId>, took: set<Key>)
    requires Rounds(s, c) && c.gone == {} && c.stale !! landed && Consistent(landed)
             && Current(s.zombies, c.prior, landed, took)
    ensures Rounds(s, Ctx({}, c.held - took, c.fin, SightedRids(s.zombies), {}))
  {
    RebaseNoted(s.inflight, s.zombies, c.stale, landed);
    RebaseHeldOnce(s.zombies, SightedRids(s.zombies), landed);
    RebaseInHand(s, c.held, c.fin, c.prior, landed, took);
  }

  /** What the sweep took out of a build's hands is in the custody of the rounds that took it. */
  lemma Rebase(s: State, c: Ctx, landed: set<RoundId>, took: set<Key>)
    requires Core(s, c) && c.gone == {} && c.fin == Fin(s.log)
    requires c.stale !! landed && Consistent(landed) && Current(s.zombies, c.prior, landed, took)
    ensures Inv(s, c.held - took)
  {
    RebaseRounds(s, c, landed, took);
    forall k | k in took ensures InCustody(k, s, {}) {}
  }

  lemma SurvivorsCurrent(zs: seq<Record>, w: Sweeping, prior: set<RoundId>, landed: set<RoundId>)
    requires Swept(w, |w.s.zombies|, prior, landed)
    ensures Current(Survivors(w.s.zombies, w.gone, |w.s.zombies|), prior, landed, w.took)
  {
    var zs', idx := Survivors(w.s.zombies, w.gone, |w.s.zombies|), Places(w.gone, |w.s.zombies|);
    SurvivorsPick(w.s.zombies, w.gone, |w.s.zombies|);
    PickLive(w.s.zombies, w.gone, zs', idx);
    forall k | k in w.took ensures exists a :: Holds(zs', {}, a) && k in zs'[a].rid.keys {
      var j :| 0 <= j < |w.s.zombies| && Holds(w.s.zombies, w.gone, j) && k in w.s.zombies[j].rid.keys;
      var a :| Holds(zs', {}, a) && idx[a] == j;
    }
  }

  /** Nothing accepted is forgotten, no round enters the slot in flight, and rounds settle whole. */
  ghost predicate Grows(s: State, s': State) {
    && Extends(s.accepted, s'.accepted) && (s.inflight.None? ==> s'.inflight.None?)
    && (Whole(s.log) ==> Whole(s'.log))
  }

  lemma SettleGrows(s: State, zs: seq<Record>, w: Sweeping, n: nat, look: Look, held: set<Key>, refused: set<nat>)
    requires Midway(zs, w, n, look, held) && n < |zs| && Grows(s, w.s)
    requires w.s.zombies[n].Sighted() && w.s.zombies[n].rid in look.landed
    ensures Grows(s, Finalize(w.s, w.s.zombies[n], look.time, refused))
  {
    UnvisitedPrior(zs, w, n, n);
    ZombieFinalizes(w.s, Midpoint(zs, w, look, held), n, look.time, refused);
    FinalizeLog(w.s, w.s.zombies[n], look.time, refused);
    if Whole(w.s.log) {
      SettledWhole(w.s.log, Finalize(w.s, w.s.zombies[n], look.time, refused).log, w.s.zombies[n].rid);
    }
  }

  lemma GrowsForms(s: State, w: Sweeping, n: nat, look: Look, cfg: Config, refused: set<nat>,
                   inv: (Sweeping, nat) -> bool)
    requires n < |w.s.zombies| && Grows(s, w.s) && inv == ((x: Sweeping, m: nat) => Grows(s, x.s))
    requires var z := w.s.zombies[n];
             z.Sighted() && z.rid in look.landed ==> Grows(s, Finalize(w.s, z, look.time, refused))
    ensures inv(Visiting(look, cfg, refused)(w, n), n + 1)
  {
    VisitForms(w, n, look, cfg, refused, inv);
  }

  lemma VisitsGrow(s: State, held: set<Key>, look: Look, cfg: Config, refused: set<nat>)
    requires Inv(s, held) && Credible(look, s)
    ensures Grows(s, VisitUpTo(s, |s.zombies|, look, cfg, refused).s)
  {
    MidwayStarts(s, held, look);
    var start, step := Sweeping(s.(looks := s.looks + [look]), {}, {}), Visiting(look, cfg, refused);
    var mid := (w: Sweeping, n: nat) => Midway(s.zombies, w, n, look, held);
    var grow := (w: Sweeping, n: nat) => Grows(s, w.s);
    var inv := (w: Sweeping, n: nat) => mid(w, n) && grow(w, n);
    forall w, i: nat | inv(w, i) && i < |s.zombies| ensures inv(step(w, i), i + 1) {
      MidwayForms(s.zombies, w, i, look, cfg, held, refused, mid);
      if w.s.zombies[i].Sighted() && w.s.zombies[i].rid in look.landed {
        SettleGrows(s, s.zombies, w, i, look, held, refused);
      }
      GrowsForms(s, w, i, look, cfg, refused, grow);
    }
    IterateInduction(step, start, |s.zombies|, inv);
  }

  /** A whole sweep over the released rounds, with `held` in a build's hands. */
  lemma ResolveZombiesKeeps(s: State, held: set<Key>, look: Look, cfg: Config, refused: set<nat>)
    requires Inv(s, held) && Credible(look, s)
    ensures var v := ResolveZombies(s, look, cfg, refused);
            && Inv(v.s, held - v.took) && Believable(look, v.s.log) && Grows(s, v.s)
            && v.took <= SightedKeys(v.s.zombies, -1)
            && forall j | Holds(v.s.zombies, {}, j) :: v.s.zombies[j].rid in look.landed
  {
    var w := VisitUpTo(s, |s.zombies|, look, cfg, refused);
    MidwayUpTo(s, held, look, cfg, refused, |s.zombies|);
    VisitsGrow(s, held, look, cfg, refused);
    ResolvedAt(s.zombies, w, look, held);
  }

  lemma ResolvedAt(zs: seq<Record>, w: Sweeping, look: Look, held: set<Key>)
    requires Midway(zs, w, |zs|, look, held)
    ensures var s' := w.s.(zombies := Survivors(w.s.zombies, w.gone, |w.s.zombies|));
            && Inv(s', held - w.took) && Believable(look, s'.log)
            && w.took <= SightedKeys(s'.zombies, -1)
            && forall j | Holds(s'.zombies, {}, j) :: s'.zombies[j].rid in look.landed
  {
    var c := Midpoint(zs, w, look, held);
    var zs' := Survivors(w.s.zombies, w.gone, |w.s.zombies|);
    SurvivorsKeep(w.s, c);
    SurvivorsCurrent(zs, w, SightedRids(zs), look.landed);
    Rebase(w.s.(zombies := zs'), c.(gone := {}), look.landed, w.took);
    CurrentTook(zs', SightedRids(zs), look.landed, w.took);
  }

  lemma CurrentTook(zs: seq<Record>, prior: set<RoundId>, landed: set<RoundId>, took: set<Key>)
    requires Current(zs, prior, landed, took)
    ensures took <= SightedKeys(zs, -1)
  {
    forall k | k in took ensures k in SightedKeys(zs, -1) {
      var j :| Holds(zs, {}, j) && k in zs[j].rid.keys;
    }
  }

  // ---- releasing a round ----

  lemma FilterSurvives(zs: seq<Record>, p: Record -> bool, n: nat)
    requires n <= |zs|
    ensures Filter(zs[..n], p) == Survivors(zs, Dropped(zs, p), n)
  {
    if n == 0 {
    } else {
      FilterSurvives(zs, p, n - 1);
      assert zs[..n] == zs[..n-1] + [zs[n-1]];
      FilterConcat(zs[..n-1], [zs[n-1]], p);
    }
  }

  function Dropped(zs: seq<Record>, p: Record -> bool): set<nat> { set j: nat | j < |zs| && !p(zs[j]) }

  /** Forgetting unsighted records that fail `p`. */
  lemma FilterZombiesKeeps(s: State, c: Ctx, p: Record -> bool)
    requires Core(s, c) && c.gone == {} && forall z | z in s.zombies && z.Sighted() :: p(z)
    ensures Core(s.(zombies := Filter(s.zombies, p)), c)
  {
    var drop := Dropped(s.zombies, p);
    ForgetKeeps(s, c, drop);
    assert c.gone + drop == drop;
    SurvivorsKeep(s, c.(gone := drop));
    FilterSurvives(s.zombies, p, |s.zombies|);
    assert s.zombies[..|s.zombies|] == s.zombies;
    assert c.(gone := {}) == c;
  }

  lemma {:induction false} SurvivorsBut(zs: seq<Record>, i: nat, n: nat)
    requires i < |zs| && n <= |zs|
    ensures Survivors(zs, {i}, n) == if n <= i then zs[..n] else zs[..i] + zs[i+1..n]
  {
    if n == 0 {
    } else {
      SurvivorsBut(zs, i, n - 1);
    }
  }

  lemma ForgetOne(s: State, c: Ctx, i: nat)
    requires Core(s, c) && c.gone == {} && i < |s.zombies| && !s.zombies[i].Sighted()
    ensures Core(s.(zombies := s.zombies[..i] + s.zombies[i+1..]), c)
  {
    ForgetKeeps(s, c, {i});
    assert c.gone + {i} == {i};
    SurvivorsKeep(s, c.(gone := {i}));
    SurvivorsBut(s.zombies, i, |s.zombies|);
    assert s.zombies[i+1..|s.zombies|] == s.zombies[i+1..];
    assert c.(gone := {}) == c;
  }

  lemma {:induction false} TrimInduction(s: State, zs: seq<Record>, inv: State -> bool)
    requires inv(s.(zombies := zs))
    requires forall x, i: nat | inv(x) && i < |x.zombies| && !x.zombies[i].Sighted() ::
               inv(x.(zombies := x.zombies[..i] + x.zombies[i+1..]))
    ensures inv(s.(zombies := Trim(zs)))
    decreases |zs|
  {
    var i := FirstUnsighted(zs);
    if |zs| > ZOMBIE_CAP && i < |zs| {
      assert inv(s.(zombies := zs).(zombies := zs[..i] + zs[i+1..]));
      TrimInduction(s, zs[..i] + zs[i+1..], inv);
    }
  }

  lemma TrimKeeps(s: State, c: Ctx)
    requires Core(s, c) && c.gone == {}
    ensures Core(s.(zombies := Trim(s.zombies)), c)
  {
    var inv := (x: State) => Core(x, c);
    forall x, i: nat | inv(x) && i < |x.zombies| && !x.zombies[i].Sighted()
      ensures inv(x.(zombies := x.zombies[..i] + x.zombies[i+1..]))
    {
      ForgetOne(x, c, i);
    }
    assert s.(zombies := s.zombies) == s;
    TrimInduction(s, s.zombies, inv);
  }

  function SightedOnes(): Record -> bool { (z: Record) => z.Sighted() }
  function UnsightedOnes(): Record -> bool { (z: Record) => !z.Sighted() }

  /** How many records the cap makes the list forget. */
  function Excess(zs: seq<Record>): nat {
    if |zs| <= ZOMBIE_CAP then 0 else Min(|zs| - ZOMBIE_CAP, |Filter(zs, UnsightedOnes())|)
  }

  lemma WithoutFirst(zs: seq<Record>)
    requires FirstUnsighted(zs) < |zs|
    ensures var i := FirstUnsighted(zs);
            var zs' := zs[..i] + zs[i+1..];
            && Filter(zs', SightedOnes()) == Filter(zs, SightedOnes())
            && Filter(zs, UnsightedOnes()) != [] && Filter(zs', UnsightedOnes()) == Filter(zs, UnsightedOnes())[1..]
  {
    var i := FirstUnsighted(zs);
    var front, back := zs[..i], zs[i+1..];
    assert zs == front + ([zs[i]] + back);
    FilterNone(front, UnsightedOnes());
    FilterConcat(front, [zs[i]] + back, UnsightedOnes());
    FilterConcat(front, back, UnsightedOnes());
    FilterConcat(front, [zs[i]] + back, SightedOnes());
    FilterConcat(front, back, SightedOnes());
    assert ([zs[i]] + back)[1..] == back;
  }

  /** Trimming forgets the oldest unsighted records, no more than the cap demands, and never a
      sighted one. */
  lemma {:induction false} TrimForgetsOldest(zs: seq<Record>)
    ensures |Trim(zs)| == |zs| - Excess(zs)
    ensures Filter(Trim(zs), SightedOnes()) == Filter(zs, SightedOnes())
    ensures Filter(Trim(zs), UnsightedOnes()) == Filter(zs, UnsightedOnes())[Excess(zs)..]
    decreases |zs|
  {
    var i := FirstUnsighted(zs);
    if |zs| > ZOMBIE_CAP && i < |zs| {
      WithoutFirst(zs);
      TrimForgetsOldest(zs[..i] + zs[i+1..]);
    } else if |zs| > ZOMBIE_CAP {
      FilterNone(zs, UnsightedOnes());
    }
  }

  /** The same round, whatever its timers say. */
  ghost predicate Touches(r: Record, r': Record) { SameRound(r, r') && r'.claimed == r.claimed }

  lemma TouchRounds(s: State, c: Ctx, fr: Record)
    requires Rounds(s, c) && s.inflight.Some? && Touches(s.inflight.value, fr)
    ensures Rounds(s.(inflight := Some(fr)), c)
  {
    assert fr.Orders() == s.inflight.value.Orders();
    assert RecordOk(s.accepted, KeySet(s.retry), fr) && NotedOn(fr, s.zombies, c.gone, c.stale);
  }

  lemma TouchKeeps(s: State, c: Ctx, fr: Record)
    requires Core(s, c) && s.inflight.Some? && Touches(s.inflight.value, fr)
    ensures Core(s.(inflight := Some(fr)), c)
  {
    var s' := s.(inflight := Some(fr));
    TouchRounds(s, c, fr);
    SameBooks(s, s');
    forall k | InCustody(k, s, c.gone) ensures InCustody(k, s', c.gone) {}
  }

  /** The state once round `fr`, in flight, is released unsighted and its orders requeued. */
  ghost predicate Releases(s: State, s': State, fr: Record) {
    && s.inflight.Some? && Touches(s.inflight.value, fr) && !fr.Sighted()
    && s' == s.(inflight := None, zombies := s.zombies + [fr], gate := s'.gate,
                pending := Filter(fr.Orders(), FreeOf(fr.claimed.Keys)) + s.pending)
  }

  ghost predicate Idle(c: Ctx) { c.gone == {} && c.held == {} && c.stale == {} }

  lemma ReleaseQueues(s: State, s': State, c: Ctx, fr: Record)
    requires Queues(s, c.fin) && Rounds(s, c) && Releases(s, s', fr)
    ensures Queues(s', c.fin) && KeySet(s'.pending) == (fr.rid.keys - fr.claimed.Keys) + KeySet(s.pending)
  {
    var back := Filter(fr.Orders(), FreeOf(fr.claimed.Keys));
    assert RecordOk(s.accepted, KeySet(s.retry), s.inflight.value) && fr.Orders() == s.inflight.value.Orders();
    FilterKeys(fr.Orders(), fr.claimed.Keys);
    FilterKnown(s.accepted, fr.Orders(), FreeOf(fr.claimed.Keys));
    DistinctKeysConcat(back, s.pending);
    KeySetConcat(back, s.pending);
    assert forall x :: x in back + s.pending <==> x in back || x in s.pending;
  }

  lemma AppendedLive(zs: seq<Record>, fr: Record)
    requires !fr.Sighted()
    ensures forall j :: Live(zs + [fr], {}, j) <==> Live(zs, {}, j) || j == |zs|
    ensures forall j :: Holds(zs + [fr], {}, j) <==> Holds(zs, {}, j)
    ensures forall j | Live(zs, {}, j) :: (zs + [fr])[j] == zs[j]
    ensures (zs + [fr])[|zs|] == fr
  {
  }

  lemma ReleaseNoted(fr: Record, zs: seq<Record>)
    requires Noted(Some(fr), zs, {}, {}) && !fr.Sighted()
    ensures Noted(None, zs + [fr], {}, {})
  {
    AppendedLive(zs, fr);
    forall r | NotedOn(r, zs, {}, {}) ensures NotedOn(r, zs + [fr], {}, {}) {}
  }

  lemma ReleaseBacked(fr: Record, zs: seq<Record>, fin: set<Key>)
    requires Backed(Some(fr), zs, {}, fin) && !fr.Sighted()
    ensures Backed(None, zs + [fr], {}, fin)
  {
    AppendedLive(zs, fr);
    assert forall r, k | Holder(zs, {}, r, k) :: Holder(zs + [fr], {}, r, k);
    forall r | BackedOn(r, zs, {}, fin) ensures BackedOn(r, zs + [fr], {}, fin) {}
  }

  lemma ReleaseApart(fr: Record, zs: seq<Record>, pending: set<Key>)
    requires Apart(pending, Some(fr), zs, {}) && NotedOn(fr, zs, {}, {}) && !fr.Sighted() && RidsApart(Some(fr), zs)
    ensures Apart((fr.rid.keys - fr.claimed.Keys) + pending, None, zs + [fr], {})
    ensures RidsApart(None, zs + [fr])
  {
    AppendedLive(zs, fr);
  }

  lemma ReleaseHeldOnce(fr: Record, zs: seq<Record>, prior: set<RoundId>)
    requires HeldOnce(zs, {}, prior, {}) && !fr.Sighted()
    ensures HeldOnce(zs + [fr], {}, prior, {})
  {
    AppendedLive(zs, fr);
  }

  lemma ReleaseRounds(s: State, s': State, c: Ctx, fr: Record)
    requires Rounds(s, c) && Idle(c) && Releases(s, s', fr)
    requires KeySet(s'.pending) == (fr.rid.keys - fr.claimed.Keys) + KeySet(s.pending)
    ensures Rounds(s', c)
  {
    TouchRounds(s, c, fr);
    ReleaseNoted(fr, s.zombies);
    ReleaseBacked(fr, s.zombies, c.fin);
    ReleaseApart(fr, s.zombies, KeySet(s.pending));
    ReleaseHeldOnce(fr, s.zombies, c.prior);
    AppendedLive(s.zombies, fr);
    assert RecordsOk(s.accepted, KeySet(s.retry), None, s'.zombies, {});
  }

  lemma ReleaseKeeps(s: State, s': State, c: Ctx, fr: Record)
    requires Core(s, c) && Idle(c) && Releases(s, s', fr)
    ensures Core(s', c)
  {
    ReleaseQueues(s, s', c, fr);
    ReleaseRounds(s, s', c, fr);
    SameBooks(s, s');
    AppendedLive(s.zombies, fr);
    assert Logged(s', c.fin, {});
    forall k | InCustody(k, s, c.gone) ensures InCustody(k, s', c.gone) {
      if j :| Holds(s.zombies, {}, j) && k in s.zombies[j].rid.keys {
        assert Holds(s'.zombies, {}, j);
      }
    }
  }

  lemma Reprior(s: State, c: Ctx, prior: set<RoundId>)
    requires Core(s, c) && Idle(c)
    ensures Core(s, c.(prior := prior))
  {
    assert HeldOnce(s.zombies, {}, prior, {});
  }

  /** Releasing the round in flight keeps the invariant; every order it still owns is queued again. */
  lemma AbandonKeeps(s: State, fr: Record, now: int, timeout: bool)
    requires Inv(s, {}) && s.inflight.Some? && Touches(s.inflight.value, fr)
    ensures Inv(Abandon(s.(inflight := None), fr, now, timeout), {})
    ensures Abandon(s.(inflight := None), fr, now, timeout).log == s.log
  {
    var c := Ctx({}, {}, Fin(s.log), SightedRids(s.zombies), {});
    var out := fr.(okSince := None, releasedAt := now);
    var s1 := s.(inflight := None, zombies := s.zombies + [out], gate := if timeout then Some(now) else s.gate,
                 pending := Filter(out.Orders(), FreeOf(out.claimed.Keys)) + s.pending);
    ReleaseKeeps(s, s1, c, out);
    TrimKeeps(s1, c);
    var s2 := s1.(zombies := Trim(s1.zombies));
    Reprior(s2, c, SightedRids(s2.zombies));
    assert out.Orders() == fr.Orders();
    assert s2 == Abandon(s.(inflight := None), fr, now, timeout);
  }

  // ---- the round in flight ----

  lemma InvTouch(s: State, fr: Record)
    requires Inv(s, {}) && s.inflight.Some? && Touches(s.inflight.value, fr)
    ensures Inv(s.(inflight := Some(fr)), {})
  {
    TouchKeeps(s, Ctx({}, {}, Fin(s.log), SightedRids(s.zombies), {}), fr);
  }

  lemma InvLands(s: State, landed: set<RoundId>, rec: Record, now: int, refused: set<nat>)
    requires Inv(s, {}) && s.inflight.Some? && rec == s.inflight.value.(deadSince := None)
    requires Landing(s, Ctx({}, {}, Fin(s.log), SightedRids(s.zombies), {}), landed)
    ensures Inv(Finalize(s.(inflight := None), rec, now, refused), {})
    ensures Whole(s.log) ==> Whole(Finalize(s.(inflight := None), rec, now, refused).log)
  {
    var c := Ctx({}, {}, Fin(s.log), SightedRids(s.zombies), {});
    InflightFinalizes(s, c, landed, rec, now, refused);
    LandingUnclaimed(s, c, landed);
    FinalizeLog(s.(inflight := None), rec, now, refused);
    if Whole(s.log) {
      SettledWhole(s.log, Finalize(s.(inflight := None), rec, now, refused).log, rec.rid);
    }
  }

  /** The round in flight, read again. */
  function Reread(s: State, ok: Option<int>, dead: Option<int>): State
    requires s.inflight.Some?
  {
    s.(inflight := Some(s.inflight.value.(okSince := ok, deadSince := dead)))
  }

  /** The ways a look at the round in flight can go. */
  lemma FlightForms(s: State, look: Look, cfg: Config, refused: set<nat>, inv: State -> bool)
    requires s.inflight.Some? && inv(s) && forall ok, dead :: inv(Reread(s, ok, dead))
    requires var fr, s0 := s.inflight.value, s.(inflight := None);
             && (forall since :: inv(Abandon(s0, fr.(deadSince := Some(since)), look.time, false)))
             && inv(Abandon(s0, fr.(deadSince := None), look.time, true))
             && (look.Reads(fr.rid) && !InflightRival(s, fr, look) ==>
                   inv(Finalize(s0, fr.(deadSince := None), look.time, refused)))
    ensures inv(ResolveInflight(s, look, cfg, refused))
  {
    var fr, now := s.inflight.value, look.time;
    var since := if fr.deadSince.Some? then fr.deadSince.value else now;
    assert inv(Reread(s, Some(now), None)) && inv(Reread(s, fr.okSince, None));
    assert inv(Reread(s, None, fr.deadSince)) && inv(Reread(s, fr.okSince, Some(since)));
    assert inv(Abandon(s.(inflight := None), fr.(deadSince := Some(since)), now, false));
  }

  /** What a look at the round in flight keeps. */
  ghost predicate KeptFrom(s: State, x: State) { Inv(x, {}) && (Whole(s.log) ==> Whole(x.log)) }

  lemma LetsGoKeeps(s: State, now: int)
    requires Inv(s, {}) && s.inflight.Some?
    ensures var fr, s0 := s.inflight.value, s.(inflight := None);
            && (forall since :: KeptFrom(s, Abandon(s0, fr.(deadSince := Some(since)), now, false)))
            && KeptFrom(s, Abandon(s0, fr.(deadSince := None), now, true))
  {
    var fr, s0 := s.inflight.value, s.(inflight := None);
    forall since ensures KeptFrom(s, Abandon(s0, fr.(deadSince := Some(since)), now, false)) {
      AbandonKeeps(s, fr.(deadSince := Some(since)), now, false);
    }
    AbandonKeeps(s, fr.(deadSince := None), now, true);
  }

  lemma RereadKeeps(s: State)
    requires Inv(s, {}) && s.inflight.Some?
    ensures forall ok, dead :: KeptFrom(s, Reread(s, ok, dead))
  {
    forall ok, dead ensures KeptFrom(s, Reread(s, ok, dead)) {
      InvTouch(s, s.inflight.value.(okSince := ok, deadSince := dead));
    }
  }

  lemma ResolveInflightKeeps(s: State, look: Look, cfg: Config, refused: set<nat>)
    requires Inv(s, {}) && Durable(look.landed, s.log)
    requires forall j | Holds(s.zombies, {}, j) :: s.zombies[j].rid in look.landed
    ensures Inv(ResolveInflight(s, look, cfg, refused), {})
    ensures Whole(s.log) ==> Whole(ResolveInflight(s, look, cfg, refused).log)
  {
    if s.inflight.Some? {
      var fr := s.inflight.value;
      if look.Reads(fr.rid) && !InflightRival(s, fr, look) {
        LandingAlone(s, fr, look);
        InvLands(s, look.landed, fr.(deadSince := None), look.time, refused);
      }
      LetsGoKeeps(s, look.time);
      RereadKeeps(s);
      FlightForms(s, look, cfg, refused, (x: State) => KeptFrom(s, x));
    }
  }

  lemma LandingAlone(s: State, fr: Record, look: Look)
    requires !InflightRival(s, fr, look) && forall j | Holds(s.zombies, {}, j) :: s.zombies[j].rid in look.landed
    ensures forall j | Holds(s.zombies, {}, j) :: s.zombies[j].rid.keys !! fr.rid.keys
  {
    forall j | Holds(s.zombies, {}, j) ensures s.zombies[j].rid.keys !! fr.rid.keys {
      assert !Rivals(fr, s.zombies[j], look);
      var both := s.zombies[j].rid.keys * fr.rid.keys;
      assert forall k :: k in both <==> k in s.zombies[j].rid.keys && k in fr.rid.keys;
    }
  }

  /** One sweep keeps the invariant, whatever it finds on a chain it can believe. */
  lemma SweepKeeps(s: State, look: Look, cfg: Config, refused: set<nat>)
    requires Inv(s, {}) && Credible(look, s)
    ensures Inv(Sweep(s, look, cfg, refused), {})
    ensures Whole(s.log) ==> Whole(Sweep(s, look, cfg, refused).log)
  {
    var v := ResolveZombies(s, look, cfg, refused);
    ResolveZombiesKeeps(s, {}, look, cfg, refused);
    assert {} - v.took == {};
    ResolveInflightKeeps(v.s, look, cfg, refused);
  }
}

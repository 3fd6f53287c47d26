/** The reads of rival rounds are guarded by nothing: if one fails, the sweep over the released rounds
    ends there, and the rounds it has dropped so far stay listed. What the next sweep does then. */
module LifecycleHalts {
  import opened Sequences
  import opened Orders
  import opened Lifecycle
  import opened LifecycleInvariants
  import opened LifecycleReceipts
  import opened LifecycleSettling
  import opened LifecycleClaims
  import opened LifecycleSweeps
  import opened LifecycleReleases
  import opened LifecycleProgress
  import opened LifecycleRuns
  import opened LifecycleReversal

  /** The visit to round `i` goes on to read whether another tracked round carrying one of its
      orders has landed. */
  ghost predicate ReadsRivals(s: State, i: nat, look: Look, cfg: Config)
    requires i < |s.zombies|
  {
    var z := s.zombies[i];
    && z.Sighted() && look.Reads(z.rid) && Confirmed(z, look, cfg)
    && (|| (s.inflight.Some? && s.inflight.value.rid.keys * z.rid.keys != {})
        || exists j :: 0 <= j < |s.zombies| && j != i && s.zombies[j].rid.keys * z.rid.keys != {})
  }

  /** A sweep that ends at round `n`, before its visit. */
  function Halted(s: State, n: nat, look: Look, cfg: Config, refused: set<nat>): State {
    VisitUpTo(s, n, look, cfg, refused).s
  }

  /** Round `j` is listed although it has a receipt. */
  ghost predicate Listed(s: State, j: int) {
    0 <= j < |s.zombies| && exists rc :: rc in s.log && rc.rid == s.zombies[j].rid && rc.key in rc.rid.keys
  }

  /** It is found landed and confirmed once more. */
  ghost predicate FoundAgain(s: State, j: int, look: Look, cfg: Config) {
    && Listed(s, j)
    && s.zombies[j].Sighted() && look.Reads(s.zombies[j].rid) && Confirmed(s.zombies[j], look, cfg)
  }

  // ---- what no visit changes ----

  /** The same rounds, in the same places, and the log only longer. */
  ghost predicate SameList(s: State, x: State) {
    && |x.zombies| == |s.zombies| && s.log <= x.log
    && (forall j | 0 <= j < |s.zombies| :: SameRound(s.zombies[j], x.zombies[j]))
    && (s.inflight.Some? <==> x.inflight.Some?)
    && (s.inflight.Some? ==> SameRound(s.inflight.value, x.inflight.value))
  }

  lemma FinalizeLists(s: State, rec: Record, now: int, refused: set<nat>)
    ensures var s' := Finalize(s, rec, now, refused);
            && SameList(s, s') && s'.zombies == s.zombies && s'.inflight == s.inflight
            && LogsInOrder(s, Filter(rec.Orders(), FreeOf(rec.claimed.Keys)), s', [])
  {
    var own := Filter(rec.Orders(), FreeOf(rec.claimed.Keys));
    ReceiptsInOrder(s, rec.rid, own, rec.fills, now, refused);
    var inv := (x: State, rest: seq<Order>) => x.zombies == s.zombies && x.inflight == s.inflight;
    ReceiptInduction(s, rec.rid, own, rec.fills, now, refused, inv);
  }

  lemma ClaimLists(s: State, i: nat, t: int)
    requires i < |s.zombies| && !s.zombies[i].Sighted()
    ensures SameList(s, Claim(Sight(s, i, Some(t)), i))
  {
    ClaimShape(s, i, t);
  }

  lemma UnclaimLists(s: State, i: nat)
    requires i < |s.zombies| && s.zombies[i].Sighted()
    ensures SameList(s, Unclaim(Sight(s, i, None), i))
  {
    UnclaimShape(s, i);
  }

  lemma SameListOn(s: State, x: State, y: State)
    requires SameList(s, x) && SameList(x, y)
    ensures SameList(s, y)
  {
  }

  lemma ListForms(w: Sweeping, n: nat, look: Look, cfg: Config, refused: set<nat>, inv: (Sweeping, nat) -> bool)
    requires n < |w.s.zombies| && inv == ((x: Sweeping, m: nat) => SameList(w.s, x.s))
    ensures inv(Visiting(look, cfg, refused)(w, n), n + 1)
  {
    assert inv(w, n + 1) && inv(w.(gone := w.gone + {n}), n + 1);
    FinalizeLists(w.s, w.s.zombies[n], look.time, refused);
    if w.s.zombies[n].Sighted() {
      UnclaimLists(w.s, n);
    } else {
      ClaimLists(w.s, n, look.time);
    }
    VisitForms(w, n, look, cfg, refused, inv);
  }

  lemma VisitLists(w: Sweeping, n: nat, look: Look, cfg: Config, refused: set<nat>)
    requires n < |w.s.zombies|
    ensures SameList(w.s, Visiting(look, cfg, refused)(w, n).s)
  {
    ListForms(w, n, look, cfg, refused, (x: Sweeping, m: nat) => SameList(w.s, x.s));
  }

  lemma VisitsList(s: State, n: nat, look: Look, cfg: Config, refused: set<nat>)
    requires n <= |s.zombies|
    ensures SameList(s, VisitUpTo(s, n, look, cfg, refused).s)
  {
    var start, step := Sweeping(s.(looks := s.looks + [look]), {}, {}), Visiting(look, cfg, refused);
    var inv := (w: Sweeping, m: nat) => SameList(s, w.s);
    forall w, i: nat | inv(w, i) && i < n ensures inv(step(w, i), i + 1) {
      VisitLists(w, i, look, cfg, refused);
      SameListOn(s, w.s, step(w, i).s);
    }
    IterateInduction(step, start, n, inv);
  }

  // ---- a listed round stands alone ----

  /** The identities that matter: two listed rounds of one identity carry nothing, and a round's
      identity names its orders. */
  ghost predicate Sound(s: State) {
    && RidsApart(s.inflight, s.zombies)
    && (forall j | 0 <= j < |s.zombies| ::
          s.zombies[j].rid.keys == KeySet(s.zombies[j].Orders()) && DistinctKeys(s.zombies[j].Orders()))
    && (s.inflight.Some? ==> var f := s.inflight.value; f.rid.keys == KeySet(f.Orders()) && DistinctKeys(f.Orders()))
  }

  lemma SoundStays(s: State, x: State)
    requires Sound(s) && SameList(s, x)
    ensures Sound(x)
  {
    assert forall j | 0 <= j < |s.zombies| :: x.zombies[j].Orders() == s.zombies[j].Orders();
    if s.inflight.Some? {
      assert x.inflight.value.Orders() == s.inflight.value.Orders();
    }
  }

  lemma InvSound(s: State, held: set<Key>)
    requires Inv(s, held)
    ensures Sound(s)
  {
    forall j | 0 <= j < |s.zombies|
      ensures s.zombies[j].rid.keys == KeySet(s.zombies[j].Orders()) && DistinctKeys(s.zombies[j].Orders())
    {
      assert Live(s.zombies, {}, j);
    }
  }

  /** A round settled in this very sweep: landed, sighted, and nothing of it claimed. */
  ghost predicate Untouched(s: State, j: int, landed: set<RoundId>) {
    0 <= j < |s.zombies| && s.zombies[j].claimed == map[] && s.zombies[j].rid in landed && s.zombies[j].Sighted()
  }

  lemma MarksNothing(r: Record, r': Record, q: RoundId)
    requires Marks(r, r', q) && r.rid.keys !! q.keys && r.claimed == map[]
    ensures r'.claimed == map[]
  {
    assert r.rid.keys * q.keys == {};
  }

  lemma DropsNothing(r: Record, r': Record, q: RoundId)
    requires Drops(r, r', q) && r.claimed == map[]
    ensures r'.claimed == map[]
  {
  }

  /** A landed round and another one that lands in the same view share nothing. */
  lemma LandedApart(s: State, i: nat, j: nat, landed: set<RoundId>)
    requires Sound(s) && Consistent(landed) && i < |s.zombies| && j < |s.zombies| && i != j
    requires s.zombies[i].rid in landed && s.zombies[j].rid in landed
    ensures s.zombies[j].rid.keys !! s.zombies[i].rid.keys
  {
    if s.zombies[i].rid == s.zombies[j].rid {
      assert s.zombies[i].rid.keys == {};
    }
  }

  lemma ClaimLeaves(s: State, i: nat, j: nat, t: int, landed: set<RoundId>)
    requires Sound(s) && Consistent(landed) && i < |s.zombies| && !s.zombies[i].Sighted() && s.zombies[i].rid in landed
    requires Untouched(s, j, landed)
    ensures Untouched(Claim(Sight(s, i, Some(t)), i), j, landed)
    ensures Claim(Sight(s, i, Some(t)), i).zombies[j].okSince == s.zombies[j].okSince
  {
    var s' := Claim(Sight(s, i, Some(t)), i);
    ClaimShape(s, i, t);
    LandedApart(s, i, j, landed);
    MarksNothing(s.zombies[j], s'.zombies[j], s.zombies[i].rid);
  }

  lemma UnclaimLeaves(s: State, i: nat, j: nat, landed: set<RoundId>)
    requires i < |s.zombies| && s.zombies[i].Sighted() && s.zombies[i].rid !in landed && Untouched(s, j, landed)
    ensures Untouched(Unclaim(Sight(s, i, None), i), j, landed)
    ensures Unclaim(Sight(s, i, None), i).zombies[j].okSince == s.zombies[j].okSince
  {
    var s' := Unclaim(Sight(s, i, None), i);
    UnclaimShape(s, i);
    DropsNothing(s.zombies[j], s'.zombies[j], s.zombies[i].rid);
  }

  // ---- the sweep that is cut short ----

  ghost predicate Tidy(s: State, landed: set<RoundId>) { forall j | Listed(s, j) :: Untouched(s, j, landed) }

  lemma ListedBefore(s: State, x: State, j: int)
    requires SameList(s, x) && x.log == s.log && Listed(x, j)
    ensures Listed(s, j)
  {
  }

  lemma ListedSettles(s: State, x: State, n: nat, j: int)
    requires Sound(s) && n < |s.zombies| && x.zombies == s.zombies && LogFrom(s.log, x.log, s.zombies[n].rid)
    requires Listed(x, j)
    ensures j == n || Listed(s, j)
  {
    var rc :| rc in x.log && rc.rid == x.zombies[j].rid && rc.key in rc.rid.keys;
    assert rc in s.log || rc.rid == s.zombies[n].rid;
  }

  lemma TidySettles(zs: seq<Record>, w: Sweeping, n: nat, look: Look, held: set<Key>, refused: set<nat>)
    requires Midway(zs, w, n, look, held) && n < |zs| && Sound(w.s) && Tidy(w.s, look.landed)
    requires w.s.zombies[n].Sighted() && w.s.zombies[n].rid in look.landed
    ensures Tidy(Finalize(w.s, w.s.zombies[n], look.time, refused), look.landed)
  {
    var s' := Finalize(w.s, w.s.zombies[n], look.time, refused);
    UnvisitedPrior(zs, w, n, n);
    StandingUnclaimed(w.s, Midpoint(zs, w, look, held), n);
    FinalizeLists(w.s, w.s.zombies[n], look.time, refused);
    FinalizeLog(w.s, w.s.zombies[n], look.time, refused);
    forall j | Listed(s', j) ensures Untouched(s', j, look.landed) {
      ListedSettles(w.s, s', n, j);
    }
  }

  lemma TidyClaims(s: State, i: nat, t: int, landed: set<RoundId>)
    requires Sound(s) && Tidy(s, landed) && Consistent(landed)
    requires i < |s.zombies| && !s.zombies[i].Sighted() && s.zombies[i].rid in landed
    ensures Tidy(Claim(Sight(s, i, Some(t)), i), landed)
  {
    var s' := Claim(Sight(s, i, Some(t)), i);
    ClaimShape(s, i, t);
    forall j | Listed(s', j) ensures Untouched(s', j, landed) {
      ListedBefore(s, s', j);
      ClaimLeaves(s, i, j, t, landed);
    }
  }

  lemma TidySinks(s: State, i: nat, landed: set<RoundId>)
    requires Tidy(s, landed) && i < |s.zombies| && s.zombies[i].Sighted() && s.zombies[i].rid !in landed
    ensures Tidy(Unclaim(Sight(s, i, None), i), landed)
  {
    var s' := Unclaim(Sight(s, i, None), i);
    UnclaimShape(s, i);
    forall j | Listed(s', j) ensures Untouched(s', j, landed) {
      ListedBefore(s, s', j);
      UnclaimLeaves(s, i, j, landed);
    }
  }

  lemma TidyForms(zs: seq<Record>, w: Sweeping, n: nat, look: Look, cfg: Config, held: set<Key>, refused: set<nat>,
                  inv: (Sweeping, nat) -> bool)
    requires Midway(zs, w, n, look, held) && n < |zs| && Sound(w.s) && Tidy(w.s, look.landed)
    requires inv == ((x: Sweeping, m: nat) => Tidy(x.s, look.landed))
    ensures inv(Visiting(look, cfg, refused)(w, n), n + 1)
  {
    var z := w.s.zombies[n];
    if z.Sighted() && z.rid in look.landed {
      TidySettles(zs, w, n, look, held, refused);
    } else if z.Sighted() {
      TidySinks(w.s, n, look.landed);
    } else if z.rid in look.landed {
      TidyClaims(w.s, n, look.time, look.landed);
    }
    VisitForms(w, n, look, cfg, refused, inv);
  }

  /** Where a sweep is cut short, every round listed with a receipt is landed, sighted and whole. */
  lemma HaltedTidy(s: State, held: set<Key>, n: nat, look: Look, cfg: Config, refused: set<nat>)
    requires Inv(s, held) && Credible(look, s) && n <= |s.zombies|
    ensures Tidy(Halted(s, n, look, cfg, refused), look.landed) && Sound(Halted(s, n, look, cfg, refused))
  {
    var known := (w: Sweeping, m: nat) => m <= |s.zombies| && Midway(s.zombies, w, m, look, held) && Sound(w.s);
    var inv := (w: Sweeping, m: nat) => Tidy(w.s, look.landed);
    InvSound(s, held);
    forall m: nat | m <= n ensures known(VisitUpTo(s, m, look, cfg, refused), m) {
      MidwayUpTo(s, held, look, cfg, refused, m);
      VisitsList(s, m, look, cfg, refused);
      SoundStays(s, VisitUpTo(s, m, look, cfg, refused).s);
    }
    forall w, m: nat | known(w, m) && inv(w, m) && m < n ensures inv(Visiting(look, cfg, refused)(w, m), m + 1) {
      TidyForms(s.zombies, w, m, look, cfg, held, refused, inv);
    }
    NoneListed(s, held, look);
    VisitsAlong(s, look, cfg, refused, n, known, inv);
  }

  lemma NoneListed(s: State, held: set<Key>, look: Look)
    requires Inv(s, held)
    ensures Tidy(s.(looks := s.looks + [look]), look.landed)
  {
    forall j | 0 <= j < |s.zombies| ensures !Listed(s.(looks := s.looks + [look]), j) {
      assert Live(s.zombies, {}, j);
    }
  }

  // ---- the next sweep: a round found again is settled again ----

  lemma OnceShorter(a: seq<Receipt>, b: seq<Receipt>)
    requires a <= b && LogOnce(b)
    ensures LogOnce(a)
  {
    assert forall i | 0 <= i < |a| :: a[i] == b[i];
  }

  /** Up to the visit to round `j` it stands as it did; after it, it is settled twice. */
  ghost predicate Awaits(s: State, x: State, m: nat, j: nat, landed: set<RoundId>) {
    if m <= j then j < |s.zombies| && Untouched(x, j, landed) && x.zombies[j].okSince == s.zombies[j].okSince
    else !LogOnce(x.log)
  }

  lemma SettlesTwice(s: State, x: State, j: nat, now: int, refused: set<nat>)
    requires Listed(s, j) && SameList(s, x) && Sound(x) && x.zombies[j].claimed == map[]
    ensures !LogOnce(Finalize(x, x.zombies[j], now, refused).log)
  {
    var z := x.zombies[j];
    var rc :| rc in s.log && rc.rid == s.zombies[j].rid && rc.key in rc.rid.keys;
    var i :| 0 <= i < |s.log| && s.log[i] == rc;
    assert x.log[i] == rc && rc.key in Fin(x.log) && rc.key in KeySet(z.Orders());
    var o :| o in z.Orders() && KeyOf(o) == rc.key;
    FilterAll(z.Orders(), FreeOf(z.claimed.Keys));
    FinalizeLists(x, z, now, refused);
    TwiceInLog(x, z.Orders(), Finalize(x, z, now, refused), o);
  }

  lemma AwaitsVisit(s: State, w: Sweeping, j: nat, look: Look, cfg: Config, refused: set<nat>)
    requires SameList(s, w.s) && Sound(w.s) && FoundAgain(s, j, look, cfg) && Awaits(s, w.s, j, j, look.landed)
    requires Consistent(look.landed)
    ensures !LogOnce(Visiting(look, cfg, refused)(w, j).s.log)
  {
    NoRival(w.s, j, look);
    VisitFinalizes(w, j, look, cfg, refused);
    SettlesTwice(s, w.s, j, look.time, refused);
  }

  lemma AwaitsForms(s: State, w: Sweeping, m: nat, j: nat, look: Look, cfg: Config, refused: set<nat>,
                    inv: (Sweeping, nat) -> bool)
    requires SameList(s, w.s) && Sound(w.s) && m < |s.zombies| && Consistent(look.landed)
    requires m < j && Awaits(s, w.s, m, j, look.landed)
    requires inv == ((x: Sweeping, i: nat) => Awaits(s, x.s, i, j, look.landed))
    ensures inv(Visiting(look, cfg, refused)(w, m), m + 1)
  {
    FinalizeLists(w.s, w.s.zombies[m], look.time, refused);
    if w.s.zombies[m].Sighted() && w.s.zombies[m].rid !in look.landed {
      UnclaimLeaves(w.s, m, j, look.landed);
    } else if !w.s.zombies[m].Sighted() && w.s.zombies[m].rid in look.landed {
      ClaimLeaves(w.s, m, j, look.time, look.landed);
    }
    VisitForms(w, m, look, cfg, refused, inv);
  }

  lemma AwaitsStep(s: State, w: Sweeping, m: nat, j: nat, look: Look, cfg: Config, refused: set<nat>)
    requires SameList(s, w.s) && Sound(w.s) && m < |s.zombies| && Consistent(look.landed)
    requires FoundAgain(s, j, look, cfg) && Awaits(s, w.s, m, j, look.landed)
    ensures Awaits(s, Visiting(look, cfg, refused)(w, m).s, m + 1, j, look.landed)
  {
    if m < j {
      AwaitsForms(s, w, m, j, look, cfg, refused, (x: Sweeping, i: nat) => Awaits(s, x.s, i, j, look.landed));
    } else if m == j {
      AwaitsVisit(s, w, j, look, cfg, refused);
    } else {
      var w' := Visiting(look, cfg, refused)(w, m);
      VisitLists(w, m, look, cfg, refused);
      if LogOnce(w'.s.log) {
        OnceShorter(w.s.log, w'.s.log);
      }
    }
  }

  lemma FoundIsSettledTwice(s: State, j: nat, look: Look, landed: set<RoundId>, cfg: Config, refused: set<nat>)
    requires Sound(s) && Tidy(s, landed) && Consistent(look.landed) && FoundAgain(s, j, look, cfg)
    ensures !LogOnce(ResolveZombies(s, look, cfg, refused).s.log)
  {
    var n := |s.zombies|;
    var known := (w: Sweeping, m: nat) => SameList(s, w.s) && Sound(w.s);
    var inv := (w: Sweeping, m: nat) => Awaits(s, w.s, m, j, look.landed);
    forall m: nat | m <= n ensures known(VisitUpTo(s, m, look, cfg, refused), m) {
      VisitsList(s, m, look, cfg, refused);
      SoundStays(s, VisitUpTo(s, m, look, cfg, refused).s);
    }
    forall w, m: nat | known(w, m) && inv(w, m) && m < n ensures inv(Visiting(look, cfg, refused)(w, m), m + 1) {
      AwaitsStep(s, w, m, j, look, cfg, refused);
    }
    VisitsAlong(s, look, cfg, refused, n, known, inv);
  }

  // ---- and nothing else is ----

  /** The log so far holds each order once, under landed rounds that are not to be visited any
      more, or that had their receipts before. */
  ghost predicate Once(s: State, x: State, m: nat, landed: set<RoundId>) {
    && LogOnce(x.log) && Durable(landed, x.log) && (forall rc | rc in x.log :: rc.key in rc.rid.keys)
    && (forall j | m <= j < |s.zombies| && Listed(x, j) :: Listed(s, j))
    && |x.zombies| == |s.zombies| && (forall j | m <= j < |s.zombies| :: x.zombies[j].okSince == s.zombies[j].okSince)
    && (x.inflight.Some? ==> forall rc | rc in x.log :: rc.rid != x.inflight.value.rid)
  }

  lemma OwnKeys(rec: Record)
    requires rec.rid.keys == KeySet(rec.Orders()) && DistinctKeys(rec.Orders())
    ensures var own := Filter(rec.Orders(), FreeOf(rec.claimed.Keys)); DistinctKeys(own) && KeySet(own) <= rec.rid.keys
  {
    FilterKeys(rec.Orders(), rec.claimed.Keys);
  }

  /** A landed round without receipts settles each of its orders for the first time. */
  lemma OnceMore(s: State, rec: Record, now: int, refused: set<nat>, landed: set<RoundId>)
    requires LogOnce(s.log) && Durable(landed, s.log) && rec.rid in landed
    requires forall rc | rc in s.log :: rc.rid != rec.rid
    requires rec.rid.keys == KeySet(rec.Orders()) && DistinctKeys(rec.Orders())
    ensures var s' := Finalize(s, rec, now, refused);
            LogOnce(s'.log) && forall i | |s.log| <= i < |s'.log| :: s'.log[i].key in rec.rid.keys
  {
    var own, s' := Filter(rec.Orders(), FreeOf(rec.claimed.Keys)), Finalize(s, rec, now, refused);
    OwnKeys(rec);
    FinalizeLists(s, rec, now, refused);
    forall i | |s.log| <= i < |s'.log|
      ensures s'.log[i].key == KeyOf(own[i - |s.log|]) && s'.log[i].key in rec.rid.keys
    {
      assert own[i - |s.log|] in own;
      assert s'.log[|s.log| + (i - |s.log|)].key == KeyOf(own[i - |s.log|]);
    }
    forall i, j | 0 <= i < j < |s'.log| ensures s'.log[i].key != s'.log[j].key {
      if j < |s.log| {
        assert s'.log[i] == s.log[i] && s'.log[j] == s.log[j];
      } else if i < |s.log| {
        assert s'.log[i] == s.log[i] && s.log[i] in s.log;
      }
    }
  }

  lemma NewKeysIn(log: seq<Receipt>, log': seq<Receipt>, rid: RoundId)
    requires log <= log' && LogFrom(log, log', rid) && forall rc | rc in log :: rc.key in rc.rid.keys
    requires forall i | |log| <= i < |log'| :: log'[i].key in rid.keys
    ensures forall rc | rc in log' :: rc.key in rc.rid.keys
  {
    forall rc | rc in log' ensures rc.key in rc.rid.keys {
      var i :| 0 <= i < |log'| && log'[i] == rc;
      assert i < |log| ==> log[i] == rc;
    }
  }

  lemma OnceSettles(s: State, x: State, m: nat, look: Look, refused: set<nat>)
    requires Once(s, x, m, look.landed) && Sound(x) && Consistent(look.landed) && m < |s.zombies|
    requires !Listed(x, m) && x.zombies[m].rid in look.landed
    ensures Once(s, Finalize(x, x.zombies[m], look.time, refused), m + 1, look.landed)
  {
    var z, x' := x.zombies[m], Finalize(x, x.zombies[m], look.time, refused);
    forall rc | rc in x.log ensures rc.rid != z.rid {
      assert rc.key in rc.rid.keys;
    }
    OnceMore(x, z, look.time, refused, look.landed);
    FinalizeLists(x, z, look.time, refused);
    FinalizeLog(x, z, look.time, refused);
    NewKeysIn(x.log, x'.log, z.rid);
    StillDurable(look.landed, x.log, x'.log, z.rid);
    forall j | m + 1 <= j < |s.zombies| && Listed(x', j) ensures Listed(s, j) {
      ListedSettles(x, x', m, j);
    }
    OnceFlight(x, x', m);
  }

  lemma OnceFlight(x: State, x': State, m: nat)
    requires Sound(x) && m < |x.zombies| && x'.inflight == x.inflight && LogFrom(x.log, x'.log, x.zombies[m].rid)
    requires (forall rc | rc in x'.log :: rc.key in rc.rid.keys)
    requires x.inflight.Some? ==> forall rc | rc in x.log :: rc.rid != x.inflight.value.rid
    ensures x'.inflight.Some? ==> forall rc | rc in x'.log :: rc.rid != x'.inflight.value.rid
  {
    if x.inflight.Some? {
      forall rc | rc in x'.log ensures rc.rid != x.inflight.value.rid {
        assert rc in x.log || rc.rid == x.zombies[m].rid;
      }
    }
  }

  lemma OnceMoves(s: State, x: State, x': State, m: nat, landed: set<RoundId>)
    requires Once(s, x, m, landed) && SameList(x, x') && x'.log == x.log && m < |s.zombies|
    requires forall j | m + 1 <= j < |s.zombies| :: x'.zombies[j].okSince == x.zombies[j].okSince
    ensures Once(s, x', m + 1, landed)
  {
    forall j | m + 1 <= j < |s.zombies| && Listed(x', j) ensures Listed(s, j) {
      ListedBefore(x, x', j);
    }
  }

  lemma OnceSinks(s: State, x: State, m: nat, landed: set<RoundId>)
    requires Once(s, x, m, landed) && m < |s.zombies| && x.zombies[m].Sighted()
    ensures Once(s, Unclaim(Sight(x, m, None), m), m + 1, landed)
  {
    UnclaimLists(x, m);
    UnclaimShape(x, m);
    OnceMoves(s, x, Unclaim(Sight(x, m, None), m), m, landed);
  }

  lemma OnceClaims(s: State, x: State, m: nat, t: int, landed: set<RoundId>)
    requires Once(s, x, m, landed) && m < |s.zombies| && !x.zombies[m].Sighted()
    ensures Once(s, Claim(Sight(x, m, Some(t)), m), m + 1, landed)
  {
    ClaimLists(x, m, t);
    ClaimShape(x, m, t);
    OnceMoves(s, x, Claim(Sight(x, m, Some(t)), m), m, landed);
  }

  /** A round the sweep settles had no receipt. */
  lemma OnceUnlisted(s: State, x: State, m: nat, look: Look, cfg: Config)
    requires SameList(s, x) && Once(s, x, m, look.landed) && m < |s.zombies| && !FoundAgain(s, m, look, cfg)
    requires x.zombies[m].Sighted() && look.Reads(x.zombies[m].rid) && Confirmed(x.zombies[m], look, cfg)
    ensures !Listed(x, m)
  {
    assert s.zombies[m].rid == x.zombies[m].rid && s.zombies[m].okSince == x.zombies[m].okSince;
  }

  lemma OnceForms(s: State, w: Sweeping, m: nat, look: Look, cfg: Config, refused: set<nat>,
                  inv: (Sweeping, nat) -> bool)
    requires SameList(s, w.s) && Sound(w.s) && m < |s.zombies| && Consistent(look.landed)
    requires Once(s, w.s, m, look.landed) && !FoundAgain(s, m, look, cfg)
    requires inv == ((x: Sweeping, i: nat) => Once(s, x.s, i, look.landed))
    ensures inv(Visiting(look, cfg, refused)(w, m), m + 1)
  {
    var z := w.s.zombies[m];
    OnceMoves(s, w.s, w.s, m, look.landed);
    assert inv(w, m + 1) && inv(w.(gone := w.gone + {m}), m + 1);
    if !z.Sighted() {
      OnceClaims(s, w.s, m, look.time, look.landed);
    } else {
      OnceSinks(s, w.s, m, look.landed);
      if look.Reads(z.rid) && Confirmed(z, look, cfg) {
        OnceUnlisted(s, w.s, m, look, cfg);
        OnceSettles(s, w.s, m, look, refused);
      }
    }
    VisitForms(w, m, look, cfg, refused, inv);
  }

  lemma NotFoundIsOnce(s: State, look: Look, cfg: Config, refused: set<nat>)
    requires Sound(s) && Once(s, s, 0, look.landed) && Consistent(look.landed)
    requires forall j | 0 <= j < |s.zombies| :: !FoundAgain(s, j, look, cfg)
    ensures Once(s, VisitUpTo(s, |s.zombies|, look, cfg, refused).s, |s.zombies|, look.landed)
  {
    var n := |s.zombies|;
    var known := (w: Sweeping, m: nat) => SameList(s, w.s) && Sound(w.s);
    var inv := (w: Sweeping, m: nat) => Once(s, w.s, m, look.landed);
    forall m: nat | m <= n ensures known(VisitUpTo(s, m, look, cfg, refused), m) {
      VisitsList(s, m, look, cfg, refused);
      SoundStays(s, VisitUpTo(s, m, look, cfg, refused).s);
    }
    forall w, m: nat | known(w, m) && inv(w, m) && m < n ensures inv(Visiting(look, cfg, refused)(w, m), m + 1) {
      OnceForms(s, w, m, look, cfg, refused, inv);
    }
    OnceStarts(s, look);
    VisitsAlong(s, look, cfg, refused, n, known, inv);
  }

  lemma OnceStarts(s: State, look: Look)
    requires Once(s, s, 0, look.landed)
    ensures Once(s, s.(looks := s.looks + [look]), 0, look.landed)
  {
    var s' := s.(looks := s.looks + [look]);
    forall j | 0 <= j < |s.zombies| && Listed(s', j) ensures Listed(s, j) {
      ListedBefore(s, s', j);
    }
  }

  // ---- the round in flight, and the whole sweep ----

  lemma FlightGrows(s: State, look: Look, cfg: Config, refused: set<nat>)
    ensures s.log <= ResolveInflight(s, look, cfg, refused).log
  {
    if s.inflight.Some? {
      FinalizeLists(s.(inflight := None), s.inflight.value.(deadSince := None), look.time, refused);
      FlightForms(s, look, cfg, refused, (x: State) => s.log <= x.log);
    }
  }

  lemma FlightOnce(s: State, look: Look, cfg: Config, refused: set<nat>)
    requires LogOnce(s.log) && Durable(look.landed, s.log)
    requires s.inflight.Some? ==>
               var f := s.inflight.value;
               && f.rid.keys == KeySet(f.Orders()) && DistinctKeys(f.Orders())
               && forall rc | rc in s.log :: rc.rid != f.rid
    ensures LogOnce(ResolveInflight(s, look, cfg, refused).log)
  {
    if s.inflight.Some? {
      var fr := s.inflight.value.(deadSince := None);
      assert fr.Orders() == s.inflight.value.Orders();
      if look.Reads(fr.rid) {
        OnceMore(s.(inflight := None), fr, look.time, refused, look.landed);
      }
      FlightForms(s, look, cfg, refused, (x: State) => LogOnce(x.log));
    }
  }

  lemma NextSweepIff(s: State, look: Look, landed: set<RoundId>, cfg: Config, refused: set<nat>)
    requires Sound(s) && Tidy(s, landed) && Once(s, s, 0, look.landed) && Consistent(look.landed)
    ensures LogOnce(Sweep(s, look, cfg, refused).log) <==>
              forall j | 0 <= j < |s.zombies| :: !FoundAgain(s, j, look, cfg)
  {
    var v := ResolveZombies(s, look, cfg, refused).s;
    if forall j | 0 <= j < |s.zombies| :: !FoundAgain(s, j, look, cfg) {
      NotFoundIsOnce(s, look, cfg, refused);
      VisitsList(s, |s.zombies|, look, cfg, refused);
      SoundStays(s, VisitUpTo(s, |s.zombies|, look, cfg, refused).s);
      FlightOnce(v, look, cfg, refused);
    } else {
      var j :| 0 <= j < |s.zombies| && FoundAgain(s, j, look, cfg);
      FoundIsSettledTwice(s, j, look, landed, cfg, refused);
      FlightGrows(v, look, cfg, refused);
      if LogOnce(Sweep(s, look, cfg, refused).log) {
        OnceShorter(v.log, Sweep(s, look, cfg, refused).log);
      }
    }
  }

  lemma HaltedOnce(s: State, n: nat, look: Look, cfg: Config, refused: set<nat>, landed: set<RoundId>)
    requires Inv(s, {}) && Credible(look, s) && n <= |s.zombies|
    requires Durable(landed, Halted(s, n, look, cfg, refused).log)
    ensures var h := Halted(s, n, look, cfg, refused); Once(h, h, 0, landed)
  {
    MidwayUpTo(s, {}, look, cfg, refused, n);
  }

  /** A sweep that is cut short before it settles anything leaves no such round. */
  lemma NothingSettledYet(s: State, held: set<Key>, h: State)
    requires Inv(s, held) && SameList(s, h) && h.log == s.log
    ensures forall j :: !Listed(h, j)
  {
    forall j | Listed(h, j) ensures false {
      ListedBefore(s, h, j);
      assert Live(s.zombies, {}, j);
    }
  }

  /** Suppose that, at any point of a run, a sweep ends at a rival read that fails. The next sweep
      settles an order twice if and only if it finds landed and confirmed, once more, a round that
      has its receipts and is still listed; there is none unless the sweep cut short had settled
      something. */
  lemma HaltedSettlesTwiceIff(es: seq<Event>, cfg: Config, n: nat, look: Look, refused: set<nat>, next: Look,
                              refused': set<nat>)
    requires HonestRun(es, cfg) && Credible(look, Run(es, cfg)) && n <= |Run(es, cfg).zombies|
    requires Believable(next, Halted(Run(es, cfg), n, look, cfg, refused).log)
    ensures var h := Halted(Run(es, cfg), n, look, cfg, refused);
            LogOnce(Sweep(h, next, cfg, refused').log) <==>
              forall j | 0 <= j < |h.zombies| :: !FoundAgain(h, j, next, cfg)
    ensures var h := Halted(Run(es, cfg), n, look, cfg, refused);
            h.log == Run(es, cfg).log ==> forall j :: !Listed(h, j)
  {
    var s := Run(es, cfg);
    RunKeeps(es, cfg);
    VisitsList(s, n, look, cfg, refused);
    if Halted(s, n, look, cfg, refused).log == s.log {
      NothingSettledYet(s, {}, Halted(s, n, look, cfg, refused));
    }
    HaltedTidy(s, {}, n, look, cfg, refused);
    HaltedOnce(s, n, look, cfg, refused, next.landed);
    NextSweepIff(Halted(s, n, look, cfg, refused), next, look.landed, cfg, refused');
  }
}

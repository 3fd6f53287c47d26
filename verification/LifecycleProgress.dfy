/** A durable landing is settled by the sweep that finds it so, and rival landings are not. */
module LifecycleProgress {
  import opened Sequences
  import opened Orders
  import opened Lifecycle
  import opened LifecycleInvariants
  import opened LifecycleSettling
  import opened LifecycleSweeps
  import opened LifecycleReleases
  import opened LifecycleSightings

  /** The confirmation rule says exactly when a landing is durable. */
  lemma ConfirmedIffDurable(rec: Record, look: Look, cfg: Config)
    requires rec.Sighted()
    ensures Confirmed(rec, look, cfg) <==> Durably(rec.rid, rec.okSince.value, look, cfg)
  {
  }

  // ---- durable landings settle ----

  /** On a consistent look a landed round has no rival among the rounds tracked. */
  lemma NoRival(s: State, i: nat, look: Look)
    requires i < |s.zombies| && s.zombies[i].rid in look.landed && Consistent(look.landed)
             && RidsApart(s.inflight, s.zombies)
    ensures !RivalLanded(s, i, look)
  {
    var z := s.zombies[i];
    forall r: Record | Rivals(z, r, look) ensures r.rid == z.rid && z.rid.keys != {} {
      var k :| k in r.rid.keys * z.rid.keys;
    }
  }

  ghost predicate SettledBy(w: Sweeping, keys: set<Key>) { keys <= Fin(w.s.log) }

  lemma LogGrows(w: Sweeping, n: nat, look: Look, cfg: Config, refused: set<nat>, keys: set<Key>)
    requires n < |w.s.zombies| && SettledBy(w, keys)
    ensures SettledBy(Visiting(look, cfg, refused)(w, n), keys)
  {
    FinalizeLog(w.s, w.s.zombies[n], look.time, refused);
    VisitForms(w, n, look, cfg, refused, (x: Sweeping, m: nat) => SettledBy(x, keys));
  }

  lemma VisitFinalizes(w: Sweeping, n: nat, look: Look, cfg: Config, refused: set<nat>)
    requires n < |w.s.zombies| && w.s.zombies[n].Sighted() && look.Reads(w.s.zombies[n].rid)
    requires Confirmed(w.s.zombies[n], look, cfg) && !RivalLanded(w.s, n, look)
    ensures Visiting(look, cfg, refused)(w, n).s == Finalize(w.s, w.s.zombies[n], look.time, refused)
  {
  }

  /** The visit to the round itself. */
  lemma VisitSettles(zs: seq<Record>, w: Sweeping, n: nat, look: Look, cfg: Config, held: set<Key>, refused: set<nat>)
    requires Midway(zs, w, n, look, held) && n < |zs| && zs[n].Sighted() && look.Reads(zs[n].rid)
    requires Durably(zs[n].rid, zs[n].okSince.value, look, cfg)
    ensures SettledBy(Visiting(look, cfg, refused)(w, n), zs[n].rid.keys)
  {
    var z := w.s.zombies[n];
    ConfirmedIffDurable(z, look, cfg);
    NoRival(w.s, n, look);
    UnvisitedPrior(zs, w, n, n);
    ZombieFinalizes(w.s, Midpoint(zs, w, look, held), n, look.time, refused);
    VisitFinalizes(w, n, look, cfg, refused);
  }

  ghost predicate DoneAfter(w: Sweeping, n: nat, i: nat, keys: set<Key>) { n > i ==> SettledBy(w, keys) }

  /** Round `i` of `zs` was sighted before, is still landed and is now durable. */
  ghost predicate DueNow(zs: seq<Record>, i: nat, look: Look, cfg: Config) {
    i < |zs| && zs[i].Sighted() && look.Reads(zs[i].rid) && Durably(zs[i].rid, zs[i].okSince.value, look, cfg)
  }

  lemma DurableStep(zs: seq<Record>, w: Sweeping, n: nat, i: nat, look: Look, cfg: Config, held: set<Key>,
                    refused: set<nat>)
    requires Midway(zs, w, n, look, held) && n < |zs| && DueNow(zs, i, look, cfg) && DoneAfter(w, n, i, zs[i].rid.keys)
    ensures DoneAfter(Visiting(look, cfg, refused)(w, n), n + 1, i, zs[i].rid.keys)
  {
    if n == i {
      VisitSettles(zs, w, n, look, cfg, held, refused);
    } else if n > i {
      LogGrows(w, n, look, cfg, refused, zs[i].rid.keys);
    }
  }

  lemma VisitsAlong(s: State, look: Look, cfg: Config, refused: set<nat>, n: nat, known: (Sweeping, nat) -> bool,
                    inv: (Sweeping, nat) -> bool)
    requires inv(Sweeping(s.(looks := s.looks + [look]), {}, {}), 0)
    requires forall m: nat | m <= n :: known(VisitUpTo(s, m, look, cfg, refused), m)
    requires forall w, m: nat | known(w, m) && inv(w, m) && m < n :: inv(Visiting(look, cfg, refused)(w, m), m + 1)
    ensures inv(VisitUpTo(s, n, look, cfg, refused), n)
  {
    var start, step := Sweeping(s.(looks := s.looks + [look]), {}, {}), Visiting(look, cfg, refused);
    forall m: nat | m <= n ensures known(Iterate(step, start, m), m) {
      assert known(VisitUpTo(s, m, look, cfg, refused), m);
    }
    IterateAlong(step, start, n, known, inv);
  }

  /** A released round sighted before, still landed and now durable is settled by this sweep: every
      one of its orders has its receipt. */
  lemma DurableSettles(s: State, held: set<Key>, look: Look, cfg: Config, refused: set<nat>, i: nat)
    requires Inv(s, held) && Credible(look, s) && DueNow(s.zombies, i, look, cfg)
    ensures s.zombies[i].rid.keys <= Fin(ResolveZombies(s, look, cfg, refused).s.log)
  {
    var zs, keys := s.zombies, s.zombies[i].rid.keys;
    var mid := (w: Sweeping, n: nat) => Midway(zs, w, n, look, held);
    var done := (w: Sweeping, n: nat) => DoneAfter(w, n, i, keys);
    forall n: nat | n <= |zs| ensures mid(VisitUpTo(s, n, look, cfg, refused), n) {
      MidwayUpTo(s, held, look, cfg, refused, n);
    }
    forall w, n: nat | mid(w, n) && done(w, n) && n < |zs| ensures done(Visiting(look, cfg, refused)(w, n), n + 1) {
      DurableStep(zs, w, n, i, look, cfg, held, refused);
    }
    VisitsAlong(s, look, cfg, refused, |zs|, mid, done);
  }

  /** So is the round in flight. */
  lemma DurableInflightSettles(s: State, look: Look, cfg: Config, refused: set<nat>)
    requires Inv(s, {}) && Credible(look, s) && s.inflight.Some?
    requires forall j | Holds(s.zombies, {}, j) :: s.zombies[j].rid in look.landed
    requires var fr := s.inflight.value;
             fr.Sighted() && look.Reads(fr.rid) && Durably(fr.rid, fr.okSince.value, look, cfg)
    ensures var s' := ResolveInflight(s, look, cfg, refused);
            s'.inflight.None? && s.inflight.value.rid.keys <= Fin(s'.log)
  {
    var fr := s.inflight.value;
    ConfirmedIffDurable(fr, look, cfg);
    forall j | 0 <= j < |s.zombies| ensures !Rivals(fr, s.zombies[j], look) {
      var r := s.zombies[j].rid;
      if r in look.landed {
        assert r != fr.rid ==> r.keys !! fr.rid.keys;
        assert r.keys * fr.rid.keys == {};
      }
    }
    LandingAlone(s, fr, look);
    InflightFinalizes(s, Ctx({}, {}, Fin(s.log), SightedRids(s.zombies), {}), look.landed, fr.(deadSince := None),
                      look.time, refused);
  }

  // ---- rival landings wait ----

  /** The rounds tracked are those of `s`, and no receipt of round `rid` is new. */
  ghost predicate Unsettled(s: State, rid: RoundId, x: State) {
    && x.looks != [] && |x.zombies| == |s.zombies|
    && (forall j | 0 <= j < |s.zombies| :: x.zombies[j].rid == s.zombies[j].rid)
    && (x.inflight.Some? <==> s.inflight.Some?) && (s.inflight.Some? ==> x.inflight.value.rid == s.inflight.value.rid)
    && (forall rc | rc in x.log :: rc in s.log || rc.rid != rid)
  }

  lemma StillRivals(s: State, x: State, i: nat, n: nat, look: Look)
    requires i < |s.zombies| && n < |s.zombies| && RivalLanded(s, i, look) && Unsettled(s, s.zombies[i].rid, x)
    requires s.zombies[n].rid == s.zombies[i].rid && s.zombies[i].rid.keys != {} && s.zombies[i].rid in look.landed
    ensures RivalLanded(x, n, look)
  {
    if n != i {
      assert s.zombies[i].rid.keys * s.zombies[i].rid.keys == s.zombies[i].rid.keys;
      assert Rivals(x.zombies[n], x.zombies[i], look);
    } else if !(s.inflight.Some? && Rivals(s.zombies[i], s.inflight.value, look)) {
      var j :| 0 <= j < |s.zombies| && j != i && Rivals(s.zombies[i], s.zombies[j], look);
      assert Rivals(x.zombies[i], x.zombies[j], look);
    }
  }

  lemma UnsettledClaims(s: State, rid: RoundId, x: State, n: nat, t: int)
    requires Unsettled(s, rid, x) && n < |x.zombies|
    ensures Unsettled(s, rid, Claim(Sight(x, n, Some(t)), n)) && Unsettled(s, rid, Unclaim(Sight(x, n, None), n))
  {
  }

  lemma UnsettledVisit(s: State, w: Sweeping, i: nat, n: nat, look: Look, cfg: Config, refused: set<nat>,
                       inv: (Sweeping, nat) -> bool)
    requires i < |s.zombies| && n < |s.zombies| && RivalLanded(s, i, look) && s.zombies[i].rid.keys != {}
    requires Unsettled(s, s.zombies[i].rid, w.s)
             && inv == ((x: Sweeping, m: nat) => Unsettled(s, s.zombies[i].rid, x.s))
    ensures inv(Visiting(look, cfg, refused)(w, n), n + 1)
  {
    UnsettledClaims(s, s.zombies[i].rid, w.s, n, look.time);
    FinalizeFresh(w.s, w.s.zombies[n], look.time, refused);
    if s.zombies[n].rid == s.zombies[i].rid && s.zombies[i].rid in look.landed {
      StillRivals(s, w.s, i, n, look);
    }
    VisitForms(w, n, look, cfg, refused, inv);
  }

  /** On any look at all, consistent or not: while another tracked round sharing an order also
      reads as landed, a released round is not settled. */
  lemma RivalsWait(s: State, look: Look, cfg: Config, refused: set<nat>, i: nat)
    requires i < |s.zombies| && RivalLanded(s, i, look) && s.zombies[i].rid.keys != {}
    ensures forall rc | rc in ResolveZombies(s, look, cfg, refused).s.log :: rc in s.log || rc.rid != s.zombies[i].rid
  {
    var start, step := Sweeping(s.(looks := s.looks + [look]), {}, {}), Visiting(look, cfg, refused);
    var inv := (w: Sweeping, n: nat) => Unsettled(s, s.zombies[i].rid, w.s);
    forall w, n: nat | inv(w, n) && n < |s.zombies| ensures inv(step(w, n), n + 1) {
      UnsettledVisit(s, w, i, n, look, cfg, refused, inv);
    }
    IterateInduction(step, start, |s.zombies|, inv);
  }
}

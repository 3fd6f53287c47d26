/** No round is given up early: it was dead all through the confirmation period, or overdue. */
module LifecycleDeadlines {
  import opened Sequences
  import opened Lifecycle
  import opened LifecycleSweeps
  import opened LifecycleReleases
  import opened LifecycleQueues
  import opened LifecycleBuilds
  import opened LifecycleSightings

  /** In look `j`, and in every look up to `n` that could read it, the round was dead and not landed. */
  ghost predicate DeadFrom(rid: RoundId, looks: seq<Look>, j: nat, n: nat) {
    && j < n <= |looks| && looks[j].FindsDead(rid)
    && forall m | j <= m < n :: looks[m].FindsDead(rid) || rid in looks[m].unread
  }

  ghost predicate DeadAt(rid: RoundId, t: int, looks: seq<Look>, n: nat) {
    exists j: nat :: DeadFrom(rid, looks, j, n) && looks[j].time == t
  }

  /** The timer of the round in flight: it runs since the first of an unbroken line of dead looks. */
  ghost predicate TimerFair(f: Option<Record>, looks: seq<Look>, n: nat) {
    f.Some? ==>
      && (f.value.Sighted() ==> f.value.deadSince.None?)
      && (f.value.deadSince.Some? ==> DeadAt(f.value.rid, f.value.deadSince.value, looks, n))
  }

  /** Released in a look that had found it dead for the whole confirmation period, or else overdue. */
  ghost predicate ReleasedFairly(z: Record, looks: seq<Look>, cfg: Config) {
    if z.deadSince.Some? then
      && z.releasedAt - z.deadSince.value >= cfg.deadConfirm
      && exists n: nat :: EndsAt(z, looks, n)
    else z.releasedAt - z.t > cfg.gateSecs
  }

  ghost predicate EndsAt(z: Record, looks: seq<Look>, n: nat)
    requires z.deadSince.Some?
  {
    && n < |looks| && looks[n].time == z.releasedAt && looks[n].FindsDead(z.rid)
    && DeadAt(z.rid, z.deadSince.value, looks, n + 1)
  }

  ghost predicate Fair(s: State, cfg: Config) {
    TimerFair(s.inflight, s.looks, |s.looks|) && forall z | z in s.zombies :: ReleasedFairly(z, s.looks, cfg)
  }

  // ---- more looks ----

  lemma DeadLonger(rid: RoundId, t: int, looks: seq<Look>, look: Look, n: nat)
    requires DeadAt(rid, t, looks, n)
    ensures DeadAt(rid, t, looks + [look], n)
    ensures n == |looks| && (look.FindsDead(rid) || rid in look.unread) ==> DeadAt(rid, t, looks + [look], n + 1)
  {
    var j: nat :| DeadFrom(rid, looks, j, n) && looks[j].time == t;
    var more := looks + [look];
    assert DeadFrom(rid, more, j, n) && more[j].time == t;
    if n == |looks| && (look.FindsDead(rid) || rid in look.unread) {
      assert DeadFrom(rid, more, j, n + 1);
    }
  }

  lemma ReleasedStill(z: Record, looks: seq<Look>, look: Look, cfg: Config)
    requires ReleasedFairly(z, looks, cfg)
    ensures ReleasedFairly(z, looks + [look], cfg)
  {
    if z.deadSince.Some? {
      var n: nat :| EndsAt(z, looks, n);
      DeadLonger(z.rid, z.deadSince.value, looks, look, n + 1);
      assert EndsAt(z, looks + [look], n);
    }
  }

  // ---- a sweep leaves the timers of released rounds alone ----

  ghost predicate SameTimers(r: Record, r': Record) {
    r'.rid == r.rid && r'.t == r.t && r'.deadSince == r.deadSince && r'.releasedAt == r.releasedAt
  }

  ghost predicate TimersKept(s: State, look: Look, x: State) {
    && x.looks == s.looks + [look] && |x.zombies| == |s.zombies|
    && (forall j | 0 <= j < |s.zombies| :: SameTimers(s.zombies[j], x.zombies[j]))
    && (x.inflight.Some? <==> s.inflight.Some?)
    && (s.inflight.Some? ==>
        SameTimers(s.inflight.value, x.inflight.value) && x.inflight.value.okSince == s.inflight.value.okSince)
  }

  lemma ClaimTimers(s: State, look: Look, x: State, i: nat)
    requires TimersKept(s, look, x) && i < |x.zombies|
    ensures TimersKept(s, look, Claim(Sight(x, i, Some(look.time)), i))
    ensures TimersKept(s, look, Unclaim(Sight(x, i, None), i))
  {
  }

  lemma VisitTimers(s: State, look: Look, w: Sweeping, n: nat, cfg: Config, refused: set<nat>,
                    inv: (Sweeping, nat) -> bool)
    requires TimersKept(s, look, w.s) && n < |s.zombies| && inv == ((x: Sweeping, m: nat) => TimersKept(s, look, x.s))
    ensures inv(Visiting(look, cfg, refused)(w, n), n + 1)
  {
    ClaimTimers(s, look, w.s, n);
    FinalizeFresh(w.s, w.s.zombies[n], look.time, refused);
    VisitForms(w, n, look, cfg, refused, inv);
  }

  lemma VisitsKeepTimers(s: State, look: Look, cfg: Config, refused: set<nat>)
    ensures TimersKept(s, look, VisitUpTo(s, |s.zombies|, look, cfg, refused).s)
  {
    var start, step := Sweeping(s.(looks := s.looks + [look]), {}, {}), Visiting(look, cfg, refused);
    var inv := (w: Sweeping, n: nat) => TimersKept(s, look, w.s);
    forall w, i: nat | inv(w, i) && i < |s.zombies| ensures inv(step(w, i), i + 1) {
      VisitTimers(s, look, w, i, cfg, refused, inv);
    }
    IterateInduction(step, start, |s.zombies|, inv);
  }

  lemma SameReleased(z: Record, z': Record, looks: seq<Look>, cfg: Config)
    requires SameTimers(z, z') && ReleasedFairly(z, looks, cfg)
    ensures ReleasedFairly(z', looks, cfg)
  {
    if z.deadSince.Some? {
      var n: nat :| EndsAt(z, looks, n);
      assert EndsAt(z', looks, n);
    }
  }

  /** After the released rounds, the timer of the round in flight has not seen the last look. */
  ghost predicate FairButLast(s: State, look: Look, cfg: Config) {
    && s.looks != [] && s.looks[|s.looks| - 1] == look
    && TimerFair(s.inflight, s.looks, |s.looks| - 1)
    && forall z | z in s.zombies :: ReleasedFairly(z, s.looks, cfg)
  }

  lemma TimerLonger(f: Option<Record>, f': Option<Record>, looks: seq<Look>, look: Look)
    requires TimerFair(f, looks, |looks|)
             && (f'.Some? ==> f.Some? && SameTimers(f.value, f'.value) && f'.value.okSince == f.value.okSince)
    ensures TimerFair(f', looks + [look], |looks|)
  {
    if f'.Some? && f'.value.deadSince.Some? {
      DeadLonger(f.value.rid, f.value.deadSince.value, looks, look, |looks|);
    }
  }

  lemma ResolveZombiesFair(s: State, look: Look, cfg: Config, refused: set<nat>)
    requires Fair(s, cfg)
    ensures FairButLast(ResolveZombies(s, look, cfg, refused).s, look, cfg)
  {
    var w := VisitUpTo(s, |s.zombies|, look, cfg, refused);
    var zs := Survivors(w.s.zombies, w.gone, |w.s.zombies|);
    VisitsKeepTimers(s, look, cfg, refused);
    TimerLonger(s.inflight, w.s.inflight, s.looks, look);
    SurvivorsPick(w.s.zombies, w.gone, |w.s.zombies|);
    forall z | z in zs ensures ReleasedFairly(z, s.looks + [look], cfg) {
      var a :| 0 <= a < |zs| && zs[a] == z;
      var j := Places(w.gone, |w.s.zombies|)[a];
      assert s.zombies[j] in s.zombies;
      ReleasedStill(s.zombies[j], s.looks, look, cfg);
      SameReleased(s.zombies[j], z, s.looks + [look], cfg);
    }
  }

  // ---- the round in flight ----

  lemma DeadNow(rid: RoundId, looks: seq<Look>)
    requires looks != [] && looks[|looks| - 1].FindsDead(rid)
    ensures DeadAt(rid, looks[|looks| - 1].time, looks, |looks|)
  {
    assert DeadFrom(rid, looks, |looks| - 1, |looks|);
  }

  lemma DeadOn(rid: RoundId, t: int, looks: seq<Look>)
    requires looks != [] && (looks[|looks| - 1].FindsDead(rid) || rid in looks[|looks| - 1].unread)
    requires DeadAt(rid, t, looks, |looks| - 1)
    ensures DeadAt(rid, t, looks, |looks|)
  {
    var j: nat :| DeadFrom(rid, looks, j, |looks| - 1) && looks[j].time == t;
    assert DeadFrom(rid, looks, j, |looks|);
  }

  lemma AbandonFair(s: State, fr: Record, timeout: bool, look: Look, cfg: Config)
    requires FairButLast(s, look, cfg)
    requires ReleasedFairly(fr.(okSince := None, releasedAt := look.time), s.looks, cfg)
    ensures Fair(Abandon(s.(inflight := None), fr, look.time, timeout), cfg)
  {
    var out := fr.(okSince := None, releasedAt := look.time);
    TrimFrom(s.zombies + [out]);
    assert forall z | z in s.zombies + [out] :: z in s.zombies || z == out;
  }

  lemma DeadInflightFair(s: State, look: Look, cfg: Config, refused: set<nat>)
    requires FairButLast(s, look, cfg) && s.inflight.Some? && !s.inflight.value.Sighted()
             && look.FindsDead(s.inflight.value.rid)
    ensures Fair(ResolveInflight(s, look, cfg, refused), cfg)
  {
    var fr, now := s.inflight.value, look.time;
    var since := if fr.deadSince.Some? then fr.deadSince.value else now;
    var fr' := fr.(deadSince := Some(since));
    if fr.deadSince.Some? {
      DeadOn(fr.rid, since, s.looks);
    } else {
      DeadNow(fr.rid, s.looks);
    }
    if now - since >= cfg.deadConfirm {
      assert EndsAt(fr'.(okSince := None, releasedAt := now), s.looks, |s.looks| - 1);
      AbandonFair(s, fr', false, look, cfg);
    }
  }

  lemma ResolveInflightFair(s: State, look: Look, cfg: Config, refused: set<nat>)
    requires FairButLast(s, look, cfg)
    ensures Fair(ResolveInflight(s, look, cfg, refused), cfg)
  {
    if s.inflight.Some? {
      var fr := s.inflight.value;
      if fr.rid in look.unread {
        if fr.deadSince.Some? {
          DeadOn(fr.rid, fr.deadSince.value, s.looks);
        }
      } else if fr.rid in look.landed {
        FinalizeFresh(s.(inflight := None), fr.(deadSince := None), look.time, refused);
      } else if fr.Sighted() {
      } else if look.dead {
        DeadInflightFair(s, look, cfg, refused);
      } else if look.time - fr.t > cfg.gateSecs {
        AbandonFair(s, fr.(deadSince := None), true, look, cfg);
      }
    }
  }

  lemma SweepFair(s: State, look: Look, cfg: Config, refused: set<nat>)
    requires Fair(s, cfg)
    ensures Fair(Sweep(s, look, cfg, refused), cfg)
  {
    ResolveZombiesFair(s, look, cfg, refused);
    ResolveInflightFair(ResolveZombies(s, look, cfg, refused).s, look, cfg, refused);
  }

  lemma LookedFair(s: State, look: Look, cfg: Config, refused: set<nat>)
    requires Fair(s, cfg) && s.inflight.None?
    ensures Fair(Looked(s, look, cfg, refused).s, cfg) && Looked(s, look, cfg, refused).s.inflight.None?
  {
    VisitsNone(s, look, cfg, refused);
    if s.zombies != [] {
      ResolveZombiesFair(s, look, cfg, refused);
    }
  }

  lemma OpeningFair(s: State, a: BuildArgs, cfg: Config, refused: set<nat>)
    requires Fair(s, cfg) && s.inflight.None?
    ensures Fair(Opening(s, a, cfg, refused), cfg) && Opening(s, a, cfg, refused).inflight.None?
  {
    LookedFair(s.(gate := None), a.first, cfg, refused);
    ArriveAllRounds(Looked(s.(gate := None), a.first, cfg, refused).s, a.early);
  }

  lemma SecondedFair(s: State, a: BuildArgs, cfg: Config, refused: set<nat>)
    requires Fair(s, cfg) && s.inflight.None?
    ensures Fair(Underway(s, a), cfg) && Underway(s, a).inflight.None?
    ensures Fair(Seconded(s, a, cfg, refused), cfg) && Seconded(s, a, cfg, refused).inflight.None?
  {
    ArriveAllRounds(TakeBatch(s, a), a.middle);
    LookedFair(Underway(s, a), a.second, cfg, refused);
    ArriveAllRounds(Looked(Underway(s, a), a.second, cfg, refused).s, a.late);
  }

  lemma BuildFair(s: State, a: BuildArgs, cfg: Config, refused: set<nat>)
    requires Fair(s, cfg)
    ensures Fair(Build(s, a, cfg, refused), cfg)
  {
    if !Gated(s, a.now) {
      OpeningFair(s, a, cfg, refused);
      SecondedFair(Opening(s, a, cfg, refused), a, cfg, refused);
      BuildRecords(s, a, cfg, refused);
    }
  }
}

/** No round is settled on a single reading of the chain. */
module LifecycleSightings {
  import opened Sequences
  import opened Orders
  import opened Lifecycle
  import opened LifecycleReceipts
  import opened LifecycleClaims
  import opened LifecycleSweeps
  import opened LifecycleReleases

  /** Round `rid` read as landed in look `j`, and in every look up to `n` that could read it. */
  ghost predicate SeenFrom(rid: RoundId, looks: seq<Look>, j: nat, n: nat) {
    j < n <= |looks| && looks[j].Reads(rid) && forall m | j <= m < n :: rid in looks[m].landed || rid in looks[m].unread
  }

  /** A sighting that began at time `t` has held in every look since, of the first `n`. */
  ghost predicate SightedAt(rid: RoundId, t: int, looks: seq<Look>, n: nat) {
    exists j: nat :: SeenFrom(rid, looks, j, n) && looks[j].time == t
  }

  ghost predicate Watched(r: Record, looks: seq<Look>, n: nat) {
    r.Sighted() ==> SightedAt(r.rid, r.okSince.value, looks, n)
  }

  ghost predicate WatchedAll(f: Option<Record>, zs: seq<Record>, looks: seq<Look>) {
    && (f.Some? ==> Watched(f.value, looks, |looks|))
    && (forall j | 0 <= j < |zs| :: Watched(zs[j], looks, |looks|))
  }

  /** The receipt's round read as landed in an earlier look, in the look that settled it and in
      every look between that could read it; and the last look found it durable. */
  ghost predicate Proved(rc: Receipt, looks: seq<Look>, cfg: Config) {
    && rc.look < |looks|
    && exists j: nat :: Spans(rc.rid, looks, j, rc.look, cfg)
  }

  ghost predicate Spans(rid: RoundId, looks: seq<Look>, j: nat, n: nat, cfg: Config) {
    && j < n < |looks| && SeenFrom(rid, looks, j, n + 1) && looks[n].Reads(rid)
    && Durably(rid, looks[j].time, looks[n], cfg)
  }

  /** Final where finality can be read; elsewhere, or where finality has stalled or a hold is set,
      first read long enough ago: at least the hold, and never less than `MIN_CONFIRM`. */
  ghost predicate Durably(rid: RoundId, since: int, look: Look, cfg: Config) {
    rid !in look.unsure &&
    (|| (look.readsFinal && rid in look.final)
     || (&& (look.readsFinal && look.advancing ==> cfg.hold.Some?)
         && look.time - since >= MIN_CONFIRM
         && (cfg.hold.Some? ==> look.time - since >= cfg.hold.value)
         && (cfg.hold.None? && !look.advancing ==> look.time - since >= cfg.stallHold)))
  }

  ghost predicate ProvedAll(log: seq<Receipt>, looks: seq<Look>, cfg: Config) {
    forall rc | rc in log :: Proved(rc, looks, cfg)
  }

  ghost predicate TwiceSighted(s: State, cfg: Config) {
    WatchedAll(s.inflight, s.zombies, s.looks) && ProvedAll(s.log, s.looks, cfg)
  }

  // ---- more looks ----

  lemma SeenLonger(rid: RoundId, looks: seq<Look>, look: Look, j: nat, n: nat)
    requires SeenFrom(rid, looks, j, n)
    ensures SeenFrom(rid, looks + [look], j, n)
    ensures n == |looks| && (rid in look.landed || rid in look.unread) ==> SeenFrom(rid, looks + [look], j, n + 1)
  {
  }

  lemma WatchedLonger(r: Record, looks: seq<Look>, look: Look)
    requires Watched(r, looks, |looks|)
    ensures Watched(r, looks + [look], |looks|)
    ensures r.rid in look.landed || r.rid in look.unread ==> Watched(r, looks + [look], |looks| + 1)
  {
    if r.Sighted() {
      var j: nat :| SeenFrom(r.rid, looks, j, |looks|) && looks[j].time == r.okSince.value;
      SeenLonger(r.rid, looks, look, j, |looks|);
    }
  }

  lemma ProvedLonger(log: seq<Receipt>, looks: seq<Look>, look: Look, cfg: Config)
    requires ProvedAll(log, looks, cfg)
    ensures ProvedAll(log, looks + [look], cfg)
  {
    forall rc | rc in log ensures Proved(rc, looks + [look], cfg) {
      var j: nat :| Spans(rc.rid, looks, j, rc.look, cfg);
      assert Spans(rc.rid, looks + [look], j, rc.look, cfg);
    }
  }

  // ---- one sweep over the released rounds ----

  /** Watched up to the last look, whose reading has not been taken into account. */
  ghost predicate Pending(r: Record, looks: seq<Look>) {
    looks != [] && Watched(r, looks, |looks| - 1)
  }

  ghost predicate Midwatch(w: Sweeping, n: nat, look: Look, cfg: Config) {
    && w.s.looks != [] && w.s.looks[|w.s.looks| - 1] == look
    && (w.s.inflight.Some? ==> Pending(w.s.inflight.value, w.s.looks))
    && (forall j | 0 <= j < n && j < |w.s.zombies| && j !in w.gone :: Watched(w.s.zombies[j], w.s.looks, |w.s.looks|))
    && (forall j | n <= j < |w.s.zombies| :: Pending(w.s.zombies[j], w.s.looks))
    && ProvedAll(w.s.log, w.s.looks, cfg)
  }

  lemma MidwatchStarts(s: State, look: Look, cfg: Config)
    requires TwiceSighted(s, cfg)
    ensures Midwatch(Sweeping(s.(looks := s.looks + [look]), {}, {}), 0, look, cfg)
  {
    if s.inflight.Some? {
      WatchedLonger(s.inflight.value, s.looks, look);
    }
    forall j | 0 <= j < |s.zombies| ensures Pending(s.zombies[j], s.looks + [look]) {
      WatchedLonger(s.zombies[j], s.looks, look);
    }
    ProvedLonger(s.log, s.looks, look, cfg);
  }

  lemma PendingSeen(r: Record, looks: seq<Look>)
    requires Pending(r, looks) && (r.rid in looks[|looks| - 1].landed || r.rid in looks[|looks| - 1].unread)
    ensures Watched(r, looks, |looks|)
  {
    if r.Sighted() {
      var j: nat :| SeenFrom(r.rid, looks, j, |looks| - 1) && looks[j].time == r.okSince.value;
      assert SeenFrom(r.rid, looks, j, |looks|);
    }
  }

  /** Where receipts come from: the round `rid`, in the last look. */
  ghost predicate FreshFrom(log: seq<Receipt>, log': seq<Receipt>, rid: RoundId, n: nat) {
    forall rc | rc in log' :: rc in log || (rc.rid == rid && rc.look == n)
  }

  lemma FinalizeFresh(s: State, rec: Record, now: int, refused: set<nat>)
    requires s.looks != []
    ensures FreshFrom(s.log, Finalize(s, rec, now, refused).log, rec.rid, |s.looks| - 1)
    ensures var s' := Finalize(s, rec, now, refused);
            s'.looks == s.looks && s'.inflight == s.inflight && s'.zombies == s.zombies
  {
    var inv := (x: State, rest: seq<Order>) =>
      FreshFrom(s.log, x.log, rec.rid, |s.looks| - 1) && x.looks == s.looks && x.inflight == s.inflight
        && x.zombies == s.zombies;
    ReceiptInduction(s, rec.rid, Filter(rec.Orders(), FreeOf(rec.claimed.Keys)), rec.fills, now, refused, inv);
  }

  /** Confirmation of a watched round is a second reading, apart from the first. */
  lemma ConfirmedSpans(r: Record, looks: seq<Look>, cfg: Config) returns (j: nat)
    requires Pending(r, looks) && r.Sighted() && looks[|looks| - 1].Reads(r.rid)
             && Confirmed(r, looks[|looks| - 1], cfg)
    ensures Spans(r.rid, looks, j, |looks| - 1, cfg)
  {
    j :| SeenFrom(r.rid, looks, j, |looks| - 1) && looks[j].time == r.okSince.value;
    assert SeenFrom(r.rid, looks, j, |looks|);
  }

  lemma SettledProved(log: seq<Receipt>, log': seq<Receipt>, r: Record, looks: seq<Look>, cfg: Config)
    requires ProvedAll(log, looks, cfg) && looks != [] && FreshFrom(log, log', r.rid, |looks| - 1)
    requires Pending(r, looks) && r.Sighted() && looks[|looks| - 1].Reads(r.rid)
             && Confirmed(r, looks[|looks| - 1], cfg)
    ensures ProvedAll(log', looks, cfg)
  {
    var j := ConfirmedSpans(r, looks, cfg);
  }

  lemma MidwatchSettled(w: Sweeping, s': State, n: nat, look: Look, cfg: Config)
    requires Midwatch(w, n, look, cfg) && n < |w.s.zombies| && ProvedAll(s'.log, w.s.looks, cfg)
    requires s'.looks == w.s.looks && s'.inflight == w.s.inflight && s'.zombies == w.s.zombies
    ensures Midwatch(Sweeping(s', w.gone + {n}, w.took), n + 1, look, cfg)
  {
    forall j | 0 <= j < n + 1 && j < |w.s.zombies| && j !in w.gone + {n}
      ensures Watched(w.s.zombies[j], w.s.looks, |w.s.looks|)
    {
      assert j < n && j !in w.gone;
    }
    forall j | n + 1 <= j < |w.s.zombies| ensures Pending(w.s.zombies[j], w.s.looks) {}
  }

  lemma MidwatchSettles(w: Sweeping, n: nat, look: Look, cfg: Config, refused: set<nat>)
    requires Midwatch(w, n, look, cfg) && n < |w.s.zombies|
    requires var z := w.s.zombies[n]; z.Sighted() && look.Reads(z.rid) && Confirmed(z, look, cfg)
    ensures Midwatch(Sweeping(Finalize(w.s, w.s.zombies[n], look.time, refused), w.gone + {n}, w.took),
                     n + 1, look, cfg)
  {
    var z := w.s.zombies[n];
    FinalizeFresh(w.s, z, look.time, refused);
    SettledProved(w.s.log, Finalize(w.s, z, look.time, refused).log, z, w.s.looks, cfg);
    MidwatchSettled(w, Finalize(w.s, z, look.time, refused), n, look, cfg);
  }

  lemma SightedNow(r: Record, looks: seq<Look>)
    requires looks != [] && r.okSince == Some(looks[|looks| - 1].time) && looks[|looks| - 1].Reads(r.rid)
    ensures Watched(r, looks, |looks|)
  {
    assert SeenFrom(r.rid, looks, |looks| - 1, |looks|);
  }

  lemma MidwatchClaims(w: Sweeping, n: nat, look: Look, cfg: Config, took: set<Key>)
    requires Midwatch(w, n, look, cfg) && n < |w.s.zombies| && !w.s.zombies[n].Sighted()
             && look.Reads(w.s.zombies[n].rid)
    ensures Midwatch(Sweeping(Claim(Sight(w.s, n, Some(look.time)), n), w.gone, took), n + 1, look, cfg)
  {
    var s' := Claim(Sight(w.s, n, Some(look.time)), n);
    ClaimShape(w.s, n, look.time);
    SightedNow(s'.zombies[n], w.s.looks);
    forall j | 0 <= j < |s'.zombies| && j != n
      ensures forall m :: Watched(w.s.zombies[j], w.s.looks, m) ==> Watched(s'.zombies[j], w.s.looks, m)
    {
    }
    assert w.s.inflight.Some? ==> s'.inflight.value.okSince == w.s.inflight.value.okSince;
  }

  lemma MidwatchSinks(w: Sweeping, n: nat, look: Look, cfg: Config)
    requires Midwatch(w, n, look, cfg) && n < |w.s.zombies| && w.s.zombies[n].Sighted()
    ensures Midwatch(w.(s := Unclaim(Sight(w.s, n, None), n)), n + 1, look, cfg)
  {
    var s' := Unclaim(Sight(w.s, n, None), n);
    UnclaimShape(w.s, n);
    forall j | 0 <= j < |s'.zombies| && j != n
      ensures forall m :: Watched(w.s.zombies[j], w.s.looks, m) ==> Watched(s'.zombies[j], w.s.looks, m)
    {
    }
    assert w.s.inflight.Some? ==> s'.inflight.value.okSince == w.s.inflight.value.okSince;
  }

  lemma MidwatchForgets(w: Sweeping, n: nat, look: Look, cfg: Config)
    requires Midwatch(w, n, look, cfg) && n < |w.s.zombies|
    ensures Midwatch(w.(gone := w.gone + {n}), n + 1, look, cfg)
  {
    MidwatchSettled(w, w.s, n, look, cfg);
  }

  lemma MidwatchStays(w: Sweeping, n: nat, look: Look, cfg: Config)
    requires Midwatch(w, n, look, cfg) && n < |w.s.zombies|
    requires var z := w.s.zombies[n]; z.Sighted() ==> z.rid in look.landed || z.rid in look.unread
    ensures Midwatch(w, n + 1, look, cfg)
  {
    if w.s.zombies[n].Sighted() {
      PendingSeen(w.s.zombies[n], w.s.looks);
    }
  }

  lemma MidwatchForms(w: Sweeping, n: nat, look: Look, cfg: Config, refused: set<nat>, inv: (Sweeping, nat) -> bool)
    requires Midwatch(w, n, look, cfg) && n < |w.s.zombies|
             && inv == ((x: Sweeping, m: nat) => Midwatch(x, m, look, cfg))
    ensures inv(Visiting(look, cfg, refused)(w, n), n + 1)
  {
    var z := w.s.zombies[n];
    if z.Sighted() && z.rid !in look.landed && z.rid !in look.unread {
      MidwatchSinks(w, n, look, cfg);
    } else {
      MidwatchStays(w, n, look, cfg);
    }
    if z.Sighted() && look.Reads(z.rid) && Confirmed(z, look, cfg) {
      MidwatchSettles(w, n, look, cfg, refused);
    }
    if !z.Sighted() && look.Reads(z.rid) {
      MidwatchClaims(w, n, look, cfg, w.took + z.rid.keys);
    }
    MidwatchForgets(w, n, look, cfg);
    VisitForms(w, n, look, cfg, refused, inv);
  }

  lemma MidwatchEnds(s: State, look: Look, cfg: Config, refused: set<nat>)
    requires TwiceSighted(s, cfg)
    ensures Midwatch(VisitUpTo(s, |s.zombies|, look, cfg, refused), |s.zombies|, look, cfg)
    ensures |VisitUpTo(s, |s.zombies|, look, cfg, refused).s.zombies| == |s.zombies|
  {
    MidwatchStarts(s, look, cfg);
    var start, step := Sweeping(s.(looks := s.looks + [look]), {}, {}), Visiting(look, cfg, refused);
    var mid := (w: Sweeping, n: nat) => Midwatch(w, n, look, cfg);
    var size := (w: Sweeping, n: nat) => |w.s.zombies| == |s.zombies|;
    var inv := (w: Sweeping, n: nat) => mid(w, n) && size(w, n);
    forall w, i: nat | inv(w, i) && i < |s.zombies| ensures inv(step(w, i), i + 1) {
      MidwatchForms(w, i, look, cfg, refused, mid);
      FinalizeFresh(w.s, w.s.zombies[i], look.time, refused);
      VisitForms(w, i, look, cfg, refused, size);
    }
    IterateInduction(step, start, |s.zombies|, inv);
  }

  // ---- the rest of a sweep, and the other steps ----

  /** The records of `zs'` are records of `zs`, at the same round and sighting. */
  ghost predicate FromWatched(zs: seq<Record>, zs': seq<Record>) {
    forall z | z in zs' :: !z.Sighted() || z in zs
  }

  lemma WatchedSubset(zs: seq<Record>, zs': seq<Record>, looks: seq<Look>)
    requires FromWatched(zs, zs') && forall j | 0 <= j < |zs| :: Watched(zs[j], looks, |looks|)
    ensures forall j | 0 <= j < |zs'| :: Watched(zs'[j], looks, |looks|)
  {
    forall j | 0 <= j < |zs'| ensures Watched(zs'[j], looks, |looks|) {
      assert zs'[j] in zs';
      if zs'[j].Sighted() {
        var i :| 0 <= i < |zs| && zs[i] == zs'[j];
      }
    }
  }

  /** After the released rounds, the round in flight still waits for the last look. */
  ghost predicate Afterwatch(s: State, look: Look, cfg: Config) {
    && s.looks != [] && s.looks[|s.looks| - 1] == look
    && (s.inflight.Some? ==> Pending(s.inflight.value, s.looks))
    && (forall j | 0 <= j < |s.zombies| :: Watched(s.zombies[j], s.looks, |s.looks|))
    && ProvedAll(s.log, s.looks, cfg)
  }

  lemma ResolveZombiesWatches(s: State, look: Look, cfg: Config, refused: set<nat>)
    requires TwiceSighted(s, cfg)
    ensures Afterwatch(ResolveZombies(s, look, cfg, refused).s, look, cfg)
  {
    var w := VisitUpTo(s, |s.zombies|, look, cfg, refused);
    MidwatchEnds(s, look, cfg, refused);
    SurvivorsPick(w.s.zombies, w.gone, |w.s.zombies|);
  }

  lemma {:induction false} TrimFrom(zs: seq<Record>)
    ensures forall z | z in Trim(zs) :: z in zs
    decreases |zs|
  {
    var i := FirstUnsighted(zs);
    if |zs| > ZOMBIE_CAP && i < |zs| {
      TrimFrom(zs[..i] + zs[i+1..]);
    }
  }

  lemma AbandonWatches(s: State, fr: Record, now: int, timeout: bool, look: Look, cfg: Config)
    requires Afterwatch(s, look, cfg)
    ensures TwiceSighted(Abandon(s.(inflight := None), fr, now, timeout), cfg)
  {
    var out := fr.(okSince := None, releasedAt := now);
    TrimFrom(s.zombies + [out]);
    WatchedSubset(s.zombies, Trim(s.zombies + [out]), s.looks);
  }

  lemma LandedWatches(s: State, look: Look, cfg: Config, refused: set<nat>)
    requires Afterwatch(s, look, cfg) && s.inflight.Some? && s.inflight.value.Sighted()
             && look.Reads(s.inflight.value.rid)
    requires Confirmed(s.inflight.value, look, cfg)
    ensures TwiceSighted(Finalize(s.(inflight := None), s.inflight.value.(deadSince := None), look.time, refused), cfg)
  {
    var fr, s1 := s.inflight.value, s.(inflight := None);
    FinalizeFresh(s1, fr.(deadSince := None), look.time, refused);
    SettledProved(s.log, Finalize(s1, fr.(deadSince := None), look.time, refused).log, fr, s.looks, cfg);
  }

  lemma LandedInflightWatches(s: State, look: Look, cfg: Config, refused: set<nat>)
    requires Afterwatch(s, look, cfg) && s.inflight.Some? && look.Reads(s.inflight.value.rid)
    ensures TwiceSighted(ResolveInflight(s, look, cfg, refused), cfg)
  {
    var fr := s.inflight.value;
    if !fr.Sighted() {
      SightedNow(fr.(deadSince := None).(okSince := Some(look.time)), s.looks);
    } else if Confirmed(fr, look, cfg) && !InflightRival(s, fr, look) {
      LandedWatches(s, look, cfg, refused);
    } else {
      PendingSeen(fr, s.looks);
      assert Watched(fr.(deadSince := None), s.looks, |s.looks|);
    }
  }

  lemma ResolveInflightWatches(s: State, look: Look, cfg: Config, refused: set<nat>)
    requires Afterwatch(s, look, cfg)
    ensures TwiceSighted(ResolveInflight(s, look, cfg, refused), cfg)
  {
    if s.inflight.Some? && s.inflight.value.rid in look.unread {
      PendingSeen(s.inflight.value, s.looks);
    } else if s.inflight.Some? && s.inflight.value.rid in look.landed {
      LandedInflightWatches(s, look, cfg, refused);
    } else if s.inflight.Some? && !s.inflight.value.Sighted() {
      var fr, now := s.inflight.value, look.time;
      var since := if fr.deadSince.Some? then fr.deadSince.value else now;
      AbandonWatches(s, fr.(deadSince := Some(since)), now, false, look, cfg);
      AbandonWatches(s, fr.(deadSince := None), now, true, look, cfg);
    }
  }

  lemma SweepWatches(s: State, look: Look, cfg: Config, refused: set<nat>)
    requires TwiceSighted(s, cfg)
    ensures TwiceSighted(Sweep(s, look, cfg, refused), cfg)
  {
    ResolveZombiesWatches(s, look, cfg, refused);
    ResolveInflightWatches(ResolveZombies(s, look, cfg, refused).s, look, cfg, refused);
  }

  lemma LookedWatches(s: State, look: Look, cfg: Config, refused: set<nat>)
    requires TwiceSighted(s, cfg) && s.inflight.None?
    ensures TwiceSighted(Looked(s, look, cfg, refused).s, cfg)
  {
    if s.zombies != [] {
      ResolveZombiesWatches(s, look, cfg, refused);
      assert ResolveZombies(s, look, cfg, refused).s.inflight.None? by { VisitsNone(s, look, cfg, refused); }
    }
  }

  lemma VisitsNone(s: State, look: Look, cfg: Config, refused: set<nat>)
    requires s.inflight.None?
    ensures VisitUpTo(s, |s.zombies|, look, cfg, refused).s.inflight.None?
  {
    var start, step := Sweeping(s.(looks := s.looks + [look]), {}, {}), Visiting(look, cfg, refused);
    var inv := (w: Sweeping, n: nat) => w.s.inflight.None? && w.s.looks != [] && |w.s.zombies| == |s.zombies|;
    forall w, i: nat | inv(w, i) && i < |s.zombies| ensures inv(step(w, i), i + 1) {
      FinalizeFresh(w.s, w.s.zombies[i], look.time, refused);
      VisitForms(w, i, look, cfg, refused, inv);
    }
    IterateInduction(step, start, |s.zombies|, inv);
  }
}

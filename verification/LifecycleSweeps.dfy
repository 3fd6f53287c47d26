/** One sweep over the released rounds and the round in flight keeps the invariant. */
module LifecycleSweeps {
  import opened Sequences
  import opened Orders
  import opened Lifecycle
  import opened LifecycleInvariants
  import opened LifecycleReceipts
  import opened LifecycleSettling
  import opened LifecycleClaims

  // ---- half way through the released rounds ----

  function Midpoint(zs: seq<Record>, w: Sweeping, look: Look, held: set<Key>): Ctx {
    Ctx(w.gone, held, Fin(w.s.log), SightedRids(zs), SightedRids(zs) - look.landed)
  }

  /** The records are those the sweep started from, and from `n` on as they were. */
  ghost predicate Tracks(zs: seq<Record>, w: Sweeping, n: nat) {
    && |w.s.zombies| == |zs|
    && (forall j | 0 <= j < |zs| :: w.s.zombies[j].rid == zs[j].rid)
    && (forall j | n <= j < |zs| :: w.s.zombies[j].okSince == zs[j].okSince && j !in w.gone)
  }

  /** The rounds visited so far: the sighted ones read as landed, and the newly sighted ones
      hold what the sweep took. */
  ghost predicate Swept(w: Sweeping, n: nat, prior: set<RoundId>, landed: set<RoundId>) {
    && (forall j | 0 <= j < n && Holds(w.s.zombies, w.gone, j) ::
          var r := w.s.zombies[j].rid; r in landed && (r in prior || r.keys <= w.took))
    && (forall j | 0 <= j < |w.s.zombies| && j in w.gone && w.s.zombies[j].Sighted() ::
        w.s.zombies[j].rid.keys <= Fin(w.s.log))
    && (forall k | k in w.took :: exists j ::
        0 <= j < n && Holds(w.s.zombies, w.gone, j) && k in w.s.zombies[j].rid.keys)
  }

  ghost predicate Midway(zs: seq<Record>, w: Sweeping, n: nat, look: Look, held: set<Key>) {
    && Tracks(zs, w, n) && n <= |zs|
    && Swept(w, n, SightedRids(zs), look.landed)
    && Believable(look, w.s.log)
    && Core(w.s, Midpoint(zs, w, look, held))
  }

  lemma UnvisitedPrior(zs: seq<Record>, w: Sweeping, n: nat, j: nat)
    requires Tracks(zs, w, n) && n <= j < |zs| && w.s.zombies[j].Sighted()
    ensures w.s.zombies[j].rid in SightedRids(zs)
  {
  }

  lemma UnsightedPrior(zs: seq<Record>, w: Sweeping, n: nat, i: nat)
    requires Tracks(zs, w, n) && n <= i < |zs| && !w.s.zombies[i].Sighted() && RidsApart(w.s.inflight, w.s.zombies)
    requires w.s.zombies[i].rid in SightedRids(zs)
    ensures w.s.zombies[i].rid.keys == {}
  {
    var j :| 0 <= j < |zs| && zs[j].Sighted() && zs[j].rid == w.s.zombies[i].rid;
    assert i != j && w.s.zombies[i].rid == w.s.zombies[j].rid;
  }

  // ---- the ways a visit can go ----

  /** Unsighted rounds can be forgotten. */
  lemma ForgetKeeps(s: State, c: Ctx, drop: set<nat>)
    requires Core(s, c) && forall j | 0 <= j < |s.zombies| && j in drop :: !s.zombies[j].Sighted()
    ensures Core(s, c.(gone := c.gone + drop))
  {
    var gone' := c.gone + drop;
    FewerRounds(s.inflight, s.zombies, c.gone, gone', s.accepted, KeySet(s.retry), KeySet(s.pending), c.prior, c.stale);
    FewerLive(s.zombies, c.gone, gone');
    assert forall j | Holds(s.zombies, c.gone, j) :: Holds(s.zombies, gone', j);
    ForgetBacked(s.inflight, s.zombies, c.gone, c.fin, drop);
    forall k | InCustody(k, s, c.gone) ensures InCustody(k, s, gone') {}
  }

  lemma ForgetBacked(f: Option<Record>, zs: seq<Record>, gone: set<nat>, fin: set<Key>, drop: set<nat>)
    requires Backed(f, zs, gone, fin) && forall j | 0 <= j < |zs| && j in drop :: !zs[j].Sighted()
    ensures Backed(f, zs, gone + drop, fin)
  {
    assert forall j | Holds(zs, gone, j) :: Holds(zs, gone + drop, j);
    assert forall r, k | Holder(zs, gone, r, k) :: Holder(zs, gone + drop, r, k);
    forall r | BackedOn(r, zs, gone, fin) ensures BackedOn(r, zs, gone + drop, fin) {}
    FewerLive(zs, gone, gone + drop);
  }

  /** A round stays as it is. */
  lemma MidwayStays(zs: seq<Record>, w: Sweeping, n: nat, look: Look, held: set<Key>)
    requires Midway(zs, w, n, look, held) && n < |zs|
    requires w.s.zombies[n].Sighted() ==> w.s.zombies[n].rid in look.landed
    ensures Midway(zs, w, n + 1, look, held)
  {
    if w.s.zombies[n].Sighted() {
      UnvisitedPrior(zs, w, n, n);
    }
    SweptOn(w, n, SightedRids(zs), look.landed);
  }

  lemma SweptOn(w: Sweeping, n: nat, prior: set<RoundId>, landed: set<RoundId>)
    requires Swept(w, n, prior, landed) && n < |w.s.zombies|
    requires Holds(w.s.zombies, w.gone, n) ==> w.s.zombies[n].rid in landed && w.s.zombies[n].rid in prior
    ensures Swept(w, n + 1, prior, landed)
  {
    forall k | k in w.took
      ensures exists j :: 0 <= j < n + 1 && Holds(w.s.zombies, w.gone, j) && k in w.s.zombies[j].rid.keys
    {
      var j :| 0 <= j < n && Holds(w.s.zombies, w.gone, j) && k in w.s.zombies[j].rid.keys;
    }
  }

  lemma MidwayForgets(zs: seq<Record>, w: Sweeping, n: nat, look: Look, held: set<Key>)
    requires Midway(zs, w, n, look, held) && n < |zs| && !w.s.zombies[n].Sighted()
    ensures Midway(zs, w.(gone := w.gone + {n}), n + 1, look, held)
  {
    ForgetKeeps(w.s, Midpoint(zs, w, look, held), {n});
    SweptWithout(w, w.s, n, SightedRids(zs), look.landed);
  }

  /** Dropping round `n`, unsighted or settled. */
  lemma SweptWithout(w: Sweeping, s': State, n: nat, prior: set<RoundId>, landed: set<RoundId>)
    requires Swept(w, n, prior, landed) && n < |w.s.zombies| && s'.zombies == w.s.zombies && Fin(w.s.log) <= Fin(s'.log)
    requires w.s.zombies[n].Sighted() ==> w.s.zombies[n].rid.keys <= Fin(s'.log)
    ensures Swept(Sweeping(s', w.gone + {n}, w.took), n + 1, prior, landed)
  {
    var zs, gone' := w.s.zombies, w.gone + {n};
    forall k | k in w.took ensures exists j :: 0 <= j < n + 1 && Holds(zs, gone', j) && k in zs[j].rid.keys {
      var j :| 0 <= j < n && Holds(zs, w.gone, j) && k in zs[j].rid.keys;
      assert Holds(zs, gone', j);
    }
  }

  // ---- finalizing ----

  /** Every receipt of `log'` was already in `log` or belongs to round `rid`. */
  ghost predicate LogFrom(log: seq<Receipt>, log': seq<Receipt>, rid: RoundId) {
    forall rc | rc in log' :: rc in log || rc.rid == rid
  }

  lemma FinalizeLog(s: State, rec: Record, now: int, refused: set<nat>)
    ensures LogFrom(s.log, Finalize(s, rec, now, refused).log, rec.rid)
    ensures forall rc | rc in s.log :: rc in Finalize(s, rec, now, refused).log
  {
    var inv := (x: State, rest: seq<Order>) => LogFrom(s.log, x.log, rec.rid) && forall rc | rc in s.log :: rc in x.log;
    ReceiptInduction(s, rec.rid, Filter(rec.Orders(), FreeOf(rec.claimed.Keys)), rec.fills, now, refused, inv);
  }

  ghost predicate Receipted(log: seq<Receipt>, rid: RoundId, k: Key) {
    exists rc :: rc in log && rc.rid == rid && rc.key == k
  }

  /** A round is settled for all its orders or for none. */
  ghost predicate Whole(log: seq<Receipt>) {
    forall rc, k | rc in log && k in rc.rid.keys :: Receipted(log, rc.rid, k)
  }

  lemma SettledWhole(log: seq<Receipt>, log': seq<Receipt>, rid: RoundId)
    requires Whole(log) && LogFrom(log, log', rid) && (forall rc | rc in log :: rc in log')
    requires Fin(log') == Fin(log) + rid.keys && rid.keys !! Fin(log)
    ensures Whole(log')
  {
    forall rc, k | rc in log' && k in rc.rid.keys ensures Receipted(log', rc.rid, k) {
      if rc in log {
        var rc' :| rc' in log && rc'.rid == rc.rid && rc'.key == k;
      } else {
        assert k in Fin(log');
        var rc' :| rc' in log' && rc'.key == k;
        assert rc' in log ==> k in Fin(log);
      }
    }
  }

  lemma StillDurable(landed: set<RoundId>, log: seq<Receipt>, log': seq<Receipt>, rid: RoundId)
    requires Durable(landed, log) && Consistent(landed) && LogFrom(log, log', rid) && rid in landed
    requires forall rc | rc in log' :: rc.key in rc.rid.keys
    ensures Durable(landed, log')
  {
  }

  lemma MidwaySettled(zs: seq<Record>, w: Sweeping, n: nat, look: Look, held: set<Key>, s': State)
    requires Tracks(zs, w, n) && n < |zs| && Swept(w, n, SightedRids(zs), look.landed) && Believable(look, w.s.log)
    requires var r := w.s.zombies[n].rid;
             r in look.landed && LogFrom(w.s.log, s'.log, r) && Fin(s'.log) == Fin(w.s.log) + r.keys
    requires Framed(w.s, s') && Core(s', Settle(Midpoint(zs, w, look, held), n, w.s.zombies[n].rid.keys))
    ensures Midway(zs, Sweeping(s', w.gone + {n}, w.took), n + 1, look, held)
  {
    StillDurable(look.landed, w.s.log, s'.log, w.s.zombies[n].rid);
    SweptWithout(w, s', n, SightedRids(zs), look.landed);
  }

  lemma MidwaySettles(zs: seq<Record>, w: Sweeping, n: nat, look: Look, held: set<Key>, refused: set<nat>)
    requires Midway(zs, w, n, look, held) && n < |zs| && w.s.zombies[n].Sighted() && w.s.zombies[n].rid in look.landed
    ensures Midway(zs, Sweeping(Finalize(w.s, w.s.zombies[n], look.time, refused), w.gone + {n}, w.took),
                   n + 1, look, held)
  {
    var z := w.s.zombies[n];
    UnvisitedPrior(zs, w, n, n);
    ZombieFinalizes(w.s, Midpoint(zs, w, look, held), n, look.time, refused);
    FinalizeLog(w.s, z, look.time, refused);
    MidwaySettled(zs, w, n, look, held, Finalize(w.s, z, look.time, refused));
  }

  // ---- sighting and un-sighting ----

  lemma MidwayClaims(zs: seq<Record>, w: Sweeping, n: nat, look: Look, held: set<Key>)
    requires Midway(zs, w, n, look, held) && n < |zs| && !w.s.zombies[n].Sighted() && w.s.zombies[n].rid in look.landed
    ensures Midway(zs, Sweeping(Claim(Sight(w.s, n, Some(look.time)), n), w.gone, w.took + w.s.zombies[n].rid.keys),
                   n + 1, look, held)
  {
    var c := Midpoint(zs, w, look, held);
    var s' := Claim(Sight(w.s, n, Some(look.time)), n);
    MidwaySurfacing(zs, w, n, look, held);
    ClaimKeeps(w.s, c, n, look.time, look.landed);
    ClaimShape(w.s, n, look.time);
    SweptClaim(w, s', n, SightedRids(zs), look.landed);
  }

  lemma MidwaySurfacing(zs: seq<Record>, w: Sweeping, n: nat, look: Look, held: set<Key>)
    requires Midway(zs, w, n, look, held) && n < |zs| && !w.s.zombies[n].Sighted() && w.s.zombies[n].rid in look.landed
    ensures Surfacing(w.s.zombies, Midpoint(zs, w, look, held), n, look.landed)
  {
    var c := Midpoint(zs, w, look, held);
    if w.s.zombies[n].rid in c.prior {
      UnsightedPrior(zs, w, n, n);
    }
    forall j: nat | Holds(w.s.zombies, c.gone, j)
      ensures w.s.zombies[j].rid in look.landed || w.s.zombies[j].rid in c.stale
    {
      if n <= j {
        UnvisitedPrior(zs, w, n, j);
      }
    }
  }

  lemma SweptClaim(w: Sweeping, s': State, n: nat, prior: set<RoundId>, landed: set<RoundId>)
    requires Swept(w, n, prior, landed) && n < |w.s.zombies| && n !in w.gone && w.s.zombies[n].rid in landed
    requires Claims(w.s.inflight, w.s.zombies, s'.inflight, s'.zombies, n) && s'.log == w.s.log
    ensures Swept(Sweeping(s', w.gone, w.took + w.s.zombies[n].rid.keys), n + 1, prior, landed)
  {
    var zs, zs', took' := w.s.zombies, s'.zombies, w.took + w.s.zombies[n].rid.keys;
    SameLive(zs, zs', w.gone, n, w.s.inflight, s'.inflight);
    assert Holds(zs', w.gone, n);
    forall k | k in took' ensures exists j :: 0 <= j < n + 1 && Holds(zs', w.gone, j) && k in zs'[j].rid.keys {
      if k in w.took {
        var j :| 0 <= j < n && Holds(zs, w.gone, j) && k in zs[j].rid.keys;
        assert Holds(zs', w.gone, j);
      }
    }
  }

  lemma MidwaySinking(zs: seq<Record>, w: Sweeping, n: nat, look: Look, held: set<Key>)
    requires Tracks(zs, w, n) && n < |zs| && Swept(w, n, SightedRids(zs), look.landed)
    requires w.s.zombies[n].Sighted() && w.s.zombies[n].rid !in look.landed
    ensures Sinking(w.s.zombies, Midpoint(zs, w, look, held), n)
  {
    UnvisitedPrior(zs, w, n, n);
  }

  lemma MidwaySunk(zs: seq<Record>, w: Sweeping, n: nat, look: Look, held: set<Key>, s': State)
    requires Tracks(zs, w, n) && n < |zs| && Swept(w, n, SightedRids(zs), look.landed) && Believable(look, w.s.log)
    requires Unclaims(w.s.inflight, w.s.zombies, s'.inflight, s'.zombies, n) && s'.log == w.s.log
    requires Core(s', Midpoint(zs, w, look, held))
    ensures Midway(zs, w.(s := s'), n + 1, look, held)
  {
    SweptUnclaim(w, s', n, SightedRids(zs), look.landed);
  }

  lemma MidwaySinks(zs: seq<Record>, w: Sweeping, n: nat, look: Look, held: set<Key>)
    requires Midway(zs, w, n, look, held) && n < |zs| && w.s.zombies[n].Sighted() && w.s.zombies[n].rid !in look.landed
    ensures Midway(zs, w.(s := Unclaim(Sight(w.s, n, None), n)), n + 1, look, held)
  {
    MidwaySinking(zs, w, n, look, held);
    UnclaimKeeps(w.s, Midpoint(zs, w, look, held), n);
    UnclaimShape(w.s, n);
    MidwaySunk(zs, w, n, look, held, Unclaim(Sight(w.s, n, None), n));
  }

  lemma SweptUnclaim(w: Sweeping, s': State, n: nat, prior: set<RoundId>, landed: set<RoundId>)
    requires Swept(w, n, prior, landed) && n < |w.s.zombies| && n !in w.gone
    requires Unclaims(w.s.inflight, w.s.zombies, s'.inflight, s'.zombies, n) && s'.log == w.s.log
    ensures Swept(w.(s := s'), n + 1, prior, landed)
  {
    var zs, zs' := w.s.zombies, s'.zombies;
    UnclaimLive(zs, zs', w.gone, n, w.s.inflight, s'.inflight);
    forall k | k in w.took ensures exists j :: 0 <= j < n + 1 && Holds(zs', w.gone, j) && k in zs'[j].rid.keys {
      var j :| 0 <= j < n && Holds(zs, w.gone, j) && k in zs[j].rid.keys;
      assert Holds(zs', w.gone, j);
    }
  }

  // ---- the whole sweep over the released rounds ----

  predicate Forgets(z: Record, look: Look, cfg: Config) { !z.Sighted() && look.time - z.releasedAt > cfg.watch }

  /** What a visit does to the sweep, by cases. */
  lemma VisitForms(w: Sweeping, n: nat, look: Look, cfg: Config, refused: set<nat>, inv: (Sweeping, nat) -> bool)
    requires n < |w.s.zombies|
    requires var z := w.s.zombies[n]; Forgets(z, look, cfg) ==> inv(w.(gone := w.gone + {n}), n + 1)
    requires var z := w.s.zombies[n]; !z.Sighted() && look.Reads(z.rid) && !Forgets(z, look, cfg) ==>
               inv(Sweeping(Claim(Sight(w.s, n, Some(look.time)), n), w.gone, w.took + z.rid.keys), n + 1)
    requires var z := w.s.zombies[n];
             z.Sighted() && look.Reads(z.rid) && Confirmed(z, look, cfg) && !RivalLanded(w.s, n, look) ==>
               inv(Sweeping(Finalize(w.s, z, look.time, refused), w.gone + {n}, w.took), n + 1)
    requires var z := w.s.zombies[n];
             z.Sighted() && z.rid !in look.landed && z.rid !in look.unread ==>
               inv(w.(s := Unclaim(Sight(w.s, n, None), n)), n + 1)
    requires var z := w.s.zombies[n]; z.rid in look.unread || (z.Sighted() ==> z.rid in look.landed) ==> inv(w, n + 1)
    ensures inv(Visiting(look, cfg, refused)(w, n), n + 1)
  {
    assert w.took + {} == w.took;
  }

  lemma MidwayForms(zs: seq<Record>, w: Sweeping, n: nat, look: Look, cfg: Config, held: set<Key>, refused: set<nat>,
                    inv: (Sweeping, nat) -> bool)
    requires Midway(zs, w, n, look, held) && n < |zs| && inv == ((x: Sweeping, m: nat) => Midway(zs, x, m, look, held))
    requires Readable(look, zs)
    ensures inv(Visiting(look, cfg, refused)(w, n), n + 1)
  {
    var z := w.s.zombies[n];
    assert zs[n] in zs;
    if z.Sighted() && z.rid !in look.landed {
      MidwaySinks(zs, w, n, look, held);
    } else {
      MidwayStays(zs, w, n, look, held);
    }
    if z.Sighted() && z.rid in look.landed {
      MidwaySettles(zs, w, n, look, held, refused);
    }
    if !z.Sighted() && z.rid in look.landed {
      MidwayClaims(zs, w, n, look, held);
    }
    if !z.Sighted() {
      MidwayForgets(zs, w, n, look, held);
    }
    VisitForms(w, n, look, cfg, refused, inv);
  }

  /** The rounds about to be un-sighted are exempt from some of what is said of sighted rounds. */
  lemma StaleRounds(s: State, c: Ctx, stale: set<RoundId>)
    requires Rounds(s, c) && c.stale == {}
    ensures Rounds(s, c.(stale := stale))
  {
    forall r | NotedOn(r, s.zombies, c.gone, {}) ensures NotedOn(r, s.zombies, c.gone, stale) {}
    assert HeldOnce(s.zombies, c.gone, c.prior, stale);
  }

  lemma LookKeeps(s: State, c: Ctx, looks: seq<Look>)
    requires Core(s, c)
    ensures Core(s.(looks := looks), c)
  {
    var s' := s.(looks := looks);
    assert Queues(s', c.fin) && Rounds(s', c) && Logged(s', c.fin, c.gone);
    forall k | InCustody(k, s, c.gone) ensures InCustody(k, s', c.gone) {}
    SameBooks(s, s');
  }

  lemma MidwayStarts(s: State, held: set<Key>, look: Look)
    requires Inv(s, held) && Credible(look, s)
    ensures Midway(s.zombies, Sweeping(s.(looks := s.looks + [look]), {}, {}), 0, look, held)
  {
    var c := Ctx({}, held, Fin(s.log), SightedRids(s.zombies), {});
    StaleRounds(s, c, SightedRids(s.zombies) - look.landed);
    LookKeeps(s, c.(stale := SightedRids(s.zombies) - look.landed), s.looks + [look]);
  }

  lemma MidwayUpTo(s: State, held: set<Key>, look: Look, cfg: Config, refused: set<nat>, n: nat)
    requires Inv(s, held) && Credible(look, s) && n <= |s.zombies|
    ensures Midway(s.zombies, VisitUpTo(s, n, look, cfg, refused), n, look, held)
  {
    MidwayStarts(s, held, look);
    var start, step := Sweeping(s.(looks := s.looks + [look]), {}, {}), Visiting(look, cfg, refused);
    var inv := (w: Sweeping, m: nat) => Midway(s.zombies, w, m, look, held);
    forall w, i: nat | inv(w, i) && i < n ensures inv(step(w, i), i + 1) {
      MidwayForms(s.zombies, w, i, look, cfg, held, refused, inv);
    }
    IterateInduction(step, start, n, inv);
  }
}

/** A run in which a rival read fails after a settlement, and the next sweep settles the order again. */
module LifecycleHaltedRuns {
  import opened Sequences
  import opened Orders
  import opened Lifecycle
  import opened LifecycleInvariants
  import opened LifecycleProgress
  import opened LifecycleRuns
  import opened LifecycleScenes
  import opened LifecycleReversal
  import opened LifecycleUnread
  import opened LifecycleHalts

  /** A second public order, from the same account. */
  const OTHER := Ticket(0, Buy, 5, 1, false, false, 2, 0)
  const SECOND := Order(0, 2, None, Buy, 5, 1, false, false, 2, Some(0))

  /** Rounds read as landed that are not final yet. */
  function LandedAt(t: int, landed: set<RoundId>, dead: bool): Look { Look(t, landed, {}, true, true, dead, {}, {}) }

  /** A build against book `c`, while the round against book `b` reads as landed. */
  function While(t: int, b: nat, c: nat): BuildArgs {
    Args(t, [], c, map[]).(first := LandedAt(t, {Rid(b)}, false), second := LandedAt(t, {Rid(b)}, false))
  }

  function Landed(b: nat): Record { Late(b).(okSince := Some(2)) }
  function SentTo(t: int, b: nat, c: nat): Record { RoundOf(SECOND, While(t, b, c)) }
  function LateTo(b: nat, c: nat): Record { SentTo(4, b, c).(deadSince := Some(5), releasedAt := 5) }
  function Both(b: nat, c: nat): set<RoundId> { {Rid(b), LateTo(b, c).rid} }

  /** The first order's round, against book `b`, lands late. A second order is placed and sent
      against book `c`. */
  function Once(b: nat, c: nat): seq<Event> {
    Opened(TICKET, [], b) + [Sweeps(LandedAt(2, {Rid(b)}, false), {})] + [Arrives(Placing(OTHER))] +
    [Building(While(4, b, c), {})]
  }

  /** That round is released as dead, and the order is sent again against book `d`. */
  function Sharing(b: nat, c: nat, d: nat): seq<Event> {
    Once(b, c) + [Sweeps(LandedAt(5, {Rid(b)}, true), {})] + [Building(While(6, b, d), {})]
  }

  /** Then its released round lands late too. */
  function Shared(b: nat, c: nat, d: nat): seq<Event> {
    Sharing(b, c, d) + [Sweeps(LandedAt(7, Both(b, c), false), {})]
  }

  ghost predicate Scene(es: seq<Event>, pending: seq<Order>, inflight: Option<Record>, zombies: seq<Record>) {
    && HonestRun(es, CFG)
    && (var s := Run(es, CFG);
        s.pending == pending && s.inflight == inflight && s.zombies == zombies && s.gate.None? && s.log == [])
  }

  lemma FirstLandsLate(b: nat)
    ensures var es := Opened(TICKET, [], b) + [Sweeps(LandedAt(2, {Rid(b)}, false), {})];
            Scene(es, [], None, [Landed(b)]) && Run(es, CFG).nextOid == 2
  {
    var es, look := Opened(TICKET, [], b), LandedAt(2, {Rid(b)}, false);
    assert es[..3] == es;
    Opens(es, TICKET, [], b);
    RunSnoc(es, Sweeps(look, {}), CFG);
    SentIs(0, b);
    NothingSettled(Run(es, CFG), look, Rid(b));
    LandsAlone(Run(es, CFG), Late(b), look, CFG, {});
    FilterNone([ORDER], FreeOf(Late(b).rid.keys));
  }

  lemma SecondIsPlaced(es: seq<Event>, b: nat)
    requires Scene(es, [], None, [Landed(b)]) && Run(es, CFG).nextOid == 2
    ensures var es' := es + [Arrives(Placing(OTHER))];
            Scene(es', [SECOND.(expiry := None)], None, [Landed(b)]) && Expires(Run(es', CFG))
  {
    RunSnoc(es, Arrives(Placing(OTHER)), CFG);
  }

  lemma StillLanded(b: nat, t: int, dead: bool)
    ensures Unmoved(Landed(b), LandedAt(t, {Rid(b)}, dead), CFG)
  {
    SentIs(0, b);
  }

  lemma SentToIs(t: int, b: nat, c: nat)
    ensures var r := SentTo(t, b, c);
            && r.rid == RoundId({KeyOf(SECOND)}, c) && r.Orders() == [SECOND] && r.claimed == map[] && !r.Sighted()
            && r.deadSince.None? && r.t == t
  {
    RoundIs(SECOND, While(t, b, c));
  }

  ghost predicate Expires(s: State) { 2 in s.expiry && s.expiry[2] == 0 }

  /** The second order is sent, as placed or as it came back. */
  lemma SecondIsBuilt(s: State, t: int, b: nat, c: nat)
    requires s.pending == [SECOND] || s.pending == [SECOND.(expiry := None)]
    requires s.inflight.None? && s.gate.None? && s.log == [] && Expires(s)
    requires Quiet(s.zombies, LandedAt(t, {Rid(b)}, false), CFG)
    requires forall z | z in s.zombies :: z.rid != SentTo(t, b, c).rid
    ensures var e := Building(While(t, b, c), {}); var s' := Step(s, e, CFG);
            Honest(s, e, CFG) && s' == s.(pending := [], inflight := Some(SentTo(t, b, c)), looks := s'.looks)
  {
    assert Attach(s.pending, s.expiry)[0] == SECOND;
    NothingSettled(s, LandedAt(t, {Rid(b)}, false), Rid(b));
    BuildingOne(s, SECOND, While(t, b, c));
  }

  lemma SecondIsSent(es: seq<Event>, t: int, b: nat, c: nat, pending: seq<Order>, zombies: seq<Record>)
    requires Scene(es, pending, None, zombies) && (pending == [SECOND] || pending == [SECOND.(expiry := None)])
    requires Expires(Run(es, CFG)) && Quiet(zombies, LandedAt(t, {Rid(b)}, false), CFG)
    requires forall z | z in zombies :: z.rid != SentTo(t, b, c).rid
    ensures var es' := es + [Building(While(t, b, c), {})];
            Scene(es', [], Some(SentTo(t, b, c)), zombies) && Expires(Run(es', CFG))
  {
    RunSnoc(es, Building(While(t, b, c), {}), CFG);
    SecondIsBuilt(Run(es, CFG), t, b, c);
  }

  /** A round found dead is released, beside one that stays. */
  lemma Releases(es: seq<Event>, r: Record, a: Record, look: Look, z: Record)
    requires Scene(es, [], Some(r), [a]) && Credible(look, Run(es, CFG)) && Expires(Run(es, CFG))
    requires !r.Sighted() && r.deadSince.None? && r.claimed == map[] && look.FindsDead(r.rid)
    requires Quiet([a], look, CFG) && z == r.(deadSince := Some(look.time), okSince := None, releasedAt := look.time)
    ensures var es' := es + [Sweeps(look, {})]; Scene(es', r.Orders(), None, [a, z]) && Expires(Run(es', CFG))
  {
    RunSnoc(es, Sweeps(look, {}), CFG);
    DeadIsReleased(Run(es, CFG), r, look, CFG, {});
    assert r.Orders() + [] == r.Orders() && [a] + [z] == [a, z];
  }

  /** The second order's round is found dead, while the first order's stays landed. */
  lemma SecondIsDead(b: nat, c: nat, look: Look)
    requires look == LandedAt(5, {Rid(b)}, true)
    ensures look.FindsDead(SentTo(4, b, c).rid) && Quiet([Landed(b)], look, CFG)
  {
    SentToIs(4, b, c);
    StillLanded(b, 5, true);
  }

  lemma SecondIsReleased(es: seq<Event>, b: nat, c: nat)
    requires Scene(es, [], Some(SentTo(4, b, c)), [Landed(b)]) && Expires(Run(es, CFG))
    ensures var es' := es + [Sweeps(LandedAt(5, {Rid(b)}, true), {})];
            Scene(es', [SECOND], None, [Landed(b), LateTo(b, c)]) && Expires(Run(es', CFG))
  {
    var look, r := LandedAt(5, {Rid(b)}, true), SentTo(4, b, c);
    SecondIsDead(b, c, look);
    SentToIs(4, b, c);
    NothingSettled(Run(es, CFG), look, Rid(b));
    Releases(es, r, Landed(b), look, LateTo(b, c));
  }

  lemma OnceIs(b: nat, c: nat)
    ensures Scene(Once(b, c), [], Some(SentTo(4, b, c)), [Landed(b)]) && Expires(Run(Once(b, c), CFG))
  {
    var es := Opened(TICKET, [], b) + [Sweeps(LandedAt(2, {Rid(b)}, false), {})];
    FirstLandsLate(b);
    SecondIsPlaced(es, b);
    RidsDiffer(b, 4, c);
    StillLanded(b, 4, false);
    SecondIsSent(es + [Arrives(Placing(OTHER))], 4, b, c, [SECOND.(expiry := None)], [Landed(b)]);
  }

  lemma RidsDiffer(b: nat, t: int, c: nat)
    ensures SentTo(t, b, c).rid == RoundId({KeyOf(SECOND)}, c) && LateTo(b, c).rid == RoundId({KeyOf(SECOND)}, c)
    ensures Landed(b).rid == Rid(b) && Rid(b) != SentTo(t, b, c).rid && !LateTo(b, c).Sighted()
  {
    SentIs(0, b);
    SentToIs(t, b, c);
    SentToIs(4, b, c);
  }

  lemma BothStay(b: nat, c: nat, d: nat)
    requires c != d
    ensures var zs := [Landed(b), LateTo(b, c)];
            Quiet(zs, LandedAt(6, {Rid(b)}, false), CFG) && forall z | z in zs :: z.rid != SentTo(6, b, d).rid
  {
    var zs, look := [Landed(b), LateTo(b, c)], LandedAt(6, {Rid(b)}, false);
    RidsDiffer(b, 6, c);
    RidsDiffer(b, 6, d);
    StillLanded(b, 6, false);
    assert Unmoved(zs[0], look, CFG) && Unmoved(zs[1], look, CFG);
  }

  lemma SharingIs(b: nat, c: nat, d: nat)
    requires c != d
    ensures Scene(Sharing(b, c, d), [], Some(SentTo(6, b, d)), [Landed(b), LateTo(b, c)])
  {
    var es := Once(b, c) + [Sweeps(LandedAt(5, {Rid(b)}, true), {})];
    OnceIs(b, c);
    SecondIsReleased(Once(b, c), b, c);
    BothStay(b, c, d);
    SecondIsSent(es, 6, b, d, [SECOND], [Landed(b), LateTo(b, c)]);
  }

  /** Of two released rounds with nothing in common, one is landed already and the other one lands:
      it claims its order from the round in flight, which stays. */
  lemma OtherLands(s: State, a: Record, z: Record, f: Record, k: Key, look: Look, cfg: Config, refused: set<nat>)
    requires s.zombies == [a, z] && s.inflight == Some(f) && s.pending == []
    requires Unmoved(a, look, cfg) && a.Sighted() && !z.Sighted() && look.Reads(z.rid) && Watched(z, look, cfg)
    requires a.rid.keys !! z.rid.keys && z.rid.keys == {k} && f.rid.keys == {k} && f.claimed == map[] && !f.Sighted()
    requires f.rid !in look.landed + look.unread && !look.dead && look.time - f.t <= cfg.gateSecs && f.deadSince.None?
    ensures Sweep(s, look, cfg, refused) ==
              s.(looks := s.looks + [look], inflight := Some(f.(claimed := map[k := z.rid])),
                 zombies := [a, z.(okSince := Some(look.time))])
  {
    var s1, z' := s.(looks := s.looks + [look]), z.(okSince := Some(look.time));
    TwoVisits(s, look, cfg, refused);
    NotesOne(f, z', k);
    assert a.rid.keys * z'.rid.keys == {} && NoteClaim(a, z').claimed == a.claimed;
    assert Claim(Sight(s1, 1, Some(look.time)), 1).zombies == [a, z'];
  }

  /** Both rounds are landed, and the round in flight carries the second order too. */
  ghost predicate TwoLanded(s: State, b: nat, c: nat) {
    && s.zombies == [Landed(b), LateTo(b, c).(okSince := Some(7))] && s.log == []
    && s.inflight.Some? && s.inflight.value.rid.keys == {KeyOf(SECOND)}
  }

  lemma BothBelievable(b: nat, c: nat, log: seq<Receipt>)
    requires forall rc | rc in log :: rc.rid == Rid(b) && rc.key == KeyOf(ORDER)
    ensures Consistent(Both(b, c)) && Durable(Both(b, c), log)
  {
    SentToIs(4, b, c);
  }

  lemma ThenOtherLands(es: seq<Event>, a: Record, z: Record, f: Record, k: Key, look: Look)
    requires Scene(es, [], Some(f), [a, z]) && Credible(look, Run(es, CFG))
    requires Unmoved(a, look, CFG) && a.Sighted() && !z.Sighted() && look.Reads(z.rid) && Watched(z, look, CFG)
    requires a.rid.keys !! z.rid.keys && z.rid.keys == {k} && f.rid.keys == {k} && f.claimed == map[] && !f.Sighted()
    requires f.rid !in look.landed + look.unread && !look.dead && look.time - f.t <= CFG.gateSecs && f.deadSince.None?
    ensures var es' := es + [Sweeps(look, {})];
            Scene(es', [], Some(f.(claimed := map[k := z.rid])), [a, z.(okSince := Some(look.time))])
  {
    RunSnoc(es, Sweeps(look, {}), CFG);
    OtherLands(Run(es, CFG), a, z, f, k, look, CFG, {});
  }

  lemma SharedIs(b: nat, c: nat, d: nat)
    requires c != d
    ensures HonestRun(Shared(b, c, d), CFG) && TwoLanded(Run(Shared(b, c, d), CFG), b, c)
  {
    var look := LandedAt(7, Both(b, c), false);
    SharingIs(b, c, d);
    SentIs(0, b);
    SentToIs(4, b, c);
    SentToIs(6, b, d);
    BothBelievable(b, c, []);
    ThenOtherLands(Sharing(b, c, d), Landed(b), LateTo(b, c), SentTo(6, b, d), KeyOf(SECOND), look);
  }

  /** A sweep that ends after one visit, which settled its round. */
  lemma OneSettled(s: State, z: Record, look: Look, cfg: Config)
    requires s.zombies != [] && s.zombies[0] == z && z.Sighted() && look.Reads(z.rid) && Confirmed(z, look, cfg)
    requires !RivalLanded(s, 0, look) && z.claimed == map[]
    ensures Halted(s, 1, look, cfg, {}) ==
              Finalize(s.(looks := s.looks + [look]), z, look.time, {})
  {
    var s1 := s.(looks := s.looks + [look]);
    var start, step := Sweeping(s1, {}, {}), Visiting(look, cfg, {});
    assert Iterate(step, start, 1) == step(Iterate(step, start, 0), 0);
    VisitFinalizes(start, 0, look, cfg, {});
  }

  lemma SettledOne(s: State, z: Record, o: Order, now: int)
    requires z.Orders() == [o] && z.claimed == map[] && !o.sealed
    ensures var s' := Finalize(s, z, now, {});
            && s'.zombies == s.zombies && s'.inflight == s.inflight && |s'.log| == |s.log| + 1
            && s'.log[|s.log|].key == KeyOf(o) && s'.log[|s.log|].rid == z.rid
  {
    FilterAll(z.Orders(), FreeOf(z.claimed.Keys));
    OneReceipt(s, z.rid, o, z.fills, now, {});
  }

  lemma NoRivalOfFirst(s: State, b: nat, c: nat, look: Look)
    requires TwoLanded(s, b, c)
    ensures !RivalLanded(s, 0, look)
  {
    SentIs(0, b);
    SentToIs(4, b, c);
    assert {KeyOf(SECOND)} * {KeyOf(ORDER)} == {};
  }

  /** The sweep settles the first round and then ends, at a read of the round in flight. */
  lemma CutShort(s: State, b: nat, c: nat, look: Look)
    requires TwoLanded(s, b, c) && look == LookAt(8, Both(b, c), false)
    ensures var h := Halted(s, 1, look, CFG, {});
            && h.zombies == s.zombies && h.inflight == s.inflight
            && |h.log| == 1 && h.log[0].key == KeyOf(ORDER) && h.log[0].rid == Rid(b)
  {
    SentIs(0, b);
    NoRivalOfFirst(s, b, c, look);
    OneSettled(s, Landed(b), look, CFG);
    SettledOne(s.(looks := s.looks + [look]), Landed(b), ORDER, 8);
  }

  lemma ThenReadsRivals(h: State, b: nat, c: nat, look: Look)
    requires h.zombies == [Landed(b), LateTo(b, c).(okSince := Some(7))] && look == LookAt(8, Both(b, c), false)
    requires h.inflight.Some? && h.inflight.value.rid.keys == {KeyOf(SECOND)}
    ensures ReadsRivals(h, 1, look, CFG)
  {
    SentToIs(4, b, c);
    assert KeyOf(SECOND) in h.inflight.value.rid.keys * h.zombies[1].rid.keys;
  }

  lemma FirstFoundAgain(h: State, b: nat, c: nat, next: Look)
    requires |h.zombies| == 2 && h.zombies[0] == Landed(b) && next == LookAt(10, Both(b, c), false)
    requires |h.log| == 1 && h.log[0].key == KeyOf(ORDER) && h.log[0].rid == Rid(b)
    ensures Believable(next, h.log) && FoundAgain(h, 0, next, CFG)
  {
    SentIs(0, b);
    BothBelievable(b, c, h.log);
    assert h.log[0] in h.log && KeyOf(ORDER) in Rid(b).keys;
  }

  /** The reads of rival rounds cannot be left to fail: in these runs, which meet every assumption, a
      sweep settles one round and ends at such a read for the next, and the sweep after it, on an
      unchanged chain, settles the first order a second time. */
  lemma RivalReadsAreNeeded(b: nat, c: nat, d: nat)
    requires c != d
    ensures var es, look := Shared(b, c, d), LookAt(8, Both(b, c), false);
            var h := Halted(Run(es, CFG), 1, look, CFG, {});
            && HonestRun(es, CFG) && Credible(look, Run(es, CFG))
            && |h.zombies| == 2 && ReadsRivals(h, 1, look, CFG)
            && Believable(LookAt(10, Both(b, c), false), h.log)
            && !LogOnce(Sweep(h, LookAt(10, Both(b, c), false), CFG, {}).log)
  {
    var es, look, next := Shared(b, c, d), LookAt(8, Both(b, c), false), LookAt(10, Both(b, c), false);
    var h := Halted(Run(es, CFG), 1, look, CFG, {});
    SharedIs(b, c, d);
    BothBelievable(b, c, []);
    CutShort(Run(es, CFG), b, c, look);
    ThenReadsRivals(h, b, c, look);
    FirstFoundAgain(h, b, c, next);
    HaltedSettlesTwiceIff(es, CFG, 1, look, {}, next, {});
  }
}

/** Why settled rounds are assumed to stay: a run in which every look is consistent, but the chain
    turns back on a settled round, and an order is settled twice. */
module LifecycleReversal {
  import opened Sequences
  import opened Orders
  import opened Clearing
  import opened Lifecycle
  import opened LifecycleInvariants
  import opened LifecycleReceipts
  import opened LifecycleClaims
  import opened LifecycleSightings
  import opened LifecycleRuns
  import opened LifecycleScenes

  // ---- a settled order settled again ----

  ghost predicate LogsInOrder(s: State, os: seq<Order>, x: State, rest: seq<Order>) {
    && |rest| <= |os| && rest == os[|os| - |rest|..]
    && |x.log| == |s.log| + |os| - |rest| && s.log <= x.log
    && forall j | 0 <= j < |os| - |rest| :: x.log[|s.log| + j].key == KeyOf(os[j])
  }

  /** A round's receipts are appended to the log one for each order, in order. */
  lemma ReceiptsInOrder(s: State, rid: RoundId, os: seq<Order>, fills: Fills, now: int, refused: set<nat>)
    ensures LogsInOrder(s, os, ReceiptAll(s, rid, os, fills, now, refused), [])
  {
    var inv := (x: State, rest: seq<Order>) => LogsInOrder(s, os, x, rest);
    forall x, rest | inv(x, rest) && rest != []
      ensures inv(ReceiptOne(x, rid, rest[0], fills, now, refused), rest[1..])
    {
      var x' := ReceiptOne(x, rid, rest[0], fills, now, refused);
      var rc := ReceiptFor(x, rid, rest[0], fills, now);
      ReceiptSplits(x, rid, rest[0], fills, now, refused);
      assert x'.log == x.log + [rc];
      assert rest[0] == os[|os| - |rest|];
    }
    ReceiptInduction(s, rid, os, fills, now, refused, inv);
  }

  /** A released round `z`, the only one tracked, still watched, that carries an order already
      settled by another round and knows of no claim on it. */
  ghost predicate Reversed(s: State, z: Record, o: Order, look: Look, cfg: Config) {
    && s.inflight.None? && s.zombies == [z] && !z.Sighted() && z.claimed == map[]
    && o in z.Orders() && z.rid.keys == KeySet(z.Orders())
    && KeyOf(o) in Fin(s.log) && (forall rc | rc in s.log :: rc.rid != z.rid)
    && look.landed == {z.rid} && look.Reads(z.rid) && look.time - z.releasedAt <= cfg.watch
  }

  lemma TwiceInLog(s: State, os: seq<Order>, x: State, o: Order)
    requires LogsInOrder(s, os, x, []) && o in os && KeyOf(o) in Fin(s.log)
    ensures !LogOnce(x.log)
  {
    var j :| 0 <= j < |os| && os[j] == o;
    var rc :| rc in s.log && rc.key == KeyOf(o);
    var i :| 0 <= i < |s.log| && s.log[i] == rc;
    assert x.log[i] == rc && x.log[|s.log| + j].key == rc.key;
  }

  /** The round is read as landed and final. */
  ghost predicate Finds(look: Look, r: RoundId) {
    look.landed == {r} && look.Reads(r) && look.readsFinal && r in look.final && r !in look.unsure
  }

  /** If the chain turns back on a settled round and lands such a round instead, the order is
      settled a second time: this is what durability rules out. */
  lemma ReversalSettlesTwice(s: State, z: Record, o: Order, first: Look, second: Look, cfg: Config, refused: set<nat>)
    requires Reversed(s, z, o, first, cfg) && Finds(second, z.rid)
    ensures !Durable(first.landed, s.log)
    ensures !LogOnce(Sweep(Sweep(s, first, cfg, refused), second, cfg, refused).log)
  {
    var rc :| rc in s.log && rc.key == KeyOf(o);
    assert z.rid in first.landed && rc.key in z.rid.keys;
    FirstReading(s, z, o, first, cfg, refused);
    SettlesAgain(Sweep(s, first, cfg, refused), z.(okSince := Some(first.time)), o, second, cfg, refused);
  }

  lemma SettlesAgain(s: State, z: Record, o: Order, look: Look, cfg: Config, refused: set<nat>)
    requires s.inflight.None? && s.zombies == [z] && z.Sighted() && z.claimed == map[] && Finds(look, z.rid)
    requires o in z.Orders() && KeyOf(o) in Fin(s.log)
    ensures !LogOnce(Sweep(s, look, cfg, refused).log)
  {
    var s1 := s.(looks := s.looks + [look]);
    SecondReading(s, z, look, cfg, refused);
    ReceiptsInOrder(s1, z.rid, z.Orders(), z.fills, look.time, refused);
    TwiceInLog(s1, z.Orders(), ReceiptAll(s1, z.rid, z.Orders(), z.fills, look.time, refused), o);
  }

  lemma FirstReading(s: State, z: Record, o: Order, look: Look, cfg: Config, refused: set<nat>)
    requires Reversed(s, z, o, look, cfg)
    ensures var s' := Sweep(s, look, cfg, refused);
            s'.log == s.log && s'.inflight.None? && s'.zombies == [z.(okSince := Some(look.time))]
  {
    OneVisit(s, look, cfg, refused);
    ClaimShape(s.(looks := s.looks + [look]), 0, look.time);
  }

  lemma SecondReading(s: State, z: Record, look: Look, cfg: Config, refused: set<nat>)
    requires s.inflight.None? && s.zombies == [z] && z.Sighted() && z.claimed == map[] && Finds(look, z.rid)
    ensures Sweep(s, look, cfg, refused).log ==
              ReceiptAll(s.(looks := s.looks + [look]), z.rid, z.Orders(), z.fills, look.time, refused).log
  {
    var s1 := s.(looks := s.looks + [look]);
    OneVisit(s, look, cfg, refused);
    assert !RivalLanded(s1, 0, look);
    FilterAll(z.Orders(), FreeOf(z.claimed.Keys));
    FinalizeFresh(s1, z, look.time, refused);
    assert Visit(s1, 0, look, cfg, refused).s == Finalize(s1, z, look.time, refused);
  }

  // ---- a round that lands and settles ----

  lemma LandingIsSighted(s: State, r: Record, look: Look, cfg: Config, refused: set<nat>)
    requires s.inflight == Some(r) && !r.Sighted() && look.Reads(r.rid) && Quiet(s.zombies, look, cfg)
    ensures Sweep(s, look, cfg, refused) ==
              s.(inflight := Some(r.(deadSince := None, okSince := Some(look.time))), looks := s.looks + [look])
  {
    QuietSweep(s, look, cfg, refused);
  }

  lemma OneReceipt(s: State, rid: RoundId, o: Order, fills: Fills, now: int, refused: set<nat>)
    requires !o.sealed
    ensures var s' := ReceiptAll(s, rid, [o], fills, now, refused);
            && s' == s.(ended := s'.ended, log := s'.log)
            && |s'.log| == |s.log| + 1 && s'.log[..|s.log|] == s.log
            && s'.log[|s.log|].key == KeyOf(o) && s'.log[|s.log|].rid == rid
  {
    assert [o][1..] == [];
  }

  lemma FinalSettles(s: State, r: Record, o: Order, look: Look, cfg: Config, refused: set<nat>)
    requires s.inflight == Some(r) && r.Sighted() && r.claimed == map[] && r.Orders() == [o] && !o.sealed && s.log == []
    requires Finds(look, r.rid) && Quiet(s.zombies, look, cfg) && forall z | z in s.zombies :: z.rid !in look.landed
    ensures var s' := Sweep(s, look, cfg, refused);
            && s'.inflight.None? && s'.zombies == s.zombies
            && |s'.log| == 1 && s'.log[0].key == KeyOf(o) && s'.log[0].rid == r.rid
  {
    var s1 := s.(looks := s.looks + [look], inflight := None);
    QuietSweep(s, look, cfg, refused);
    assert !InflightRival(s1, r, look);
    var r' := r.(deadSince := None);
    assert r'.Orders() == [o];
    FilterAll([o], FreeOf(r'.claimed.Keys));
    OneReceipt(s1, r.rid, o, r.fills, look.time, refused);
  }

  // ---- the run ----

  lemma TwoSweeps(es: seq<Event>, first: Look, second: Look, cfg: Config)
    ensures Run(es + [Sweeps(first, {}), Sweeps(second, {})], cfg) ==
            Sweep(Sweep(Run(es, cfg), first, cfg, {}), second, cfg, {})
  {
    RunSnoc(es, Sweeps(first, {}), cfg);
    RunSnoc(es + [Sweeps(first, {})], Sweeps(second, {}), cfg);
    assert es + [Sweeps(first, {})] + [Sweeps(second, {})] == es + [Sweeps(first, {}), Sweeps(second, {})];
  }

  const TICKET := Ticket(0, Buy, 5, 1, false, false, 1, 0)
  const ORDER := OrderOf(TICKET)

  function Rid(book: nat): RoundId { RoundId({KeyOf(ORDER)}, book) }

  /** An order is placed, sent in a round against book `b`, released as dead, and sent again
      against book `c` in a round that lands and settles. */
  function Settling(b: nat, c: nat): seq<Event> {
    Opened(TICKET, [], b) +
    [Building(Args(2, [], c, map[]), {}), Sweeps(LookAt(3, {Rid(c)}, false), {}),
     Sweeps(LookAt(4, {Rid(c)}, false), {})]
  }

  /** Then the first round lands after all. */
  function Reversing(b: nat): seq<Event> {
    [Sweeps(LookAt(5, {Rid(b)}, false), {}), Sweeps(LookAt(6, {Rid(b)}, false), {})]
  }

  function Sent(t: int, book: nat): Record { RoundOf(ORDER, Args(t, [], book, map[])) }

  function Late(b: nat): Record { Released(TICKET, 0, [], b, 1) }

  lemma SentIs(t: int, book: nat)
    ensures Sent(t, book).rid == Rid(book) && Sent(t, book).Orders() == [ORDER] && Sent(t, book).claimed == map[]
    ensures !Sent(t, book).Sighted() && Sent(t, book).deadSince.None?
  {
    RoundIs(ORDER, Args(t, [], book, map[]));
  }

  lemma StillQuiet(b: nat, t: int, book: nat)
    requires b != book && t <= 100
    ensures Quiet([Late(b)], LookAt(t, {Rid(book)}, false), CFG) && Free([Late(b)], t, Sent(t, book).rid)
  {
    SentIs(t, book);
    SentIs(0, b);
  }

  lemma Sighting(es: seq<Event>, n: nat, b: nat, c: nat)
    requires n < |es| && es[n] == Sweeps(LookAt(3, {Rid(c)}, false), {}) && b != c
    requires Reaches(es, n, TICKET, [], Some(Sent(2, c)), [Late(b)])
    ensures Reaches(es, n + 1, TICKET, [], Some(Sent(2, c).(okSince := Some(3))), [Late(b)])
  {
    Next(es, n);
    SentIs(2, c);
    StillQuiet(b, 3, c);
    NothingSettled(Run(es[..n], CFG), LookAt(3, {Rid(c)}, false), Rid(c));
    LandingIsSighted(Run(es[..n], CFG), Sent(2, c), LookAt(3, {Rid(c)}, false), CFG, {});
  }

  /** The order is settled by the round against book `c`; the other round is still watched. */
  ghost predicate SettledBy(s: State, b: nat, c: nat) {
    && s.inflight.None? && s.zombies == [Late(b)]
    && |s.log| == 1 && s.log[0].key == KeyOf(ORDER) && s.log[0].rid == Rid(c)
  }

  lemma Receipting(es: seq<Event>, n: nat, b: nat, c: nat)
    requires n < |es| && es[n] == Sweeps(LookAt(4, {Rid(c)}, false), {}) && b != c
    requires Reaches(es, n, TICKET, [], Some(Sent(2, c).(okSince := Some(3))), [Late(b)])
    ensures HonestRun(es[..n+1], CFG) && SettledBy(Run(es[..n+1], CFG), b, c)
  {
    Next(es, n);
    SentIs(2, c);
    StillQuiet(b, 4, c);
    NothingSettled(Run(es[..n], CFG), LookAt(4, {Rid(c)}, false), Rid(c));
    FinalSettles(Run(es[..n], CFG), Sent(2, c).(okSince := Some(3)), ORDER, LookAt(4, {Rid(c)}, false), CFG, {});
  }

  lemma SentAgain(es: seq<Event>, b: nat, c: nat)
    requires |es| >= 4 && es[..3] == Opened(TICKET, [], b) && es[3] == Building(Args(2, [], c, map[]), {}) && b != c
    ensures Reaches(es, 4, TICKET, [], Some(Sent(2, c)), [Late(b)])
  {
    Opens(es, TICKET, [], b);
    StillQuiet(b, 2, c);
    Sending(es, 3, TICKET, [ORDER], [Late(b)], 2, [], c);
  }

  /** The run up to the settlement meets every assumption. */
  lemma SettlingIsHonest(b: nat, c: nat)
    requires b != c
    ensures HonestRun(Settling(b, c), CFG) && SettledBy(Run(Settling(b, c), CFG), b, c)
  {
    var es := Settling(b, c);
    assert es[..3] == Opened(TICKET, [], b);
    SentAgain(es, b, c);
    Sighting(es, 4, b, c);
    Receipting(es, 5, b, c);
    assert es[..6] == es;
  }

  /** Every look the event takes at the chain is consistent in itself. */
  ghost predicate ConsistentLooks(e: Event) {
    match e
    case Arrives(_) => true
    case Sweeps(look, _) => Consistent(look.landed)
    case Building(a, _) => Consistent(a.first.landed) && Consistent(a.second.landed)
  }

  lemma AllConsistent(b: nat, c: nat, e: Event)
    requires e in Settling(b, c) + Reversing(b)
    ensures ConsistentLooks(e)
  {
    OneLanding(Rid(b));
    OneLanding(Rid(c));
  }

  lemma ThenReversed(s: State, b: nat, c: nat)
    requires SettledBy(s, b, c) && b != c
    ensures Reversed(s, Late(b), ORDER, LookAt(5, {Rid(b)}, false), CFG)
  {
    SentIs(0, b);
    assert Late(b).Orders() == [ORDER] && KeySet([ORDER]) == {KeyOf(ORDER)};
    assert s.log[0] in s.log;
  }

  /** Durability cannot be dropped: in these runs every look is consistent, all but the last two
      meet every assumption, and an order is settled by two rounds. */
  lemma DurabilityIsNeeded(b: nat, c: nat)
    requires b != c
    ensures HonestRun(Settling(b, c), CFG) && (forall e | e in Settling(b, c) + Reversing(b) :: ConsistentLooks(e))
    ensures !LogOnce(Run(Settling(b, c) + Reversing(b), CFG).log)
  {
    var es, s := Settling(b, c), Run(Settling(b, c), CFG);
    var first, second := LookAt(5, {Rid(b)}, false), LookAt(6, {Rid(b)}, false);
    forall e | e in es + Reversing(b) ensures ConsistentLooks(e) {
      AllConsistent(b, c, e);
    }
    SettlingIsHonest(b, c);
    ThenReversed(s, b, c);
    SentIs(0, b);
    ReversalSettlesTwice(s, Late(b), ORDER, first, second, CFG, {});
    TwoSweeps(es, first, second, CFG);
  }
}

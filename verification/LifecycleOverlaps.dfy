/** A drain takes no market's lock, so a settlement inside a build can fall between the drain's loop
    and the moment its result is written back. When that loses an order. */
module LifecycleOverlaps {
  import opened Sequences
  import opened Orders
  import opened Clearing
  import CT = ClearingTheorems
  import PT = PlanningTheorems
  import opened Lifecycle
  import opened LifecycleInvariants
  import opened LifecycleReceipts
  import opened LifecycleSettling
  import opened LifecycleQueues
  import opened LifecycleSightings
  import opened LifecycleRuns
  import opened LifecycleEnded
  import opened LifecycleScenes
  import opened LifecycleReversal

  // ---- the drain in two parts ----

  /** The drain's loop: each re-seal is queued or lapses, or is kept aside; the list is not touched. */
  function Loop(s: State, now: int, refused: set<nat>): State {
    s.(pending := s.pending + Filter(s.retry, Resealed(s.expiry, now, refused)),
       ended := s.ended + KeySet(Filter(s.retry, Lapsing(s.expiry, now))))
  }

  function Kept(s: State, now: int, refused: set<nat>): seq<Order> {
    Filter(s.retry, StillRefused(s.expiry, now, refused))
  }

  /** What the loop over the list of `s` kept is written over the list as it stands now. A market
      with nothing waiting is not visited at all. */
  function WriteBack(x: State, s: State, now: int, refused: set<nat>): State {
    if s.retry == [] then x else x.(retry := Kept(s, now, refused))
  }

  /** A round settles between the two. The drain reads the clock at `t`, and the chain refuses it
      the commitments `no`. */
  function Overlapped(s: State, rec: Record, now: int, refused: set<nat>, t: int, no: set<nat>): State {
    WriteBack(Finalize(Loop(s, t, no), rec, now, refused), s, t, no)
  }

  lemma DrainInParts(s: State, t: int, no: set<nat>)
    ensures Drain(s, t, no) == Loop(s, t, no).(retry := Kept(s, t, no))
    ensures s.retry == [] ==> Loop(s, t, no) == s
  {
    DrainIsExact(s, t, no);
    if s.retry == [] {
      assert s.pending + [] == s.pending && KeySet([]) == {} && s.ended + {} == s.ended;
    }
  }

  // ---- a settlement does not look at the queues ----

  ghost predicate Alike(s: State, x: State) {
    x == s.(pending := x.pending, retry := x.retry, ended := x.ended) && s.ended <= x.ended
  }

  /** What `s'` has more than `s` in its queues and terminals, `x'` has more than `x`. */
  ghost predicate GrowAlike(s: State, s': State, x: State, x': State) {
    && Alike(s', x') && s.pending <= s'.pending && s.retry <= s'.retry && s.ended <= s'.ended
    && x'.pending == x.pending + s'.pending[|s.pending|..]
    && x'.retry == x.retry + s'.retry[|s.retry|..]
    && x'.ended == x.ended + s'.ended
  }

  lemma PrefixesJoin<T>(a: seq<T>, b: seq<T>, c: seq<T>, q: seq<T>)
    requires a <= b <= c
    ensures a <= c && q + b[|a|..] + c[|b|..] == q + c[|a|..]
  {
    assert c == b + c[|b|..] && b == a + b[|a|..];
  }

  lemma GrowOn(s: State, s1: State, s2: State, x: State, x1: State, x2: State)
    requires GrowAlike(s, s1, x, x1) && GrowAlike(s1, s2, x1, x2)
    ensures GrowAlike(s, s2, x, x2)
  {
    PrefixesJoin(s.pending, s1.pending, s2.pending, x.pending);
    PrefixesJoin(s.retry, s1.retry, s2.retry, x.retry);
    assert x.ended + s1.ended + s2.ended == x.ended + s2.ended;
  }

  lemma ReceiptGrows(s: State, x: State, rid: RoundId, o: Order, fills: Fills, now: int, refused: set<nat>)
    requires Alike(s, x)
    ensures GrowAlike(s, ReceiptOne(s, rid, o, fills, now, refused), x, ReceiptOne(x, rid, o, fills, now, refused))
  {
    ReceiptSplits(s, rid, o, fills, now, refused);
    ReceiptSplits(x, rid, o, fills, now, refused);
    assert s.pending[|s.pending|..] == [] && s.retry[|s.retry|..] == [];
    assert x.pending + [] == x.pending && x.retry + [] == x.retry;
  }

  lemma {:induction false} ReceiptsGrow(s: State, x: State, rid: RoundId, os: seq<Order>, fills: Fills, now: int,
                                        refused: set<nat>)
    requires Alike(s, x)
    ensures GrowAlike(s, ReceiptAll(s, rid, os, fills, now, refused), x, ReceiptAll(x, rid, os, fills, now, refused))
    decreases |os|
  {
    if os == [] {
      assert s.pending[|s.pending|..] == [] && s.retry[|s.retry|..] == [];
      assert x.pending + [] == x.pending && x.retry + [] == x.retry;
    } else {
      var s1, x1 := ReceiptOne(s, rid, os[0], fills, now, refused), ReceiptOne(x, rid, os[0], fills, now, refused);
      ReceiptGrows(s, x, rid, os[0], fills, now, refused);
      ReceiptsGrow(s1, x1, rid, os[1..], fills, now, refused);
      GrowOn(s, s1, ReceiptAll(s, rid, os, fills, now, refused), x, x1, ReceiptAll(x, rid, os, fills, now, refused));
    }
  }

  /** Whatever is queued, waiting or ended besides, a settlement adds the same. */
  lemma FinalizeGrows(s: State, x: State, rec: Record, now: int, refused: set<nat>)
    requires Alike(s, x)
    ensures GrowAlike(s, Finalize(s, rec, now, refused), x, Finalize(x, rec, now, refused))
  {
    ReceiptsGrow(s, x, rec.rid, Filter(rec.Orders(), FreeOf(rec.claimed.Keys)), rec.fills, now, refused);
  }

  // ---- what is lost ----

  lemma ItemsSorted(items: seq<Order>, expiry: map<nat, int>, now: int, refused: set<nat>)
    ensures KeySet(Filter(items, Resealed(expiry, now, refused))) +
            KeySet(Filter(items, StillRefused(expiry, now, refused))) +
            KeySet(Filter(items, Lapsing(expiry, now))) == KeySet(items)
  {
    FilterMembers(items, Resealed(expiry, now, refused));
    FilterMembers(items, StillRefused(expiry, now, refused));
    FilterMembers(items, Lapsing(expiry, now));
  }

  /** An order waiting to be re-sealed is nowhere else. */
  lemma RetryApart(s: State, c: Ctx, k: Key)
    requires Core(s, c) && k in KeySet(s.retry)
    ensures k in s.accepted && k !in c.held && k !in KeySet(s.pending) && k !in c.fin
    ensures s.inflight.Some? ==> k !in s.inflight.value.rid.keys
    ensures forall j | Holds(s.zombies, c.gone, j) :: k !in s.zombies[j].rid.keys
  {
    forall j | Holds(s.zombies, c.gone, j) ensures k !in s.zombies[j].rid.keys {
      assert RecordOk(s.accepted, KeySet(s.retry), s.zombies[j]);
    }
  }

  /** The queues of `x` are those of `s` with the items re-sealed, kept or lapsed. */
  ghost predicate Sorted(s: State, x: State, items: set<Key>) {
    && x == s.(pending := x.pending, retry := x.retry, ended := x.ended)
    && KeySet(s.pending) <= KeySet(x.pending) && KeySet(x.pending) <= KeySet(s.pending) + items
    && s.ended <= x.ended && x.ended <= s.ended + items && KeySet(x.retry) <= items
    && items <= KeySet(x.pending) + KeySet(x.retry) + x.ended
  }

  /** What waits and is not among the items is forgotten. */
  lemma LostReseal(s: State, c: Ctx, x: State, items: set<Key>, k: Key)
    requires Core(s, c) && Sorted(s, x, items) && k in KeySet(s.retry) && k !in items && k !in s.ended
    ensures !Custody(x, c.gone, c.held, c.fin)
  {
    RetryApart(s, c, k);
    assert k in x.accepted && k !in x.ended && !InCustody(k, x, c.gone);
  }

  lemma NothingLost(s: State, c: Ctx, x: State)
    requires Custody(s, c.gone, c.held, c.fin) && Sorted(s, x, KeySet(s.retry))
    ensures Custody(x, c.gone, c.held, c.fin)
  {
    forall k | k in x.accepted && k !in x.ended && k !in c.held && k !in c.fin - Fin(x.log)
      ensures InCustody(k, x, c.gone)
    {
      assert InCustody(k, s, c.gone);
    }
  }

  lemma KeySetInto(a: seq<Order>, b: seq<Order>, more: seq<Order>)
    ensures KeySet(a + b + more) == KeySet(a + more) + KeySet(b)
  {
    KeySetConcat(a + b, more);
    KeySetConcat(a, b);
    KeySetConcat(a, more);
  }

  lemma GrownQueue(s: State, s': State, y: State, t: int, no: set<nat>)
    requires GrowAlike(s, s', Loop(s, t, no), y)
    ensures KeySet(y.pending) == KeySet(s'.pending) + KeySet(Filter(s.retry, Resealed(s.expiry, t, no)))
  {
    var more := s'.pending[|s.pending|..];
    KeySetInto(s.pending, Filter(s.retry, Resealed(s.expiry, t, no)), more);
    assert s'.pending == s.pending + more;
  }

  lemma GrownSorts(s: State, s': State, y: State, t: int, no: set<nat>)
    requires GrowAlike(s, s', Loop(s, t, no), y)
    ensures Sorted(s', y.(retry := Kept(s, t, no)), KeySet(s.retry))
  {
    ItemsSorted(s.retry, s.expiry, t, no);
    GrownQueue(s, s', y, t, no);
  }

  /** The overlapped drain, against the settlement alone. */
  lemma OverlapSorts(s: State, rec: Record, now: int, refused: set<nat>, t: int, no: set<nat>)
    requires s.retry != []
    ensures Sorted(Finalize(s, rec, now, refused), Overlapped(s, rec, now, refused, t, no), KeySet(s.retry))
  {
    FinalizeGrows(s, Loop(s, t, no), rec, now, refused);
    GrownSorts(s, Finalize(s, rec, now, refused), Finalize(Loop(s, t, no), rec, now, refused), t, no);
  }

  /** A re-seal that a settlement has just added is new, and cannot have ended. */
  lemma AddedReseal(s: State, c: Ctx, s': State, refused: set<nat>) returns (k: Key)
    requires Counters(s) && s.ended <= s.accepted.Keys && Adds(s, s', refused) && Core(s', c) && s'.retry != s.retry
    ensures k in KeySet(s'.retry) && k !in KeySet(s.retry) && k !in s'.ended
  {
    var o := s'.retry[|s.retry|];
    k := KeyOf(o);
    assert o in s'.retry && s'.retry == s.retry + s'.retry[|s.retry|..] && o in s'.retry[|s.retry|..];
    DistinctKeysSplit(s.retry, s'.retry[|s.retry|..]);
    assert k in KeySet(s'.retry[|s.retry|..]);
    NewlyKeys(s, s.retry, s'.retry);
    assert k !in Fin(s'.log);
  }

  /** A settlement that leaves the list alone may as well come after the whole drain. */
  lemma OverlapIsDrain(s: State, rec: Record, now: int, refused: set<nat>, t: int, no: set<nat>)
    requires Finalize(s, rec, now, refused).retry == s.retry
    ensures Overlapped(s, rec, now, refused, t, no) == Finalize(Drain(s, t, no), rec, now, refused)
  {
    var l, d := Loop(s, t, no), Drain(s, t, no);
    DrainInParts(s, t, no);
    FinalizeGrows(s, l, rec, now, refused);
    FinalizeGrows(s, d, rec, now, refused);
    assert s.retry[|s.retry|..] == [] && d.retry + [] == d.retry;
  }

  /** If a round settles after the drain's loop over the retry list has ended and before its
      result is written back, no order is lost if and only if nothing was waiting, or the chain
      refuses none of the settlement's re-seals. If it refuses none, the settlement may as well
      come after the whole drain. */
  lemma OverlappedDrain(s: State, c: Ctx, rec: Record, now: int, refused: set<nat>, t: int, no: set<nat>)
    requires Core(s, c) && Settled(s, c, rec) && s.ended <= s.accepted.Keys
    ensures var s', x := Finalize(s, rec, now, refused), Overlapped(s, rec, now, refused, t, no);
            && (Custody(x, c.gone, c.held, c.fin) <==>
                s.retry == [] || NoneRefused(refused, s.nextCommit, s'.nextCommit))
            && (NoneRefused(refused, s.nextCommit, s'.nextCommit) ==>
                x == Finalize(Drain(s, t, no), rec, now, refused))
  {
    var s', x := Finalize(s, rec, now, refused), Overlapped(s, rec, now, refused, t, no);
    FinalizeKeeps(s, c, rec, now, refused);
    FinalizeAdds(s, rec, now, refused);
    if s'.retry == s.retry {
      OverlapIsDrain(s, rec, now, refused, t, no);
    }
    if s.retry == [] {
      DrainInParts(s, t, no);
    } else {
      OverlapSorts(s, rec, now, refused, t, no);
      if s'.retry == s.retry {
        NothingLost(s', c, x);
      } else {
        var k := AddedReseal(s, c, s', refused);
        LostReseal(s', c, x, KeySet(s.retry), k);
      }
    }
  }

  /** Every accepted order that has not ended is in custody, round `i` having been dropped. */
  ghost predicate NoneLost(s: State, i: nat) {
    forall k | k in s.accepted && k !in s.ended :: InCustody(k, s, {i})
  }

  lemma CustodyIsNoneLost(s: State, i: nat, fin: set<Key>)
    requires fin == Fin(s.log)
    ensures Custody(s, {i}, {}, fin) <==> NoneLost(s, i)
  {
  }

  lemma OverlapStanding(s: State, c: Ctx, i: nat, now: int, refused: set<nat>, t: int, no: set<nat>)
    requires Core(s, c) && Standing(s, c, i) && c.fin == Fin(s.log) && s.ended <= s.accepted.Keys
    ensures var s', keys := Finalize(s, s.zombies[i], now, refused), s.zombies[i].rid.keys;
            var x := Overlapped(s, s.zombies[i], now, refused, t, no);
            && (Custody(x, c.gone + {i}, c.held, c.fin + keys) <==>
                s.retry == [] || NoneRefused(refused, s.nextCommit, s'.nextCommit))
            && Fin(x.log) == c.fin + keys
  {
    StandingSettles(s, c, i);
    SettleCore(s, c, i);
    OverlappedDrain(s, Settle(c, i, s.zombies[i].rid.keys), s.zombies[i], now, refused, t, no);
    ZombieFinalizes(s, c, i, now, refused);
    FinalizeGrows(s, Loop(s, t, no), s.zombies[i], now, refused);
  }

  lemma OverlapAt(s: State, i: nat, now: int, refused: set<nat>, t: int, no: set<nat>)
    requires Inv(s, {}) && s.ended <= s.accepted.Keys && Holds(s.zombies, {}, i)
    ensures NoneLost(Overlapped(s, s.zombies[i], now, refused, t, no), i) <==>
              s.retry == [] || NoneRefused(refused, s.nextCommit, Finalize(s, s.zombies[i], now, refused).nextCommit)
  {
    var c := Ctx({}, {}, Fin(s.log), SightedRids(s.zombies), {});
    OverlapStanding(s, c, i, now, refused, t, no);
    assert {} + {i} == {i};
    CustodyIsNoneLost(Overlapped(s, s.zombies[i], now, refused, t, no), i, c.fin + s.zombies[i].rid.keys);
  }

  /** The same at any point of a run at which a late-landed round settles: the drain loses an order
      exactly when something was waiting and one of the settlement's re-seals is refused. */
  lemma OverlapInRuns(es: seq<Event>, cfg: Config, i: nat, now: int, refused: set<nat>, t: int, no: set<nat>)
    requires HonestRun(es, cfg) && Holds(Run(es, cfg).zombies, {}, i)
    ensures var s := Run(es, cfg);
            NoneLost(Overlapped(s, s.zombies[i], now, refused, t, no), i) <==>
              s.retry == [] || NoneRefused(refused, s.nextCommit, Finalize(s, s.zombies[i], now, refused).nextCommit)
  {
    RunKeeps(es, cfg);
    RunAsleep(es, cfg);
    OverlapAt(Run(es, cfg), i, now, refused, t, no);
  }

  // ---- a run that loses an order ----

  /** A sealed order to buy two, and a book that sells one. */
  const SEALED := Ticket(0, Buy, 5, 2, true, false, 1, 0)
  const OFFER := Order(1, 7, None, Sell, 5, 1, false, false, 1, None)

  function Hidden(b: nat): Record { Released(SEALED, 0, [OFFER], b, 1) }

  /** The order is sent and released as dead, and then its round reads as landed. */
  function LandingLate(b: nat): seq<Event> {
    Opened(SEALED, [OFFER], b) + [Sweeps(LookAt(2, {Hidden(b).rid}, false), {})]
  }

  lemma TotalTwo<T>(a: T, b: T, f: T -> nat)
    ensures Total([a, b], f) == f(a) + f(b)
  {
    assert [a, b][1..] == [b] && [b][1..] == [];
    assert Total([b], f) == f(b);
  }

  /** A buy alone with a sell gets no more than is sold. */
  lemma FilledFrom(x: Order, o: Order)
    requires x.side.Sell? && o.side.Buy? && x.oid != o.oid
    ensures Got(Clear([x, o]).fills, o.oid) <= x.qty
  {
    var os := [x, o];
    var fills := Clear(os).fills;
    UniqueIsSole(os, x);
    CT.RationingExact(os);
    CT.FillWithinLimits(os, x);
    TotalTwo(x, o, CT.BoughtBy(fills));
    TotalTwo(x, o, CT.SoldBy(fills));
  }

  lemma SealedMatches()
    ensures PT.HasMatch(OrderOf(SEALED), [OFFER]) && PT.HasMatch(SECOND, [OFFER])
  {
    assert Matches(OrderOf(SEALED), OFFER) && Matches(SECOND, OFFER) && OFFER in [OFFER];
  }

  /** The order, and the same again placed after it. */
  const SECOND := Order(0, 2, Some(2), Buy, 5, 2, true, false, 1, Some(0))

  function Again(c: nat): Record {
    RoundOf(SECOND, Args(4, [OFFER], c, map[])).(deadSince := Some(5), releasedAt := 5)
  }

  /** The first order's round settles, and its re-seal is refused. */
  function Waiting(b: nat): seq<Event> { LandingLate(b) + [Sweeps(LookAt(3, {Hidden(b).rid}, false), {1})] }

  /** The second order is placed, sent and released as dead, and then its round reads as landed. */
  function Overlapping(b: nat, c: nat): seq<Event> {
    Waiting(b) + [Arrives(Placing(SEALED))] + [Building(Args(4, [OFFER], c, map[]), {})] +
    [Sweeps(LookAt(5, {}, true), {})] + [Sweeps(LookAt(6, {Again(c).rid}, false), {})]
  }

  lemma LateIsSighted(b: nat)
    ensures var es := LandingLate(b); var s := Run(es, CFG);
            && HonestRun(es, CFG) && s.zombies == [Hidden(b).(okSince := Some(2))] && s.nextCommit == 1
            && s.expiry == map[1 := 0] && s.pending == [] && s.inflight.None? && s.gate.None? && s.nextOid == 2
            && s.log == [] && s.retry == []
  {
    var es, look := LandingLate(b), LookAt(2, {Hidden(b).rid}, false);
    assert es[..3] == Opened(SEALED, [OFFER], b);
    SealedMatches();
    Opens(es, SEALED, [OFFER], b);
    Next(es, 3);
    RoundIs(OrderOf(SEALED), Args(0, [OFFER], b, map[]));
    NothingSettled(Run(es[..3], CFG), look, Hidden(b).rid);
    LandsAlone(Run(es[..3], CFG), Hidden(b), look, CFG, {});
    FilterNone([OrderOf(SEALED)], FreeOf(Hidden(b).rid.keys));
    assert es[..4] == es;
  }

  /** A sealed order for two that was sent against an offer of one. */
  ghost predicate HalfSold(z: Record, o: Order) {
    && z.Orders() == [o] && z.claimed == map[] && z.pruned == {} && z.fills == Clear([OFFER, o]).fills
    && o.side.Buy? && o.qty == 2 && o.sealed && o.oid != OFFER.oid
  }

  /** The order has a remainder, so its settlement takes a commitment. */
  lemma Reseals(s: State, z: Record, o: Order, now: int, refused: set<nat>)
    requires HalfSold(z, o) && !Overdue(s.expiry, o.oid, now)
    ensures var s' := Finalize(s, z, now, refused); var r := Remainder(o, Unfilled(o, z.fills), s.nextCommit);
            && s' == s.(ended := s'.ended, log := s'.log, accepted := s'.accepted, tip := s'.tip,
                        nextCommit := s.nextCommit + 1,
                        retry := if s.nextCommit in refused then s.retry + [r] else s.retry,
                        pending := if s.nextCommit in refused then s.pending else s.pending + [r])
            && |s'.log| == |s.log| + 1 && s.log <= s'.log && s'.log[|s.log|].key == KeyOf(o)
  {
    FilterAll(z.Orders(), FreeOf(z.claimed.Keys));
    FilledFrom(OFFER, o);
    var x := ReceiptOne(s, z.rid, o, z.fills, now, refused);
    ReceiptSplits(s, z.rid, o, z.fills, now, refused);
    assert Carries(s, o, z.fills, now);
    assert [o][1..] == [] && ReceiptAll(x, z.rid, [], z.fills, now, refused) == x;
    assert ReceiptAll(s, z.rid, [o], z.fills, now, refused) == x && x.expiry - {} == x.expiry;
  }

  lemma SentIsHalfSold(o: Order, t: int, book: nat, z: Record)
    requires o.sealed && o.side.Buy? && o.qty == 2 && o.oid != OFFER.oid
    requires var r := RoundOf(o, Args(t, [OFFER], book, map[]));
             z == r.(okSince := z.okSince, deadSince := z.deadSince, releasedAt := z.releasedAt)
    ensures HalfSold(z, o) && z.rid == RoundId({KeyOf(o)}, book)
  {
    RoundIs(o, Args(t, [OFFER], book, map[]));
    assert [OFFER] + [o] + [] == [OFFER, o];
  }

  /** A round alone, sighted, landed and final, settles. */
  lemma SettlesAlone(s: State, z: Record, look: Look, cfg: Config, refused: set<nat>)
    requires s.inflight.None? && s.zombies == [z] && z.Sighted() && Finds(look, z.rid)
    ensures Sweep(s, look, cfg, refused) ==
              Finalize(s.(looks := s.looks + [look]), z, look.time, refused).(zombies := [])
  {
    var s1 := s.(looks := s.looks + [look]);
    OneVisit(s, look, cfg, refused);
    assert !RivalLanded(s1, 0, look);
    FinalizeFresh(s1, z, look.time, refused);
  }

  /** A re-seal waits, and what settled was the first order. */
  ghost predicate Rest(s: State, pending: seq<Order>, inflight: Option<Record>, zombies: seq<Record>) {
    && s.pending == pending && s.inflight == inflight && s.zombies == zombies && s.gate.None?
    && s.retry != [] && forall rc | rc in s.log :: rc.key.oid == 1
  }

  lemma FirstIsSettled(s: State, b: nat, look: Look)
    requires s.inflight.None? && s.zombies == [Hidden(b).(okSince := Some(2))] && s.pending == [] && s.gate.None?
    requires s.log == [] && s.retry == [] && s.nextCommit == 1 && s.expiry == map[1 := 0]
    requires look == LookAt(3, {Hidden(b).rid}, false)
    ensures var s' := Sweep(s, look, CFG, {1}); Rest(s', [], None, []) && s'.nextOid == s.nextOid && s'.nextCommit == 2
  {
    var z := Hidden(b).(okSince := Some(2));
    SentIsHalfSold(OrderOf(SEALED), 0, b, z);
    SettlesAlone(s, z, look, CFG, {1});
    Reseals(s.(looks := s.looks + [look]), z, OrderOf(SEALED), 3, {1});
  }

  lemma FirstSettles(b: nat)
    ensures HonestRun(Waiting(b), CFG)
    ensures var s := Run(Waiting(b), CFG); Rest(s, [], None, []) && s.nextOid == 2 && s.nextCommit == 2
  {
    var s, look := Run(LandingLate(b), CFG), LookAt(3, {Hidden(b).rid}, false);
    LateIsSighted(b);
    RunSnoc(LandingLate(b), Sweeps(look, {1}), CFG);
    NothingSettled(s, look, Hidden(b).rid);
    FirstIsSettled(s, b, look);
  }

  /** The second order and what it has taken from the counters. */
  ghost predicate Then(s: State, pending: seq<Order>, inflight: Option<Record>, zombies: seq<Record>) {
    Rest(s, pending, inflight, zombies) && s.nextCommit == 3 && 2 in s.expiry && s.expiry[2] == 0
  }

  lemma SecondIsPlaced(s: State)
    requires Rest(s, [], None, []) && s.nextOid == 2 && s.nextCommit == 2
    ensures Then(Place(s, SEALED), [SECOND.(expiry := None)], None, [])
  {
  }

  lemma SecondIsBuilt(s: State, c: nat)
    requires Then(s, [SECOND.(expiry := None)], None, [])
    ensures var a := Args(4, [OFFER], c, map[]); var s' := Step(s, Building(a, {}), CFG);
            Honest(s, Building(a, {}), CFG) && Then(s', [], Some(RoundOf(SECOND, a)), [])
  {
    assert Attach(s.pending, s.expiry)[0] == SECOND;
    SealedMatches();
    PlainArgs(SECOND, 4, [OFFER], c, map[]);
    FreeIsCalm(s, SECOND, 4, [OFFER], c, map[]);
    BuildingOne(s, SECOND, Args(4, [OFFER], c, map[]));
  }

  lemma SecondIsSent(es: seq<Event>, c: nat)
    requires HonestRun(es, CFG) && Rest(Run(es, CFG), [], None, [])
    requires Run(es, CFG).nextOid == 2 && Run(es, CFG).nextCommit == 2
    ensures var es' := es + [Arrives(Placing(SEALED))] + [Building(Args(4, [OFFER], c, map[]), {})];
            HonestRun(es', CFG) && Then(Run(es', CFG), [], Some(RoundOf(SECOND, Args(4, [OFFER], c, map[]))), [])
  {
    RunSnoc(es, Arrives(Placing(SEALED)), CFG);
    SecondIsPlaced(Run(es, CFG));
    RunSnoc(es + [Arrives(Placing(SEALED))], Building(Args(4, [OFFER], c, map[]), {}), CFG);
    SecondIsBuilt(Place(Run(es, CFG), SEALED), c);
  }

  lemma SecondLandsLate(es: seq<Event>, c: nat)
    requires HonestRun(es, CFG) && Then(Run(es, CFG), [], Some(RoundOf(SECOND, Args(4, [OFFER], c, map[]))), [])
    ensures var es' := es + [Sweeps(LookAt(5, {}, true), {})] + [Sweeps(LookAt(6, {Again(c).rid}, false), {})];
            HonestRun(es', CFG) && Then(Run(es', CFG), [], None, [Again(c).(okSince := Some(6))])
  {
    var s, dead, late := Run(es, CFG), LookAt(5, {}, true), LookAt(6, {Again(c).rid}, false);
    RunSnoc(es, Sweeps(dead, {}), CFG);
    RunSnoc(es + [Sweeps(dead, {})], Sweeps(late, {}), CFG);
    RoundIs(SECOND, Args(4, [OFFER], c, map[]));
    NothingLands(s, 5, true);
    DeadIsReleased(s, s.inflight.value, dead, CFG, {});
    assert [SECOND] + [] == [SECOND] && [] + [Again(c)] == [Again(c)];
    OneLanding(Again(c).rid);
    LandsAlone(Sweep(s, dead, CFG, {}), Again(c), late, CFG, {});
    FilterNone([SECOND], FreeOf(Again(c).rid.keys));
  }

  lemma OverlappingIs(b: nat, c: nat)
    ensures HonestRun(Overlapping(b, c), CFG)
    ensures Then(Run(Overlapping(b, c), CFG), [], None, [Again(c).(okSince := Some(6))])
  {
    var sent := Waiting(b) + [Arrives(Placing(SEALED))] + [Building(Args(4, [OFFER], c, map[]), {})];
    FirstSettles(b);
    SecondIsSent(Waiting(b), c);
    SecondLandsLate(sent, c);
  }

  /** The loss happens: in these runs, which meet every assumption, a re-seal waits, the next
      settlement's re-seal is refused, and the drain that overlaps it loses the order. */
  lemma OverlapLoses(b: nat, c: nat, now: int, t: int, no: set<nat>)
    ensures var es := Overlapping(b, c); var s := Run(es, CFG);
            && HonestRun(es, CFG) && s.retry != [] && Holds(s.zombies, {}, 0)
            && !NoneLost(Overlapped(s, s.zombies[0], now, {3}, t, no), 0)
  {
    var es, s, z := Overlapping(b, c), Run(Overlapping(b, c), CFG), Again(c).(okSince := Some(6));
    OverlappingIs(b, c);
    SentIsHalfSold(SECOND, 4, c, z);
    Reseals(s, z, SECOND, now, {3});
    OverlapInRuns(es, CFG, 0, now, {3}, t, no);
    assert !NoneRefused({3}, 3, 4);
  }
}

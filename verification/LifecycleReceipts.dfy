/** Handing out a settled round's receipts keeps the invariant, moves its orders into the log
    one by one, and conserves every sealed order's quantity. */
module LifecycleReceipts {
  import opened Sequences
  import opened Orders
  import opened Clearing
  import opened Lifecycle
  import opened LifecycleInvariants

  // ---- small facts ----

  lemma FinSnoc(log: seq<Receipt>, rc: Receipt)
    ensures Fin(log + [rc]) == Fin(log) + {rc.key}
  {
    assert forall x :: x in log + [rc] <==> x in log || x == rc;
  }

  lemma KeySetConcat(a: seq<Order>, b: seq<Order>)
    ensures KeySet(a + b) == KeySet(a) + KeySet(b)
  {
    assert forall x :: x in a + b <==> x in a || x in b;
  }

  lemma DistinctKeysConcat(a: seq<Order>, b: seq<Order>)
    requires DistinctKeys(a) && DistinctKeys(b) && KeySet(a) !! KeySet(b)
    ensures DistinctKeys(a + b)
  {
    var s := a + b;
    forall i, j | 0 <= i < j < |s| ensures KeyOf(s[i]) != KeyOf(s[j]) {
      if j < |a| {
        assert s[i] == a[i] && s[j] == a[j];
      } else if i < |a| {
        assert s[i] in a && s[j] in b;
        assert KeyOf(s[i]) in KeySet(a) && KeyOf(s[j]) in KeySet(b);
      } else {
        assert s[i] == b[i - |a|] && s[j] == b[j - |a|];
      }
    }
  }

  /** The queue with one more order whose key is in neither list. */
  lemma Appended(q: seq<Order>, r: Order)
    requires DistinctKeys(q) && KeyOf(r) !in KeySet(q)
    ensures DistinctKeys(q + [r]) && KeySet(q + [r]) == KeySet(q) + {KeyOf(r)}
  {
    KeySetConcat(q, [r]);
    assert KeySet([r]) == {KeyOf(r)};
    DistinctKeysConcat(q, [r]);
  }

  // ---- one receipt ----

  /** The order is due a receipt from round `rid`, which is no longer tracked. */
  ghost predicate Due(s: State, c: Ctx, rid: RoundId, o: Order, fills: Fills) {
    && KeyOf(o) in c.fin && KeyOf(o) !in Fin(s.log) && KeyOf(o) in rid.keys
    && Known(s.accepted, o)
    && (o.sealed ==> Got(fills, o.oid) <= o.qty)
    && (s.inflight.Some? ==> s.inflight.value.rid != rid)
    && (forall j | Live(s.zombies, c.gone, j) :: s.zombies[j].rid != rid)
  }

  /** The state after logging a receipt, before any remainder. */
  function LogOnly(s: State, rc: Receipt): State {
    s.(ended := s.ended + {rc.key}, log := s.log + [rc])
  }

  /** A fresh incarnation `r` of a logged order joins the queue or the retry list. */
  function Reseal(s: State, r: Order, refused: bool): State {
    s.(nextCommit := s.nextCommit + 1,
       accepted := s.accepted[KeyOf(r) := r],
       tip := s.tip[r.oid := KeyOf(r)],
       retry := if refused then s.retry + [r] else s.retry,
       pending := if refused then s.pending else s.pending + [r])
  }

  function ReceiptFor(s: State, rid: RoundId, o: Order, fills: Fills, now: int): Receipt {
    var left, look := Unfilled(o, fills), if |s.looks| > 0 then |s.looks| - 1 else 0;
    var carries := o.sealed && left > 0 && !Overdue(s.expiry, o.oid, now);
    Receipt(rid, KeyOf(o), Got(fills, o.oid), if carries then 0 else left, look)
  }

  predicate Carries(s: State, o: Order, fills: Fills, now: int) {
    o.sealed && Unfilled(o, fills) > 0 && !Overdue(s.expiry, o.oid, now)
  }

  lemma ReceiptSplits(s: State, rid: RoundId, o: Order, fills: Fills, now: int, refused: set<nat>)
    ensures var l := LogOnly(s, ReceiptFor(s, rid, o, fills, now));
            ReceiptOne(s, rid, o, fills, now, refused) ==
              if Carries(s, o, fills, now)
                then Reseal(l, Remainder(o, Unfilled(o, fills), s.nextCommit), s.nextCommit in refused)
              else l
  {
  }

  /** Everything but the bookkeeping survives logging. */
  lemma LogKeeps(s: State, c: Ctx, rc: Receipt)
    requires Queues(s, c.fin) && Rounds(s, c) && Logged(s, c.fin, c.gone) && Custody(s, c.gone, c.held, c.fin)
    requires rc.key in c.fin && rc.key in rc.rid.keys
    requires s.inflight.Some? ==> s.inflight.value.rid != rc.rid
    requires forall j | Live(s.zombies, c.gone, j) :: s.zombies[j].rid != rc.rid
    ensures var l := LogOnly(s, rc);
            Queues(l, c.fin) && Rounds(l, c) && Logged(l, c.fin, c.gone) && Custody(l, c.gone, c.held, c.fin)
  {
    var l := LogOnly(s, rc);
    FinSnoc(s.log, rc);
    assert forall x :: x in l.log <==> x in s.log || x == rc;
    forall k | k in l.accepted && k !in l.ended
      ensures k in c.held || k in c.fin - Fin(l.log) || InCustody(k, l, c.gone)
    {
      assert InCustody(k, s, c.gone) ==> InCustody(k, l, c.gone);
    }
  }

  /** An incarnation nobody has seen yet. */
  ghost predicate Fresh(s: State, c: Ctx, r: Order) {
    KeyOf(r) !in s.accepted && KeyOf(r) !in c.fin && KeyOf(r) !in c.held
  }

  lemma KnownMore(accepted: map<Key, Order>, os: seq<Order>, r: Order)
    requires AllKnown(accepted, os) && KeyOf(r) !in accepted
    ensures AllKnown(accepted[KeyOf(r) := r], os) && KeyOf(r) !in KeySet(os)
  {
  }

  lemma RecordOkMore(accepted: map<Key, Order>, retry: set<Key>, rec: Record, r: Order)
    requires RecordOk(accepted, retry, rec) && KeyOf(r) !in accepted
    ensures RecordOk(accepted[KeyOf(r) := r], retry, rec)
    ensures RecordOk(accepted[KeyOf(r) := r], retry + {KeyOf(r)}, rec)
    ensures KeyOf(r) !in rec.rid.keys
  {
    KnownMore(accepted, rec.Orders(), r);
  }

  lemma ResealQueues(s: State, c: Ctx, r: Order, refused: bool)
    requires Queues(s, c.fin) && Fresh(s, c, r)
    ensures Queues(Reseal(s, r, refused), c.fin)
    ensures KeySet(Reseal(s, r, refused).retry) == KeySet(s.retry) + (if refused then {KeyOf(r)} else {})
    ensures KeySet(Reseal(s, r, refused).pending) == KeySet(s.pending) + (if refused then {} else {KeyOf(r)})
  {
    KnownMore(s.accepted, s.pending, r);
    KnownMore(s.accepted, s.retry, r);
    Appended(s.pending, r);
    Appended(s.retry, r);
    var accepted := s.accepted[KeyOf(r) := r];
    assert forall x :: x in s.pending + [r] <==> x in s.pending || x == r;
    assert forall x :: x in s.retry + [r] <==> x in s.retry || x == r;
    assert AllKnown(accepted, s.pending + [r]) && AllKnown(accepted, s.retry + [r]);
  }

  lemma ResealRounds(s: State, c: Ctx, r: Order, refused: bool)
    requires Queues(s, c.fin) && Rounds(s, c) && Fresh(s, c, r)
    ensures Rounds(Reseal(s, r, refused), c)
  {
    var s' := Reseal(s, r, refused);
    ResealQueues(s, c, r, refused);
    if s.inflight.Some? {
      RecordOkMore(s.accepted, KeySet(s.retry), s.inflight.value, r);
    }
    forall j | Live(s.zombies, c.gone, j)
      ensures RecordOk(s'.accepted, KeySet(s'.retry), s.zombies[j]) && KeyOf(r) !in s.zombies[j].rid.keys
    {
      RecordOkMore(s.accepted, KeySet(s.retry), s.zombies[j], r);
    }
  }

  lemma ResealKeeps(s: State, c: Ctx, r: Order, refused: bool)
    requires Queues(s, c.fin) && Rounds(s, c) && Logged(s, c.fin, c.gone) && Custody(s, c.gone, c.held, c.fin)
    requires Fresh(s, c, r)
    ensures var s' := Reseal(s, r, refused);
            Queues(s', c.fin) && Rounds(s', c) && Logged(s', c.fin, c.gone) && Custody(s', c.gone, c.held, c.fin)
  {
    var s' := Reseal(s, r, refused);
    ResealQueues(s, c, r, refused);
    ResealRounds(s, c, r, refused);
    forall k | k in s'.accepted && k !in s'.ended
      ensures k in c.held || k in c.fin - Fin(s'.log) || InCustody(k, s', c.gone)
    {
      assert k in s.accepted && InCustody(k, s, c.gone) ==> InCustody(k, s', c.gone);
    }
  }

  // ---- the bookkeeping of one receipt ----

  lemma TotalSnoc(log: seq<Receipt>, rc: Receipt, x: nat)
    ensures Total(log + [rc], LoggedFor(x)) == Total(log, LoggedFor(x)) + LoggedFor(x)(rc)
  {
    TotalConcat(log, [rc], LoggedFor(x));
  }

  lemma LogOnceSnoc(log: seq<Receipt>, rc: Receipt)
    requires LogOnce(log) && rc.key !in Fin(log)
    ensures LogOnce(log + [rc])
  {
    var l := log + [rc];
    forall i, j | 0 <= i < j < |l| ensures l[i].key != l[j].key {
      if j == |log| {
        assert log[i] in log;
        assert log[i].key in Fin(log);
      }
    }
  }

  lemma LogConserves(s: State, rc: Receipt, o: Order, x: nat)
    requires x in s.placed && ConservedAt(s, x) && Tips(s) && Known(s.accepted, o) && rc.key == KeyOf(o)
             && rc.key !in Fin(s.log)
    requires o.sealed ==> rc.filled + rc.left == o.qty
    requires o.sealed <==> o.commit.Some?
    ensures ConservedAt(LogOnly(s, rc), x)
  {
    FinSnoc(s.log, rc);
    TotalSnoc(s.log, rc, x);
    assert s.tip[o.oid] == KeyOf(o);
  }

  lemma LogBooks(s: State, rc: Receipt, o: Order)
    requires Books(s) && Known(s.accepted, o) && rc.key == KeyOf(o) && rc.key !in Fin(s.log)
    requires o.sealed ==> rc.filled + rc.left == o.qty
    ensures Books(LogOnly(s, rc))
  {
    FinSnoc(s.log, rc);
    LogOnceSnoc(s.log, rc);
    forall x | x in s.placed ensures ConservedAt(LogOnly(s, rc), x) {
      LogConserves(s, rc, o, x);
    }
  }

  /** The order `o`, not yet receipted, with a receipt that leaves `left` to its next incarnation. */
  ghost predicate Carried(s: State, rc: Receipt, o: Order, left: nat) {
    && Books(s) && Known(s.accepted, o) && rc.key == KeyOf(o) && rc.key !in Fin(s.log) && o.sealed
    && rc.filled + left == o.qty && rc.left == 0 && Fin(s.log) <= s.accepted.Keys
  }

  lemma ResealFresh(s: State, rc: Receipt, o: Order, left: nat)
    requires Carried(s, rc, o, left)
    ensures var k := KeyOf(Remainder(o, left, s.nextCommit));
            k !in s.accepted && k !in Fin(s.log + [rc]) && k.oid == o.oid && s.tip[o.oid] == KeyOf(o)
  {
    FinSnoc(s.log, rc);
  }

  lemma ResealTips(s: State, rc: Receipt, o: Order, left: nat, refused: bool)
    requires Carried(s, rc, o, left)
    ensures Tips(Reseal(LogOnly(s, rc), Remainder(o, left, s.nextCommit), refused))
  {
    var s' := Reseal(LogOnly(s, rc), Remainder(o, left, s.nextCommit), refused);
    ResealFresh(s, rc, o, left);
    FinSnoc(s.log, rc);
    forall k | k in s'.accepted && k !in Fin(s'.log) ensures k.oid in s'.tip && s'.tip[k.oid] == k {
      if k in s.accepted {
        assert s.tip[k.oid] == k;
      }
    }
  }

  lemma ResealConserves(s: State, rc: Receipt, o: Order, left: nat, refused: bool, x: nat)
    requires Carried(s, rc, o, left) && x in s.placed
    ensures ConservedAt(Reseal(LogOnly(s, rc), Remainder(o, left, s.nextCommit), refused), x)
  {
    ResealFresh(s, rc, o, left);
    FinSnoc(s.log, rc);
    TotalSnoc(s.log, rc, x);
    assert ConservedAt(s, x);
  }

  lemma ResealBooks(s: State, rc: Receipt, o: Order, left: nat, refused: bool)
    requires Carried(s, rc, o, left)
    ensures Books(Reseal(LogOnly(s, rc), Remainder(o, left, s.nextCommit), refused))
  {
    LogOnceSnoc(s.log, rc);
    ResealTips(s, rc, o, left, refused);
    forall x | x in s.placed
      ensures ConservedAt(Reseal(LogOnly(s, rc), Remainder(o, left, s.nextCommit), refused), x)
    {
      ResealConserves(s, rc, o, left, refused, x);
    }
    ResealFresh(s, rc, o, left);
  }

  /** One receipt keeps the invariant; the order leaves the ones due and enters the log. */
  lemma ReceiptOneKeeps(s: State, c: Ctx, rid: RoundId, o: Order, fills: Fills, now: int, refused: set<nat>)
    requires Core(s, c) && Due(s, c, rid, o, fills)
    ensures Core(ReceiptOne(s, rid, o, fills, now, refused), c)
  {
    var rc := ReceiptFor(s, rid, o, fills, now);
    ReceiptSplits(s, rid, o, fills, now, refused);
    LogKeeps(s, c, rc);
    if Carries(s, o, fills, now) {
      CarryFresh(s, c, rc, o, Unfilled(o, fills));
      ResealKeeps(LogOnly(s, rc), c, Remainder(o, Unfilled(o, fills), s.nextCommit), s.nextCommit in refused);
      ResealBooks(s, rc, o, Unfilled(o, fills), s.nextCommit in refused);
    } else {
      LogBooks(s, rc, o);
    }
  }

  lemma CarryFresh(s: State, c: Ctx, rc: Receipt, o: Order, left: nat)
    requires Counters(s) && c.fin <= s.accepted.Keys && c.held <= s.accepted.Keys
    ensures Fresh(LogOnly(s, rc), c, Remainder(o, left, s.nextCommit))
  {
  }

  lemma ReceiptOneFrame(s: State, rid: RoundId, o: Order, fills: Fills, now: int, refused: set<nat>)
    requires Counters(s)
    ensures var s' := ReceiptOne(s, rid, o, fills, now, refused);
            Fin(s'.log) == Fin(s.log) + {KeyOf(o)} && Kept(s, s')
  {
    FinSnoc(s.log, ReceiptFor(s, rid, o, fills, now));
  }

  ghost predicate Extends(accepted: map<Key, Order>, accepted': map<Key, Order>) {
    forall k | k in accepted :: k in accepted' && accepted'[k] == accepted[k]
  }

  /** What receipts leave alone, and how the rest grows. */
  ghost predicate Kept(s: State, s': State) {
    && s'.inflight == s.inflight && s'.zombies == s.zombies && s'.looks == s.looks && s'.expiry == s.expiry
    && s'.gate == s.gate && s'.placed == s.placed && s'.nextOid == s.nextOid
    && Extends(s.accepted, s'.accepted)
    && s.ended <= s'.ended
  }

  // ---- all of a round's receipts ----

  /** Every order of `os` is due a receipt. */
  ghost predicate AllDue(s: State, c: Ctx, rid: RoundId, os: seq<Order>, fills: Fills) {
    DistinctKeys(os) && forall o | o in os :: Due(s, c, rid, o, fills)
  }

  lemma DueStays(s: State, s': State, c: Ctx, rid: RoundId, o: Order, p: Order, fills: Fills)
    requires Due(s, c, rid, p, fills) && Kept(s, s') && Fin(s'.log) == Fin(s.log) + {KeyOf(o)} && KeyOf(p) != KeyOf(o)
    ensures Due(s', c, rid, p, fills)
  {
  }

  lemma AllDueTail(s: State, s': State, c: Ctx, rid: RoundId, os: seq<Order>, fills: Fills)
    requires os != [] && AllDue(s, c, rid, os, fills) && Kept(s, s') && Fin(s'.log) == Fin(s.log) + {KeyOf(os[0])}
    ensures AllDue(s', c, rid, os[1..], fills)
  {
    forall p | p in os[1..] ensures Due(s', c, rid, p, fills) {
      var i :| 0 <= i < |os[1..]| && os[1..][i] == p;
      assert p == os[i + 1];
      DueStays(s, s', c, rid, os[0], p, fills);
    }
  }

  /** Half way: of `os`, due in `s`, the orders `rest` are still due in `x`. */
  ghost predicate Handing(s: State, os: seq<Order>, c: Ctx, rid: RoundId, fills: Fills, x: State, rest: seq<Order>) {
    AllDue(x, c, rid, rest, fills) && Kept(s, x) && Fin(x.log) + KeySet(rest) == Fin(s.log) + KeySet(os)
  }

  lemma HandingStep(s: State, os: seq<Order>, c: Ctx, rid: RoundId, fills: Fills, x: State, x': State, rest: seq<Order>)
    requires Handing(s, os, c, rid, fills, x, rest) && rest != []
    requires Fin(x'.log) == Fin(x.log) + {KeyOf(rest[0])} && Kept(x, x')
    ensures Handing(s, os, c, rid, fills, x', rest[1..])
  {
    AllDueTail(x, x', c, rid, rest, fills);
    assert rest == [rest[0]] + rest[1..];
    KeySetConcat([rest[0]], rest[1..]);
  }

  lemma {:induction false} ReceiptInduction(s: State, rid: RoundId, os: seq<Order>, fills: Fills, now: int,
                                            refused: set<nat>, inv: (State, seq<Order>) -> bool)
    requires inv(s, os)
    requires forall x, rest | inv(x, rest) && rest != [] ::
             inv(ReceiptOne(x, rid, rest[0], fills, now, refused), rest[1..])
    ensures inv(ReceiptAll(s, rid, os, fills, now, refused), [])
    decreases |os|
  {
    if os == [] {
    } else {
      ReceiptInduction(ReceiptOne(s, rid, os[0], fills, now, refused), rid, os[1..], fills, now, refused, inv);
    }
  }

  ghost predicate HandingOk(s: State, os: seq<Order>, c: Ctx, rid: RoundId, fills: Fills, x: State, rest: seq<Order>) {
    Core(x, c) && Handing(s, os, c, rid, fills, x, rest)
  }

  lemma HandingOkStep(s: State, os: seq<Order>, c: Ctx, rid: RoundId, fills: Fills, x: State, rest: seq<Order>,
                      now: int, refused: set<nat>)
    requires HandingOk(s, os, c, rid, fills, x, rest) && rest != []
    ensures HandingOk(s, os, c, rid, fills, ReceiptOne(x, rid, rest[0], fills, now, refused), rest[1..])
  {
    ReceiptOneKeeps(x, c, rid, rest[0], fills, now, refused);
    ReceiptOneFrame(x, rid, rest[0], fills, now, refused);
    HandingStep(s, os, c, rid, fills, x, ReceiptOne(x, rid, rest[0], fills, now, refused), rest);
  }

  lemma ReceiptAllHands(s: State, c: Ctx, rid: RoundId, os: seq<Order>, fills: Fills, now: int, refused: set<nat>)
    requires HandingOk(s, os, c, rid, fills, s, os)
    ensures HandingOk(s, os, c, rid, fills, ReceiptAll(s, rid, os, fills, now, refused), [])
  {
    var inv := (x: State, rest: seq<Order>) => HandingOk(s, os, c, rid, fills, x, rest);
    forall x, rest | inv(x, rest) && rest != []
      ensures inv(ReceiptOne(x, rid, rest[0], fills, now, refused), rest[1..])
    {
      HandingOkStep(s, os, c, rid, fills, x, rest, now, refused);
    }
    ReceiptInduction(s, rid, os, fills, now, refused, inv);
  }

  /** Handing out every receipt that is due: each order enters the log, and nothing else does. */
  lemma ReceiptAllKeeps(s: State, c: Ctx, rid: RoundId, os: seq<Order>, fills: Fills, now: int, refused: set<nat>)
    requires Core(s, c) && AllDue(s, c, rid, os, fills)
    ensures var s' := ReceiptAll(s, rid, os, fills, now, refused);
            Core(s', c) && Fin(s'.log) == Fin(s.log) + KeySet(os) && Kept(s, s')
  {
    ReceiptAllHands(s, c, rid, os, fills, now, refused);
  }
}

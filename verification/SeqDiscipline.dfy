/** The per-account sequence discipline: a round is accepted only if every signed order beats
    its account's running floor, so the builder drops what cannot settle before submitting. */
module SeqDiscipline {
  import opened Sequences
  import opened Orders

  /** The order floor of each account; an account with no entry stands at 0. */
  type Floors = map<nat, nat>

  function At(f: Floors, a: nat): nat { if a in f then f[a] else 0 }

  /** The service's walk over a round: each seq strictly beats the floor, then becomes it. */
  predicate Accepts(q: seq<Order>, run: Floors) {
    q != [] ==> q[0].seqno > At(run, q[0].account) && Accepts(q[1..], run[q[0].account := q[0].seqno])
  }

  function ByAccountSeq(): (Order, Order) -> bool {
    (x: Order, y: Order) => x.account < y.account || (x.account == y.account && x.seqno <= y.seqno)
  }

  function InRoundOrder(os: seq<Order>): seq<Order> { Sort(os, ByAccountSeq()) }

  datatype Reason = Superseded | Duplicate
  datatype Dropped = Dropped(order: Order, reason: Reason)

  /** The orders kept and dropped so far, the floor read for each account seen, and that
      floor as raised by the orders kept. */
  datatype Sweep = Sweep(kept: seq<Order>, dead: seq<Dropped>, floors: Floors, run: Floors)

  function Read(s: Sweep, a: nat, floor: Floors): Sweep {
    if a in s.floors then s else s.(floors := s.floors[a := At(floor, a)], run := s.run[a := At(floor, a)])
  }

  function Judge(s: Sweep, o: Order): Sweep {
    if o.seqno <= At(s.floors, o.account) then s.(dead := s.dead + [Dropped(o, Superseded)])
    else if o.seqno <= At(s.run, o.account) then s.(dead := s.dead + [Dropped(o, Duplicate)])
    else s.(kept := s.kept + [o], run := s.run[o.account := o.seqno])
  }

  /** The sanitizer after the first `n` orders in round order. */
  function Steps(q: seq<Order>, n: nat, floor: Floors): Sweep
    requires n <= |q|
  {
    if n == 0 then Sweep([], [], map[], map[])
    else Judge(Read(Steps(q, n - 1, floor), q[n-1].account, floor), q[n-1])
  }

  function Sanitized(os: seq<Order>, floor: Floors): Sweep {
    Steps(InRoundOrder(os), |os|, floor)
  }

  lemma {:induction false} StepsRead(q: seq<Order>, n: nat, floor: Floors)
    requires n <= |q|
    ensures Steps(q, n, floor).floors.Keys == Steps(q, n, floor).run.Keys
  {
    if n == 0 {
    } else {
      StepsRead(q, n - 1, floor);
    }
  }

  method Sanitize(os: seq<Order>, floor: Floors) returns (kept: seq<Order>, dead: seq<Dropped>, floors: Floors)
    ensures Sweep(kept, dead, floors, Sanitized(os, floor).run) == Sanitized(os, floor)
  {
    var q := InRoundOrder(os);
    var run: Floors := map[];
    kept, dead, floors := [], [], map[];
    for i := 0 to |q|
      invariant Sweep(kept, dead, floors, run) == Steps(q, i, floor)
    {
      var o := q[i];
      StepsRead(q, i, floor);
      if o.account !in floors {
        floors, run := floors[o.account := At(floor, o.account)], run[o.account := At(floor, o.account)];
      }
      if o.seqno <= floors[o.account] {
        dead := dead + [Dropped(o, Superseded)];
      } else if o.seqno <= run[o.account] {
        dead := dead + [Dropped(o, Duplicate)];
      } else {
        kept := kept + [o];
        run := run[o.account := o.seqno];
      }
    }
  }

  // ---- what holds after every step ----

  /** The tables record the on-chain floor and the highest seq kept of every account seen. */
  ghost predicate Sound(s: Sweep, floor: Floors) {
    && s.floors.Keys == s.run.Keys
    && (forall a | a in s.floors :: s.floors[a] == At(floor, a) <= s.run[a])
    && (forall k | k in s.kept :: k.account in s.run && At(floor, k.account) < k.seqno <= s.run[k.account])
    && (forall a | a in s.run && s.run[a] > At(floor, a) :: Uses(s.kept, a, s.run[a]))
  }

  /** Some order of `q` uses up this (account, seq) pair. */
  ghost predicate Uses(q: seq<Order>, a: nat, n: nat) {
    exists o :: o in q && o.account == a && o.seqno == n
  }

  lemma UsesMore(q: seq<Order>, o: Order, a: nat, n: nat)
    ensures Uses(q, a, n) ==> Uses(q + [o], a, n)
    ensures Uses(q + [o], o.account, o.seqno)
  {
    assert o in q + [o];
    assert forall x :: x in q ==> x in q + [o];
  }

  lemma ReadSound(s: Sweep, a: nat, floor: Floors)
    requires Sound(s, floor)
    ensures Sound(Read(s, a, floor), floor)
  {
  }

  lemma JudgeSound(s: Sweep, o: Order, floor: Floors)
    requires Sound(s, floor) && o.account in s.run
    ensures Sound(Judge(s, o), floor)
  {
    if At(s.floors, o.account) < o.seqno && At(s.run, o.account) < o.seqno {
      KeepSound(s, o, floor);
    }
  }

  lemma KeepSound(s: Sweep, o: Order, floor: Floors)
    requires Sound(s, floor) && o.account in s.run && o.seqno > s.run[o.account]
    ensures Sound(s.(kept := s.kept + [o], run := s.run[o.account := o.seqno]), floor)
  {
    var run := s.run[o.account := o.seqno];
    forall a | a in run && run[a] > At(floor, a) ensures Uses(s.kept + [o], a, run[a]) {
      UsesMore(s.kept, o, a, run[a]);
    }
    assert forall k :: k in s.kept + [o] <==> k in s.kept || k == o;
  }

  /** An account's floor after the walk has passed over `q`. */
  function After(q: seq<Order>, run: Floors, a: nat): nat {
    if q == [] then At(run, a) else After(q[1..], run[q[0].account := q[0].seqno], a)
  }

  lemma {:induction false} AfterBound(q: seq<Order>, run: Floors, a: nat, top: nat)
    requires At(run, a) <= top && forall k | k in q && k.account == a :: k.seqno <= top
    ensures After(q, run, a) <= top
  {
    if q == [] {
    } else {
      AfterBound(q[1..], run[q[0].account := q[0].seqno], a, top);
    }
  }

  lemma {:induction false} AcceptsSnoc(q: seq<Order>, run: Floors, o: Order)
    requires Accepts(q, run) && o.seqno > After(q, run, o.account)
    ensures Accepts(q + [o], run)
  {
    if q == [] {
      assert q + [o] == [o];
    } else {
      AcceptsSnoc(q[1..], run[q[0].account := q[0].seqno], o);
      assert (q + [o])[1..] == q[1..] + [o];
    }
  }

  lemma JudgeAccepted(s: Sweep, o: Order, floor: Floors)
    requires Sound(s, floor) && o.account in s.run && Accepts(s.kept, floor)
    ensures Accepts(Judge(s, o).kept, floor)
  {
    if o.seqno > s.run[o.account] {
      AfterBound(s.kept, floor, o.account, s.run[o.account]);
      AcceptsSnoc(s.kept, floor, o);
    }
  }

  function Dropees(ds: seq<Dropped>): (r: seq<Order>)
    ensures |r| == |ds|
  {
    seq(|ds|, i requires 0 <= i < |ds| => ds[i].order)
  }

  ghost predicate Splits(s: Sweep, seen: seq<Order>) {
    multiset(s.kept) + multiset(Dropees(s.dead)) == multiset(seen)
  }

  lemma JudgeSplits(s: Sweep, o: Order, seen: seq<Order>)
    requires Splits(s, seen)
    ensures Splits(Judge(s, o), seen + [o])
  {
    var s' := Judge(s, o);
    if s'.kept == s.kept {
      assert Dropees(s'.dead) == Dropees(s.dead) + [o];
    }
  }

  /** Every seq above the floor seen so far is used by a kept order. */
  ghost predicate Covers(s: Sweep, seen: seq<Order>, floor: Floors) {
    && (forall o | o in seen && o.seqno > At(floor, o.account) :: Uses(s.kept, o.account, o.seqno))
    && (forall k | k in s.kept :: k in seen)
  }

  lemma JudgeCovers(s: Sweep, o: Order, seen: seq<Order>, floor: Floors)
    requires Sound(s, floor) && o.account in s.run && Covers(s, seen, floor)
    requires Precede(seen, o)
    ensures Covers(Judge(s, o), seen + [o], floor)
  {
    var s' := Judge(s, o);
    forall x | x in seen + [o] && x.seqno > At(floor, x.account) ensures Uses(s'.kept, x.account, x.seqno) {
      UsesMore(s.kept, o, x.account, x.seqno);
      if x == o && s'.kept == s.kept {
        assert Uses(s.kept, o.account, s.run[o.account]);
      }
    }
  }

  /** Every order seen so far comes no later than `o` in round order. */
  ghost predicate Precede(seen: seq<Order>, o: Order) {
    forall x | x in seen :: ByAccountSeq()(x, o)
  }

  /** Why an order is dropped: at or below the on-chain floor, or a kept order carries its seq. */
  ghost predicate Explained(s: Sweep, floor: Floors) {
    forall d | d in s.dead ::
      if d.reason.Superseded? then d.order.seqno <= At(floor, d.order.account)
      else d.order.seqno > At(floor, d.order.account) && Uses(s.kept, d.order.account, d.order.seqno)
  }

  ghost predicate Good(s: Sweep, seen: seq<Order>, floor: Floors) {
    Sound(s, floor) && Accepts(s.kept, floor) && Splits(s, seen) && Covers(s, seen, floor) && Explained(s, floor)
  }

  lemma JudgeExplained(s: Sweep, o: Order, seen: seq<Order>, floor: Floors)
    requires Sound(s, floor) && o.account in s.run && Explained(s, floor)
    requires Covers(Judge(s, o), seen + [o], floor)
    ensures Explained(Judge(s, o), floor)
  {
    var s' := Judge(s, o);
    assert o in seen + [o];
    forall d | d in s.dead && d.reason.Duplicate? ensures Uses(s'.kept, d.order.account, d.order.seqno) {
      UsesMore(s.kept, o, d.order.account, d.order.seqno);
    }
  }

  lemma StepGood(s: Sweep, o: Order, seen: seq<Order>, floor: Floors)
    requires Good(s, seen, floor) && Precede(seen, o)
    ensures Good(Judge(Read(s, o.account, floor), o), seen + [o], floor)
  {
    var r := Read(s, o.account, floor);
    ReadSound(s, o.account, floor);
    JudgeSound(r, o, floor);
    JudgeAccepted(r, o, floor);
    JudgeSplits(r, o, seen);
    JudgeCovers(r, o, seen, floor);
    JudgeExplained(r, o, seen, floor);
  }

  lemma SortedPrecede(q: seq<Order>, n: nat)
    requires SortedBy(q, ByAccountSeq()) && n < |q|
    ensures Precede(q[..n], q[n])
  {
  }

  /** Whatever holds of the empty sweep and is kept by every step in round order holds throughout. */
  lemma {:induction false} StepsInduction(q: seq<Order>, n: nat, floor: Floors, inv: (Sweep, seq<Order>) -> bool)
    requires forall i | 0 <= i < |q| :: Precede(q[..i], q[i])
    requires n <= |q| && inv(Sweep([], [], map[], map[]), [])
    requires forall s, o, seen {:trigger inv(s, seen), Precede(seen, o)} ::
               inv(s, seen) && Precede(seen, o) ==> inv(Judge(Read(s, o.account, floor), o), seen + [o])
    ensures inv(Steps(q, n, floor), q[..n])
  {
    if n == 0 {
    } else {
      StepsInduction(q, n - 1, floor, inv);
      assert Precede(q[..n-1], q[n-1]);
      assert q[..n] == q[..n-1] + [q[n-1]];
    }
  }

  lemma StepsGood(q: seq<Order>, floor: Floors)
    requires SortedBy(q, ByAccountSeq())
    ensures Good(Steps(q, |q|, floor), q, floor)
  {
    var inv := (s: Sweep, seen: seq<Order>) => Good(s, seen, floor);
    forall i | 0 <= i < |q| ensures Precede(q[..i], q[i]) {
      SortedPrecede(q, i);
    }
    forall s, o, seen | inv(s, seen) && Precede(seen, o) ensures inv(Judge(Read(s, o.account, floor), o), seen + [o]) {
      StepGood(s, o, seen, floor);
    }
    StepsInduction(q, |q|, floor, inv);
    assert q[..|q|] == q;
  }

  /** The kept orders pass the service's walk; per account they are exactly one order for each
      distinct seq above the floor; kept plus dead is the whole input; and each dropped order
      is below the on-chain floor or repeats a kept order's seq. */
  lemma SanitizeIsExact(os: seq<Order>, floor: Floors)
    ensures var s := Sanitized(os, floor);
            && Accepts(s.kept, floor)
            && multiset(s.kept) + multiset(Dropees(s.dead)) == multiset(os)
            && (forall a: nat, n: nat :: Uses(s.kept, a, n) <==> Uses(os, a, n) && n > At(floor, a))
            && Explained(s, floor)
  {
    var q, s := InRoundOrder(os), Sanitized(os, floor);
    SortSorted(os, ByAccountSeq());
    StepsGood(q, floor);
    GoodIsExact(s, q, os, floor);
  }

  lemma GoodIsExact(s: Sweep, q: seq<Order>, os: seq<Order>, floor: Floors)
    requires Good(s, q, floor) && multiset(q) == multiset(os)
    ensures forall a: nat, n: nat :: Uses(s.kept, a, n) <==> Uses(os, a, n) && n > At(floor, a)
  {
    forall o ensures o in q <==> o in os {
      PermMember(q, os, o);
    }
    forall a: nat, n: nat | Uses(s.kept, a, n) ensures Uses(os, a, n) && n > At(floor, a) {
      var k :| k in s.kept && k.account == a && k.seqno == n;
      assert k in os;
    }
    forall a: nat, n: nat | Uses(os, a, n) && n > At(floor, a) ensures Uses(s.kept, a, n) {
      var o :| o in os && o.account == a && o.seqno == n;
      assert o in q;
    }
  }

  // ---- and no acceptable round carries more ----

  function SlotsOf(q: seq<Order>): set<(nat, nat)> { set o | o in q :: (o.account, o.seqno) }

  lemma SlotsCons(o: Order, q: seq<Order>)
    ensures SlotsOf([o] + q) == {(o.account, o.seqno)} + SlotsOf(q)
  {
    assert forall x :: x in [o] + q <==> x == o || x in q;
  }

  lemma {:induction false} AcceptedAbove(q: seq<Order>, run: Floors, o: Order)
    requires Accepts(q, run) && o in q
    ensures o.seqno > At(run, o.account)
  {
    if o != q[0] {
      AcceptedAbove(q[1..], run[q[0].account := q[0].seqno], o);
    }
  }

  /** An accepted round uses no (account, seq) pair twice. */
  lemma {:induction false} AcceptedSlots(q: seq<Order>, run: Floors)
    requires Accepts(q, run)
    ensures |SlotsOf(q)| == |q|
  {
    if q == [] {
    } else {
      var o, rest := q[0], q[1..];
      var run' := run[o.account := o.seqno];
      AcceptedSlots(rest, run');
      forall x | x in rest ensures (x.account, x.seqno) != (o.account, o.seqno) {
        AcceptedAbove(rest, run', x);
      }
      SlotsCons(o, rest);
      assert q == [o] + rest;
    }
  }

  /** No acceptable round made of these orders carries more of them. */
  lemma SanitizeIsMaximal(os: seq<Order>, floor: Floors, other: seq<Order>)
    requires Accepts(other, floor) && forall o | o in other :: o in os
    ensures |other| <= |Sanitized(os, floor).kept|
  {
    var kept := Sanitized(os, floor).kept;
    SanitizeIsExact(os, floor);
    AcceptedSlots(other, floor);
    AcceptedSlots(kept, floor);
    forall o | o in other ensures (o.account, o.seqno) in SlotsOf(kept) {
      AcceptedAbove(other, floor, o);
      assert Uses(os, o.account, o.seqno);
      assert Uses(kept, o.account, o.seqno);
    }
    SubsetSize(SlotsOf(other), SlotsOf(kept));
  }

  lemma SubsetSize<T>(a: set<T>, b: set<T>)
    requires a <= b
    ensures |a| <= |b|
  {
    assert b == a + (b - a);
  }
}

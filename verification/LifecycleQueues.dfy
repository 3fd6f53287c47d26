/** Steps that only move orders between the queue, the retry list and a build's hands. */
module LifecycleQueues {
  import opened Sequences
  import opened Orders
  import opened Lifecycle
  import opened LifecycleInvariants
  import opened LifecycleReceipts
  import opened LifecycleClaims

  // ---- lists of orders by key ----

  lemma {:induction false} FilterDistinctKeys(q: seq<Order>, p: Order -> bool)
    requires DistinctKeys(q)
    ensures DistinctKeys(Filter(q, p))
  {
    FilterMembers(q, p);
    if q == [] {
    } else {
      FilterDistinctKeys(q[1..], p);
      FilterMembers(q[1..], p);
      forall o | o in q[1..] ensures KeyOf(o) != KeyOf(q[0]) {
        var i :| 0 <= i < |q[1..]| && q[1..][i] == o;
        assert o == q[i + 1];
      }
      assert KeySet([q[0]]) == {KeyOf(q[0])};
      if p(q[0]) {
        DistinctKeysConcat([q[0]], Filter(q[1..], p));
      }
    }
  }

  lemma DistinctKeysSplit(a: seq<Order>, b: seq<Order>)
    requires DistinctKeys(a + b)
    ensures DistinctKeys(a) && DistinctKeys(b) && KeySet(a) !! KeySet(b)
  {
    var s := a + b;
    forall i, j | 0 <= i < j < |a| ensures KeyOf(a[i]) != KeyOf(a[j]) {
      assert a[i] == s[i] && a[j] == s[j];
    }
    forall i, j | 0 <= i < j < |b| ensures KeyOf(b[i]) != KeyOf(b[j]) {
      assert b[i] == s[|a| + i] && b[j] == s[|a| + j];
    }
    forall x, y | x in a && y in b ensures KeyOf(x) != KeyOf(y) {
      var i :| 0 <= i < |a| && a[i] == x;
      var j :| 0 <= j < |b| && b[j] == y;
      assert s[i] == x && s[|a| + j] == y;
    }
  }

  ghost predicate KeysIdentify(q: seq<Order>) {
    forall x, y | x in q && y in q && KeyOf(x) == KeyOf(y) :: x == y
  }

  lemma DistinctKeysIff(q: seq<Order>)
    ensures DistinctKeys(q) <==> Distinct(q) && KeysIdentify(q)
  {
    if DistinctKeys(q) {
      forall x, y | x in q && y in q && KeyOf(x) == KeyOf(y) ensures x == y {
        var i :| 0 <= i < |q| && q[i] == x;
        var j :| 0 <= j < |q| && q[j] == y;
        assert i == j;
      }
      assert forall i, j | 0 <= i < j < |q| :: KeyOf(q[i]) != KeyOf(q[j]);
    }
  }

  /** Keys do not depend on the order of a list. */
  lemma PermKeys(a: seq<Order>, b: seq<Order>)
    requires multiset(a) == multiset(b) && DistinctKeys(a)
    ensures DistinctKeys(b) && KeySet(b) == KeySet(a) && forall x :: x in b <==> x in a
  {
    forall x ensures x in b <==> x in a {
      PermMember(a, b, x);
    }
    DistinctKeysIff(a);
    PermDistinct(a, b);
    DistinctKeysIff(b);
  }

  /** The same incarnations, with other display terms. */
  ghost predicate Retagged(a: seq<Order>, b: seq<Order>) {
    |a| == |b| && forall i | 0 <= i < |a| ::
      KeyOf(b[i]) == KeyOf(a[i]) && b[i].qty == a[i].qty && b[i].sealed == a[i].sealed
  }

  lemma RetaggedKeys(a: seq<Order>, b: seq<Order>, accepted: map<Key, Order>)
    requires Retagged(a, b)
    ensures KeySet(b) == KeySet(a) && (DistinctKeys(a) ==> DistinctKeys(b))
            && (AllKnown(accepted, a) ==> AllKnown(accepted, b))
  {
    forall o | o in b ensures KeyOf(o) in KeySet(a) && (AllKnown(accepted, a) ==> Known(accepted, o)) {
      var i :| 0 <= i < |b| && b[i] == o;
      assert a[i] in a;
    }
    forall o | o in a ensures KeyOf(o) in KeySet(b) {
      var i :| 0 <= i < |a| && a[i] == o;
      assert b[i] in b;
    }
  }

  // ---- moving orders between the queue and a build's hands ----

  /** Only the queue, the terminals, expiries and the gate change. */
  ghost predicate Moves(s: State, s': State) {
    && s' == s.(pending := s'.pending, ended := s'.ended, expiry := s'.expiry, gate := s'.gate)
    && s.ended <= s'.ended
  }

  /** Whatever is moved between the queue and a build's hands, or ends, the invariant stays. */
  lemma Regroup(s: State, s': State, held: set<Key>, held': set<Key>)
    requires Inv(s, held) && s.inflight.None? && Moves(s, s')
    requires DistinctKeys(s'.pending) && AllKnown(s.accepted, s'.pending) && KeySet(s'.pending) !! held'
    requires KeySet(s'.pending) + held' <= KeySet(s.pending) + held
    requires forall k | k in KeySet(s.pending) + held :: k in KeySet(s'.pending) || k in held' || k in s'.ended
    ensures Inv(s', held')
  {
    var c := Ctx({}, held', Fin(s.log), SightedRids(s.zombies), {});
    assert Queues(s', c.fin);
    RegroupRounds(s, s', held, held');
    SameBooks(s, s');
    assert Logged(s', c.fin, {});
    forall k | k in s'.accepted && k !in s'.ended ensures k in held' || InCustody(k, s', {}) {
      assert k in held || InCustody(k, s, {});
    }
  }

  lemma RegroupRounds(s: State, s': State, held: set<Key>, held': set<Key>)
    requires Inv(s, held) && s.inflight.None? && Moves(s, s')
    requires KeySet(s'.pending) !! held' && KeySet(s'.pending) + held' <= KeySet(s.pending) + held
    ensures Rounds(s', Ctx({}, held', Fin(s.log), SightedRids(s.zombies), {}))
  {
    forall j | Holds(s.zombies, {}, j) ensures s.zombies[j].rid.keys !! KeySet(s.pending) + held {
      assert s.zombies[j].rid in SightedRids(s.zombies);
    }
  }

  /** Orders in hand go to the front of the queue, others in hand end, the rest stays in hand. */
  lemma PutBack(s: State, s': State, held: set<Key>, back: seq<Order>, dead: set<Key>)
    requires Inv(s, held) && s.inflight.None? && Moves(s, s') && s'.pending == back + s.pending
    requires DistinctKeys(back) && AllKnown(s.accepted, back) && KeySet(back) <= held && dead <= s'.ended
    ensures Inv(s', held - KeySet(back) - dead)
    ensures KeySet(s'.pending) == KeySet(back) + KeySet(s.pending)
  {
    assert KeySet(back) !! KeySet(s.pending);
    DistinctKeysConcat(back, s.pending);
    KeySetConcat(back, s.pending);
    assert forall x :: x in back + s.pending <==> x in back || x in s.pending;
    assert AllKnown(s.accepted, back + s.pending);
    Regroup(s, s', held, held - KeySet(back) - dead);
  }

  // ---- accepting an order ----

  lemma NoneLogged(log: seq<Receipt>, x: nat)
    requires forall rc | rc in log :: rc.key.oid != x
    ensures Total(log, LoggedFor(x)) == 0
  {
    if log == [] {
    } else {
      NoneLogged(log[1..], x);
    }
  }

  /** The order an accepted ticket becomes. */
  function Accepted(s: State, n: Ticket): Order {
    var commit := if n.sealed then Some(s.nextCommit) else None;
    Order(n.account, s.nextOid, commit, n.side, n.price, n.qty, n.sealed, n.market, n.seqno, None)
  }

  lemma PlaceQueues(s: State, c: Ctx, n: Ticket)
    requires Queues(s, c.fin) && Rounds(s, c) && Counters(s) && c.fin <= s.accepted.Keys
    ensures Fresh(s, c, Accepted(s, n))
    ensures Queues(Place(s, n), c.fin)
    ensures KeySet(Place(s, n).pending) == KeySet(s.pending) + {KeyOf(Accepted(s, n))}
  {
    var o := Accepted(s, n);
    assert Place(s, n).pending == s.pending + [o] && Place(s, n).accepted == s.accepted[KeyOf(o) := o];
    KnownMore(s.accepted, s.pending, o);
    KnownMore(s.accepted, s.retry, o);
    Appended(s.pending, o);
    assert forall x :: x in s.pending + [o] <==> x in s.pending || x == o;
  }

  lemma PlaceRounds(s: State, c: Ctx, n: Ticket)
    requires Rounds(s, c) && Fresh(s, c, Accepted(s, n))
    requires KeySet(Place(s, n).pending) == KeySet(s.pending) + {KeyOf(Accepted(s, n))}
    ensures Rounds(Place(s, n), c)
  {
    var s', o := Place(s, n), Accepted(s, n);
    if s.inflight.Some? {
      RecordOkMore(s.accepted, KeySet(s.retry), s.inflight.value, o);
    }
    forall j | Live(s.zombies, c.gone, j)
      ensures RecordOk(s'.accepted, KeySet(s'.retry), s.zombies[j]) && KeyOf(o) !in s.zombies[j].rid.keys
    {
      RecordOkMore(s.accepted, KeySet(s.retry), s.zombies[j], o);
    }
  }

  lemma PlaceConserves(s: State, n: Ticket, x: nat)
    requires Books(s) && Fin(s.log) <= s.accepted.Keys && x in Place(s, n).placed
    ensures ConservedAt(Place(s, n), x)
  {
    if x == s.nextOid {
      forall rc | rc in s.log ensures rc.key.oid != x {
        assert rc.key in Fin(s.log);
      }
      NoneLogged(s.log, x);
      assert KeyOf(Accepted(s, n)) !in s.accepted;
    } else {
      assert ConservedAt(s, x);
    }
  }

  lemma PlaceBooks(s: State, n: Ticket)
    requires Books(s) && Fin(s.log) <= s.accepted.Keys
    ensures Books(Place(s, n))
  {
    forall x | x in Place(s, n).placed ensures ConservedAt(Place(s, n), x) {
      PlaceConserves(s, n, x);
    }
  }

  lemma PlaceCustody(s: State, held: set<Key>, n: Ticket)
    requires Custody(s, {}, held, Fin(s.log))
             && KeySet(Place(s, n).pending) == KeySet(s.pending) + {KeyOf(Accepted(s, n))}
    ensures Custody(Place(s, n), {}, held, Fin(s.log))
  {
    var s' := Place(s, n);
    forall k | k in s'.accepted && k !in s'.ended ensures k in held || InCustody(k, s', {}) {
      assert k in s.accepted ==> k in held || InCustody(k, s, {});
    }
  }

  /** Accepting an order keeps the invariant, also while a build has orders in hand. */
  lemma PlaceKeeps(s: State, held: set<Key>, n: Ticket)
    requires Inv(s, held)
    ensures Inv(Place(s, n), held)
  {
    var c := Ctx({}, held, Fin(s.log), SightedRids(s.zombies), {});
    PlaceQueues(s, c, n);
    PlaceRounds(s, c, n);
    PlaceBooks(s, n);
    PlaceCustody(s, held, n);
    PlaceLogged(s, n);
  }

  lemma PlaceLogged(s: State, n: Ticket)
    requires Logged(s, Fin(s.log), {})
    ensures Logged(Place(s, n), Fin(s.log), {})
  {
  }

  // ---- retrying re-seals ----

  /** The re-seals `rest` are out of the retry list and nowhere else yet. */
  ghost predicate Loose(s: State, rest: seq<Order>) {
    && DistinctKeys(rest) && AllKnown(s.accepted, rest)
    && KeySet(rest) !! KeySet(s.pending) && KeySet(rest) !! KeySet(s.retry)
    && (s.inflight.Some? ==> s.inflight.value.rid.keys !! KeySet(rest))
    && (forall j | Live(s.zombies, {}, j) :: s.zombies[j].rid.keys !! KeySet(rest))
  }

  ghost predicate Emptying(s: State, held: set<Key>, rest: seq<Order>) {
    Inv(s, held + KeySet(rest)) && Loose(s, rest) && held !! KeySet(rest)
  }

  lemma DrainStartRounds(s: State, held: set<Key>)
    requires Inv(s, held)
    ensures Rounds(s.(retry := []), Ctx({}, held + KeySet(s.retry), Fin(s.log), SightedRids(s.zombies), {}))
  {
    forall r | RecordOk(s.accepted, KeySet(s.retry), r)
      ensures RecordOk(s.accepted, {}, r) && r.rid.keys !! KeySet(s.retry)
    {}
    assert KeySet([]) == {};
  }

  lemma DrainStarts(s: State, held: set<Key>)
    requires Inv(s, held)
    ensures Emptying(s.(retry := []), held, s.retry)
  {
    var s' := s.(retry := []);
    assert KeySet(s'.retry) == {};
    DrainStartRounds(s, held);
    SameBooks(s, s');
    forall k | InCustody(k, s, {}) ensures InCustody(k, s', {}) || k in KeySet(s.retry) {}
  }

  lemma DrainTail(rest: seq<Order>)
    requires DistinctKeys(rest) && rest != []
    ensures DistinctKeys(rest[1..]) && KeyOf(rest[0]) !in KeySet(rest[1..])
    ensures KeySet(rest) == {KeyOf(rest[0])} + KeySet(rest[1..])
  {
    assert rest == [rest[0]] + rest[1..];
    DistinctKeysSplit([rest[0]], rest[1..]);
    KeySetConcat([rest[0]], rest[1..]);
    assert KeySet([rest[0]]) == {KeyOf(rest[0])};
  }

  lemma LongerKnown(accepted: map<Key, Order>, q: seq<Order>, r: Order)
    requires AllKnown(accepted, q) && Known(accepted, r)
    ensures AllKnown(accepted, q + [r])
  {
    assert forall x :: x in q + [r] <==> x in q || x == r;
  }

  /** One re-seal is queued, kept for later, or lapses. */
  lemma DrainQueues(s: State, s': State, held: set<Key>, rest: seq<Order>)
    requires Emptying(s, held, rest) && rest != []
             && s' == s.(pending := s'.pending, retry := s'.retry, ended := s'.ended)
    requires || s' == s.(ended := s.ended + {KeyOf(rest[0])}) || s' == s.(retry := s.retry + [rest[0]])
             || s' == s.(pending := s.pending + [rest[0]])
    ensures Queues(s', Fin(s.log)) && Loose(s', rest[1..]) && KeySet(rest) == {KeyOf(rest[0])} + KeySet(rest[1..])
    ensures KeySet(s'.pending) + KeySet(s'.retry) <= KeySet(s.pending) + KeySet(s.retry) + {KeyOf(rest[0])}
  {
    var r := rest[0];
    DrainTail(rest);
    assert Known(s.accepted, r) && AllKnown(s.accepted, rest[1..]);
    if s' == s.(retry := s.retry + [r]) {
      Appended(s.retry, r);
      LongerKnown(s.accepted, s.retry, r);
    } else if s' == s.(pending := s.pending + [r]) {
      Appended(s.pending, r);
      LongerKnown(s.accepted, s.pending, r);
    }
  }

  lemma DrainRounds(s: State, s': State, held: set<Key>, rest: seq<Order>)
    requires Emptying(s, held, rest) && rest != []
             && s' == s.(pending := s'.pending, retry := s'.retry, ended := s'.ended)
    requires Loose(s', rest[1..]) && KeySet(rest) == {KeyOf(rest[0])} + KeySet(rest[1..])
    requires KeySet(s'.pending) + KeySet(s'.retry) <= KeySet(s.pending) + KeySet(s.retry) + {KeyOf(rest[0])}
    requires KeySet(s'.pending) == KeySet(s.pending) || KeySet(s'.retry) == KeySet(s.retry)
    requires KeySet(s'.pending) <= KeySet(s.pending) + {KeyOf(rest[0])}
             && KeySet(s'.retry) <= KeySet(s.retry) + {KeyOf(rest[0])}
    ensures Rounds(s', Ctx({}, held + KeySet(rest[1..]), Fin(s.log), SightedRids(s.zombies), {}))
  {
    if s.inflight.Some? {
      assert RecordOk(s.accepted, KeySet(s'.retry), s.inflight.value);
    }
    forall j | Live(s.zombies, {}, j) ensures RecordOk(s.accepted, KeySet(s'.retry), s.zombies[j]) {
      assert RecordOk(s.accepted, KeySet(s.retry), s.zombies[j]);
    }
  }

  lemma DrainOneKeeps(s: State, held: set<Key>, rest: seq<Order>, now: int, refused: set<nat>)
    requires Emptying(s, held, rest) && rest != []
    ensures Emptying(DrainOne(s, rest[0], now, refused), held, rest[1..])
  {
    var s', r := DrainOne(s, rest[0], now, refused), rest[0];
    DrainQueues(s, s', held, rest);
    DrainMoves(s, r, now, refused);
    DrainRounds(s, s', held, rest);
    SameBooks(s, s');
    DrainCustody(s, s', held, rest);
  }

  lemma DrainMoves(s: State, r: Order, now: int, refused: set<nat>)
    ensures var s' := DrainOne(s, r, now, refused);
            && KeySet(s'.pending) <= KeySet(s.pending) + {KeyOf(r)} && KeySet(s'.retry) <= KeySet(s.retry) + {KeyOf(r)}
            && (KeySet(s'.pending) == KeySet(s.pending) || KeySet(s'.retry) == KeySet(s.retry))
            && KeySet(s.pending) <= KeySet(s'.pending) && KeySet(s.retry) <= KeySet(s'.retry)
            && (KeyOf(r) in KeySet(s'.pending) || KeyOf(r) in KeySet(s'.retry) || KeyOf(r) in s'.ended)
  {
    if Overdue(s.expiry, r.oid, now) {
    } else if r.commit.Some? && r.commit.value in refused {
      KeySetMore(s.retry, r);
    } else {
      KeySetMore(s.pending, r);
    }
  }

  lemma KeySetMore(q: seq<Order>, r: Order)
    ensures KeySet(q + [r]) == KeySet(q) + {KeyOf(r)}
  {
    KeySetConcat(q, [r]);
    assert KeySet([r]) == {KeyOf(r)};
  }

  lemma DrainCustody(s: State, s': State, held: set<Key>, rest: seq<Order>)
    requires Emptying(s, held, rest) && rest != []
             && s' == s.(pending := s'.pending, retry := s'.retry, ended := s'.ended)
    requires KeySet(rest) == {KeyOf(rest[0])} + KeySet(rest[1..]) && s.ended <= s'.ended
    requires KeySet(s.pending) <= KeySet(s'.pending) && KeySet(s.retry) <= KeySet(s'.retry)
    requires KeyOf(rest[0]) in KeySet(s'.pending) || KeyOf(rest[0]) in KeySet(s'.retry) || KeyOf(rest[0]) in s'.ended
    ensures Custody(s', {}, held + KeySet(rest[1..]), Fin(s.log)) && Logged(s', Fin(s.log), {})
  {
    forall k | k in s'.accepted && k !in s'.ended ensures k in held + KeySet(rest[1..]) || InCustody(k, s', {}) {
      assert k in held + KeySet(rest) || InCustody(k, s, {});
    }
  }

  lemma {:induction false} DrainInduction(s: State, items: seq<Order>, now: int, refused: set<nat>,
                                          inv: (State, seq<Order>) -> bool)
    requires inv(s, items)
    requires forall x, rest | inv(x, rest) && rest != [] :: inv(DrainOne(x, rest[0], now, refused), rest[1..])
    ensures inv(DrainAll(s, items, now, refused), [])
    decreases |items|
  {
    if items == [] {
    } else {
      DrainInduction(DrainOne(s, items[0], now, refused), items[1..], now, refused, inv);
    }
  }

  /** Retrying re-seals keeps the invariant, also while a build has orders in hand: each re-seal
      is queued, kept for later, or lapses with its order. */
  lemma DrainKeeps(s: State, held: set<Key>, now: int, refused: set<nat>)
    requires Inv(s, held)
    ensures Inv(Drain(s, now, refused), held)
  {
    DrainStarts(s, held);
    var inv := (x: State, rest: seq<Order>) => Emptying(x, held, rest);
    forall x, rest | inv(x, rest) && rest != [] ensures inv(DrainOne(x, rest[0], now, refused), rest[1..]) {
      DrainOneKeeps(x, held, rest, now, refused);
    }
    DrainInduction(s.(retry := []), s.retry, now, refused, inv);
    assert KeySet([]) == {} && held + {} == held;
  }

  function Lapsing(expiry: map<nat, int>, now: int): Order -> bool { (r: Order) => Overdue(expiry, r.oid, now) }
  function StillRefused(expiry: map<nat, int>, now: int, refused: set<nat>): Order -> bool {
    (r: Order) => !Overdue(expiry, r.oid, now) && r.commit.Some? && r.commit.value in refused
  }
  function Resealed(expiry: map<nat, int>, now: int, refused: set<nat>): Order -> bool {
    (r: Order) => !Overdue(expiry, r.oid, now) && !(r.commit.Some? && r.commit.value in refused)
  }

  /** The state once every item of `rest` is sorted by what becomes of it. */
  function DrainedTo(s: State, rest: seq<Order>, now: int, refused: set<nat>): State {
    s.(pending := s.pending + Filter(rest, Resealed(s.expiry, now, refused)),
       retry := s.retry + Filter(rest, StillRefused(s.expiry, now, refused)),
       ended := s.ended + KeySet(Filter(rest, Lapsing(s.expiry, now))))
  }

  lemma Prepended(q: seq<Order>, r: Order, rest: seq<Order>)
    ensures q + [r] + rest == q + ([r] + rest) && KeySet([r] + rest) == {KeyOf(r)} + KeySet(rest)
  {
    KeySetConcat([r], rest);
    assert KeySet([r]) == {KeyOf(r)};
  }

  lemma DrainedStep(s: State, rest: seq<Order>, now: int, refused: set<nat>)
    requires rest != []
    ensures DrainedTo(DrainOne(s, rest[0], now, refused), rest[1..], now, refused) == DrainedTo(s, rest, now, refused)
  {
    var r := rest[0];
    if Overdue(s.expiry, r.oid, now) {
      var late := Filter(rest[1..], Lapsing(s.expiry, now));
      Prepended([], r, late);
      assert s.ended + {KeyOf(r)} + KeySet(late) == s.ended + ({KeyOf(r)} + KeySet(late));
    } else {
      Prepended(s.pending, r, Filter(rest[1..], Resealed(s.expiry, now, refused)));
      Prepended(s.retry, r, Filter(rest[1..], StillRefused(s.expiry, now, refused)));
    }
  }

  lemma DrainSplits(s: State, items: seq<Order>, now: int, refused: set<nat>)
    ensures DrainAll(s, items, now, refused) == DrainedTo(s, items, now, refused)
  {
    var inv := (x: State, rest: seq<Order>) => DrainedTo(x, rest, now, refused) == DrainedTo(s, items, now, refused);
    forall x, rest | inv(x, rest) && rest != [] ensures inv(DrainOne(x, rest[0], now, refused), rest[1..]) {
      DrainedStep(x, rest, now, refused);
    }
    DrainInduction(s, items, now, refused, inv);
    var x := DrainAll(s, items, now, refused);
    assert x.pending + [] == x.pending && x.retry + [] == x.retry && x.ended + KeySet([]) == x.ended;
  }

  /** Each waiting re-seal ends exactly one way: expired, refused again, or queued, in order. */
  lemma DrainIsExact(s: State, now: int, refused: set<nat>)
    ensures Drain(s, now, refused) ==
              s.(pending := s.pending + Filter(s.retry, Resealed(s.expiry, now, refused)),
                 retry := Filter(s.retry, StillRefused(s.expiry, now, refused)),
                 ended := s.ended + KeySet(Filter(s.retry, Lapsing(s.expiry, now))))
  {
    DrainSplits(s.(retry := []), s.retry, now, refused);
    assert [] + Filter(s.retry, StillRefused(s.expiry, now, refused)) ==
      Filter(s.retry, StillRefused(s.expiry, now, refused));
  }

  // ---- arrivals, one after another ----

  /** Arrivals append to the queue and leave the rounds alone. */
  ghost predicate Arrived(s: State, s': State) {
    && s'.zombies == s.zombies && s'.inflight == s.inflight && s'.log == s.log && s'.looks == s.looks
    && s'.gate == s.gate
    && s.pending <= s'.pending && Extends(s.accepted, s'.accepted)
  }

  lemma DrainArrived(s: State, now: int, refused: set<nat>)
    ensures Arrived(s, Drain(s, now, refused))
  {
    DrainIsExact(s, now, refused);
  }

  lemma PlaceArrived(s: State, n: Ticket)
    requires Counters(s)
    ensures Arrived(s, Place(s, n))
  {
  }

  /** An arrival keeps the invariant, whatever a build has in hand. */
  lemma ArriveKeeps(s: State, held: set<Key>, v: Arrival)
    requires Inv(s, held)
    ensures Inv(Arrive(s, v), held) && Arrived(s, Arrive(s, v))
  {
    match v
    case Placing(n) =>
      PlaceKeeps(s, held, n);
      PlaceArrived(s, n);
    case Draining(now, refused) =>
      DrainKeeps(s, held, now, refused);
      DrainArrived(s, now, refused);
  }

  /** Whatever arrives while a build has orders in hand, the invariant stays. */
  lemma {:induction false} ArriveAllKeeps(s: State, held: set<Key>, vs: seq<Arrival>)
    requires Inv(s, held)
    ensures Inv(ArriveAll(s, vs), held) && Arrived(s, ArriveAll(s, vs))
    decreases |vs|
  {
    if vs == [] {
      assert ArriveAll(s, vs) == s;
    } else {
      ArriveKeeps(s, held, vs[0]);
      ArriveAllKeeps(Arrive(s, vs[0]), held, vs[1..]);
    }
  }

  /** The rounds and their history, whether or not the invariant holds. */
  ghost predicate SameRounds(s: State, s': State) {
    s'.zombies == s.zombies && s'.inflight == s.inflight && s'.log == s.log && s'.looks == s.looks
  }

  lemma ArriveRounds(s: State, v: Arrival)
    ensures SameRounds(s, Arrive(s, v))
  {
    if v.Draining? {
      DrainArrived(s, v.now, v.refused);
    }
  }

  lemma {:induction false} ArriveAllRounds(s: State, vs: seq<Arrival>)
    ensures SameRounds(s, ArriveAll(s, vs))
    decreases |vs|
  {
    if vs == [] {
      assert ArriveAll(s, vs) == s;
    } else {
      ArriveRounds(s, vs[0]);
      ArriveAllRounds(Arrive(s, vs[0]), vs[1..]);
    }
  }
}

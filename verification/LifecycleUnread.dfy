/** Why a sighted round that could not be read is assumed to be landed still: a run in which every
    look is consistent and durable, but a round read as landed sinks while its reads fail, and the
    round that lands in its place is dropped with no receipt for its order. */
module LifecycleUnread {
  import opened Sequences
  import opened Orders
  import opened Lifecycle
  import opened LifecycleInvariants
  import opened LifecycleRuns
  import opened LifecycleScenes
  import opened LifecycleReversal

  /** Two released rounds against different books carry the one order `o`. */
  ghost predicate Copies(a: Record, z: Record, o: Order) {
    && a.Orders() == [o] && z.Orders() == [o] && a.rid != z.rid && a.pruned == {} && z.pruned == {}
    && a.rid.keys == {KeyOf(o)} && z.rid.keys == {KeyOf(o)}
  }

  /** Both are tracked and nothing is in flight. */
  ghost predicate Both(s: State, a: Record, z: Record, pending: seq<Order>) {
    s.inflight.None? && s.zombies == [a, z] && s.pending == pending
  }

  ghost predicate Watched(z: Record, look: Look, cfg: Config) { look.time - z.releasedAt <= cfg.watch }

  lemma NotesOne(r: Record, q: Record, k: Key)
    requires r.rid.keys == {k} && q.rid.keys == {k}
    ensures NoteClaim(r, q) == r.(claimed := r.claimed[k := q.rid])
  {
    assert r.rid.keys * q.rid.keys == {k};
    assert NoteClaim(r, q).claimed == r.claimed[k := q.rid];
  }

  /** The first lands: it takes the order from the queue and claims it from the second. */
  lemma FirstLands(s: State, a: Record, z: Record, o: Order, look: Look, cfg: Config, refused: set<nat>)
    requires Both(s, a, z, [o]) && Copies(a, z, o) && !a.Sighted() && !z.Sighted() && z.claimed == map[]
    requires look.landed == {a.rid} && look.unread == {} && Watched(a, look, cfg) && Watched(z, look, cfg)
    ensures Sweep(s, look, cfg, refused) ==
              s.(pending := [], looks := s.looks + [look],
                 zombies := [a.(okSince := Some(look.time)), z.(claimed := map[KeyOf(o) := a.rid])])
  {
    var s1, a' := s.(looks := s.looks + [look]), a.(okSince := Some(look.time));
    TwoVisits(s, look, cfg, refused);
    NotesOne(z, a', KeyOf(o));
    FilterNone([o], FreeOf(a.rid.keys));
    assert Claim(Sight(s1, 0, Some(look.time)), 0).zombies == [a', z.(claimed := map[KeyOf(o) := a.rid])];
  }

  /** The second lands while the first cannot be read: now both hold the order. */
  lemma SecondLands(s: State, a: Record, z: Record, o: Order, look: Look, cfg: Config, refused: set<nat>)
    requires Both(s, a, z, []) && Copies(a, z, o) && a.Sighted() && !z.Sighted()
    requires look.landed == {z.rid} && look.unread == {a.rid} && Watched(z, look, cfg)
    ensures Sweep(s, look, cfg, refused) ==
              s.(looks := s.looks + [look],
                 zombies := [a.(claimed := a.claimed[KeyOf(o) := z.rid]), z.(okSince := Some(look.time))])
  {
    var s1, z' := s.(looks := s.looks + [look]), z.(okSince := Some(look.time));
    TwoVisits(s, look, cfg, refused);
    NotesOne(a, z', KeyOf(o));
    assert Claim(Sight(s1, 1, Some(look.time)), 1).zombies == [a.(claimed := a.claimed[KeyOf(o) := z.rid]), z'];
  }

  /** The second is final. Its order is claimed by the first, so nothing is receipted. */
  lemma SecondSettles(s: State, a: Record, z: Record, o: Order, look: Look, cfg: Config, refused: set<nat>)
    requires Both(s, a, z, []) && Copies(a, z, o) && a.Sighted() && z.Sighted() && KeyOf(o) in z.claimed
    requires Finds(look, z.rid) && look.unread == {a.rid}
    ensures Sweep(s, look, cfg, refused) == s.(looks := s.looks + [look], zombies := [a])
  {
    var s1 := s.(looks := s.looks + [look]);
    TwoVisits(s, look, cfg, refused);
    assert !RivalLanded(s1, 1, look);
    FilterNone([o], FreeOf(z.claimed.Keys));
    assert s1.expiry - z.pruned == s1.expiry;
  }

  /** The first is read again, as not landed: the order goes back to the queue. */
  lemma FirstSinks(s: State, a: Record, o: Order, look: Look, cfg: Config, refused: set<nat>)
    requires s.inflight.None? && s.zombies == [a] && s.pending == [] && a.Orders() == [o] && a.Sighted()
    requires a.rid !in look.landed && look.unread == {}
    ensures var s' := Sweep(s, look, cfg, refused);
            s' == s.(pending := [o], looks := s.looks + [look], zombies := [a.(okSince := None)])
  {
    var s1 := Sight(s.(looks := s.looks + [look]), 0, None);
    OneVisit(s, look, cfg, refused);
    assert Busy(s1, 0) == {};
    FilterAll([o], FreeOf(Busy(s1, 0)));
    assert [o] + [] == [o];
  }

  /** Both hold the order, and the second knows only of the first's claim. */
  ghost predicate TwoHold(s: State, a: Record, z: Record, o: Order) {
    && |s.zombies| == 2 && Both(s, s.zombies[0], s.zombies[1], []) && Copies(s.zombies[0], s.zombies[1], o)
    && s.zombies[0].Sighted() && s.zombies[1].Sighted() && KeyOf(o) in s.zombies[1].claimed
    && s.zombies[0].rid == a.rid && s.zombies[1].rid == z.rid
  }

  lemma BothLand(s: State, a: Record, z: Record, o: Order, l1: Look, l2: Look, cfg: Config)
    requires Both(s, a, z, [o]) && Copies(a, z, o) && !a.Sighted() && !z.Sighted() && z.claimed == map[]
    requires l1.landed == {a.rid} && l1.unread == {} && Watched(a, l1, cfg) && Watched(z, l1, cfg)
    requires l2.landed == {z.rid} && l2.unread == {a.rid} && Watched(z, l2, cfg)
    ensures !Readable(l2, Sweep(s, l1, cfg, {}).zombies)
    ensures var s2 := Sweep(Sweep(s, l1, cfg, {}), l2, cfg, {}); TwoHold(s2, a, z, o) && s2.log == s.log
  {
    var a1, z1 := a.(okSince := Some(l1.time)), z.(claimed := map[KeyOf(o) := a.rid]);
    FirstLands(s, a, z, o, l1, cfg, {});
    var s1 := Sweep(s, l1, cfg, {});
    assert a1 in s1.zombies;
    SecondLands(s1, a1, z1, o, l2, cfg, {});
  }

  lemma ReceiptLost(s: State, a: Record, z: Record, o: Order, l3: Look, l4: Look, cfg: Config)
    requires TwoHold(s, a, z, o)
    requires Finds(l3, z.rid) && l3.unread == {a.rid} && a.rid !in l4.landed && l4.unread == {}
    ensures var s' := Sweep(Sweep(s, l3, cfg, {}), l4, cfg, {});
            s'.pending == [o] && s'.log == s.log && forall r | r in s'.zombies :: r.rid != z.rid
  {
    SecondSettles(s, s.zombies[0], s.zombies[1], o, l3, cfg, {});
    FirstSinks(Sweep(s, l3, cfg, {}), s.zombies[0], o, l4, cfg, {});
  }

  // ---- the run ----

  /** An order is placed, sent and released twice, against books `b` and `c`. */
  function Twice(b: nat, c: nat): seq<Event> {
    Opened(TICKET, [], b) + [Building(Args(2, [], c, map[]), {}), Sweeps(LookAt(3, {}, true), {})]
  }

  function Again(c: nat): Record { Released(TICKET, 2, [], c, 3) }

  lemma TwiceIsHonest(b: nat, c: nat)
    requires b != c
    ensures Reaches(Twice(b, c), 5, TICKET, [ORDER], None, [Late(b), Again(c)])
  {
    var es := Twice(b, c);
    assert es[..3] == Opened(TICKET, [], b);
    SentAgain(es, b, c);
    SentIs(0, b);
    Releasing(es, 4, TICKET, [Late(b)], 2, [], c, 3);
  }

  /** At time `t` the round against `c` is landed and final; the one against `b` could not be read. */
  function Blind(t: int, b: nat, c: nat): Look { LookAt(t, {Rid(c)}, false).(unread := {Rid(b)}) }

  /** The round against `b` lands, and then the one against `c` while the other cannot be read. */
  function BothLanding(b: nat, c: nat): seq<Event> {
    [Sweeps(LookAt(4, {Rid(b)}, false), {}), Sweeps(Blind(5, b, c), {})]
  }

  /** The round against `c` is final while the other cannot be read, which then reads as not landed. */
  function Sinking(b: nat, c: nat): seq<Event> {
    [Sweeps(Blind(6, b, c), {}), Sweeps(LookAt(7, {Rid(c)}, false), {})]
  }

  lemma Carried(b: nat, c: nat)
    requires b != c
    ensures Copies(Late(b), Again(c), ORDER) && Late(b).rid == Rid(b) && Again(c).rid == Rid(c)
    ensures !Late(b).Sighted() && !Again(c).Sighted() && Again(c).claimed == map[]
  {
    SentIs(0, b);
    SentIs(2, c);
  }

  lemma AllBelievable(b: nat, c: nat, e: Event)
    requires e in BothLanding(b, c) + Sinking(b, c)
    ensures e.Sweeps? && Believable(e.look, [])
  {
    OneLanding(Rid(b));
    OneLanding(Rid(c));
  }

  lemma TwoComeToHold(b: nat, c: nat)
    requires b != c
    ensures var s := Run(Twice(b, c) + BothLanding(b, c), CFG);
            HonestRun(Twice(b, c), CFG) && TwoHold(s, Late(b), Again(c), ORDER) && s.log == []
  {
    var es := Twice(b, c);
    TwiceIsHonest(b, c);
    assert es[..5] == es;
    Carried(b, c);
    TwoSweeps(es, LookAt(4, {Rid(b)}, false), Blind(5, b, c), CFG);
    BothLand(Run(es, CFG), Late(b), Again(c), ORDER, LookAt(4, {Rid(b)}, false), Blind(5, b, c), CFG);
  }

  lemma ThenOneSinks(es: seq<Event>, b: nat, c: nat)
    requires TwoHold(Run(es, CFG), Late(b), Again(c), ORDER) && b != c
    ensures var s := Run(es + Sinking(b, c), CFG);
            s.pending == [ORDER] && s.log == Run(es, CFG).log && forall r | r in s.zombies :: r.rid != Rid(c)
  {
    Carried(b, c);
    TwoSweeps(es, Blind(6, b, c), LookAt(7, {Rid(c)}, false), CFG);
    ReceiptLost(Run(es, CFG), Late(b), Again(c), ORDER, Blind(6, b, c), LookAt(7, {Rid(c)}, false), CFG);
  }

  /** Reads that hide a reversal cannot be allowed: in these runs every look agrees with itself and
      with what is settled, yet two rounds come to hold the order at once, the round that lands is
      dropped without a receipt, and the order is queued again. */
  lemma ReadsAreNeeded(b: nat, c: nat)
    requires b != c
    ensures HonestRun(Twice(b, c), CFG)
    ensures forall e | e in BothLanding(b, c) + Sinking(b, c) :: e.Sweeps? && Believable(e.look, [])
    ensures TwoHold(Run(Twice(b, c) + BothLanding(b, c), CFG), Late(b), Again(c), ORDER)
    ensures var s := Run(Twice(b, c) + BothLanding(b, c) + Sinking(b, c), CFG);
            s.pending == [ORDER] && s.log == [] && forall r | r in s.zombies :: r.rid != Rid(c)
  {
    forall e | e in BothLanding(b, c) + Sinking(b, c) ensures e.Sweeps? && Believable(e.look, []) {
      AllBelievable(b, c, e);
    }
    TwoComeToHold(b, c);
    ThenOneSinks(Twice(b, c) + BothLanding(b, c), b, c);
  }
}

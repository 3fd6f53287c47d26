/** Small markets worked out step by step: one order, the rounds that carry it, and the looks that
    decide about them. The runs in which an assumption fails are made of these. */
module LifecycleScenes {
  import opened Sequences
  import opened Orders
  import opened Planning
  import PT = PlanningTheorems
  import opened BatchCap
  import BatchCapTheorems
  import SD = SeqDiscipline
  import opened Lifecycle
  import opened LifecycleInvariants
  import opened LifecycleClaims
  import opened LifecycleBuilds
  import opened LifecycleRuns

  // ---- looks that find nothing new ----

  /** The round stays as it is: not landed and still watched, or landed and not yet confirmed. */
  ghost predicate Unmoved(z: Record, look: Look, cfg: Config) {
    if z.Sighted() then look.Reads(z.rid) && !Confirmed(z, look, cfg)
    else z.rid !in look.landed && look.time - z.releasedAt <= cfg.watch
  }

  /** Nothing about the released rounds changes in this look. */
  ghost predicate Quiet(zs: seq<Record>, look: Look, cfg: Config) { forall z | z in zs :: Unmoved(z, look, cfg) }

  lemma {:induction false} NoneGone(zs: seq<Record>, n: nat)
    requires n <= |zs|
    ensures Survivors(zs, {}, n) == zs[..n]
  {
    if n == 0 {
      assert zs[..0] == [];
    } else {
      NoneGone(zs, n - 1);
      assert zs[..n] == zs[..n-1] + [zs[n-1]];
    }
  }

  lemma QuietSweep(s: State, look: Look, cfg: Config, refused: set<nat>)
    requires Quiet(s.zombies, look, cfg)
    ensures ResolveZombies(s, look, cfg, refused) == Visited(s.(looks := s.looks + [look]), false, {})
  {
    var start, step := Sweeping(s.(looks := s.looks + [look]), {}, {}), Visiting(look, cfg, refused);
    var inv := (w: Sweeping, n: nat) => w == start;
    forall w, i: nat | inv(w, i) && i < |s.zombies| ensures inv(step(w, i), i + 1) {
      assert s.zombies[i] in s.zombies;
      assert Visit(start.s, i, look, cfg, refused) == Visited(start.s, false, {});
    }
    IterateInduction(step, start, |s.zombies|, inv);
    NoneGone(s.zombies, |s.zombies|);
    assert s.zombies[..|s.zombies|] == s.zombies;
  }

  lemma QuietLook(s: State, look: Look, cfg: Config, refused: set<nat>)
    requires Quiet(s.zombies, look, cfg)
    ensures var v := Looked(s, look, cfg, refused); v.s == s.(looks := v.s.looks) && v.took == {}
  {
    QuietSweep(s, look, cfg, refused);
  }

  // ---- one released round, or two ----

  lemma OneVisit(s: State, look: Look, cfg: Config, refused: set<nat>)
    requires |s.zombies| == 1
    ensures var v := Visit(s.(looks := s.looks + [look]), 0, look, cfg, refused);
            |v.s.zombies| == 1 ==>
              ResolveZombies(s, look, cfg, refused).s == v.s.(zombies := if v.drop then [] else v.s.zombies)
  {
    var w0, step := Sweeping(s.(looks := s.looks + [look]), {}, {}), Visiting(look, cfg, refused);
    var w := VisitUpTo(s, 1, look, cfg, refused);
    assert Iterate(step, w0, 1) == step(Iterate(step, w0, 0), 0);
    assert w == VisitNext(w0, 0, look, cfg, refused);
    if |w.s.zombies| == 1 {
      assert Survivors(w.s.zombies, w.gone, 1) ==
               Survivors(w.s.zombies, w.gone, 0) + (if 0 in w.gone then [] else [w.s.zombies[0]]);
    }
  }

  lemma TwoVisits(s: State, look: Look, cfg: Config, refused: set<nat>)
    requires |s.zombies| == 2
    ensures var v := Visit(s.(looks := s.looks + [look]), 0, look, cfg, refused);
            |v.s.zombies| == 2 && !v.drop ==>
              var u := Visit(v.s, 1, look, cfg, refused);
              |u.s.zombies| == 2 ==>
                ResolveZombies(s, look, cfg, refused).s ==
                  u.s.(zombies := if u.drop then [u.s.zombies[0]] else u.s.zombies)
  {
    var w0, step := Sweeping(s.(looks := s.looks + [look]), {}, {}), Visiting(look, cfg, refused);
    var w1, w := VisitUpTo(s, 1, look, cfg, refused), VisitUpTo(s, 2, look, cfg, refused);
    assert Iterate(step, w0, 1) == step(Iterate(step, w0, 0), 0);
    assert w1 == VisitNext(w0, 0, look, cfg, refused);
    assert w == step(w1, 1);
    if |w.s.zombies| == 2 {
      assert Survivors(w.s.zombies, w.gone, 2) ==
               Survivors(w.s.zombies, w.gone, 1) + (if 1 in w.gone then [] else [w.s.zombies[1]]);
      assert Survivors(w.s.zombies, w.gone, 1) ==
               Survivors(w.s.zombies, w.gone, 0) + (if 0 in w.gone then [] else [w.s.zombies[0]]);
    }
  }

  /** The only round tracked is read as landed: it takes its orders from the queue. */
  lemma LandsAlone(s: State, z: Record, look: Look, cfg: Config, refused: set<nat>)
    requires s.inflight.None? && s.zombies == [z] && !z.Sighted() && look.Reads(z.rid)
    requires look.time - z.releasedAt <= cfg.watch
    ensures Sweep(s, look, cfg, refused) ==
              s.(pending := Filter(s.pending, FreeOf(z.rid.keys)), looks := s.looks + [look],
                 zombies := [z.(okSince := Some(look.time))])
  {
    var s1 := s.(looks := s.looks + [look]);
    OneVisit(s, look, cfg, refused);
    ClaimShape(s1, 0, look.time);
    assert Claim(Sight(s1, 0, Some(look.time)), 0).zombies == [z.(okSince := Some(look.time))];
  }

  // ---- a build of the one order that is queued ----

  function PlanOne(o: Order): Plan {
    if o.sealed then Plan([o], [], [], [], [], []) else Plan([], [o], [], [], [], [])
  }

  function BatchOne(o: Order): Batch { if o.sealed then Batch([o], [], []) else Batch([], [o], []) }

  /** A sealed order is shown if it is ready and the book has a counterparty. */
  ghost predicate Shows(o: Order, resting: seq<Order>, ready: Ready) {
    o.sealed ==> ready(o) && PT.HasMatch(o, resting)
  }

  lemma OneIsOne(q: seq<Order>, o: Order)
    requires multiset(q) == multiset([o])
    ensures q == [o]
  {
    PermSize(q, [o]);
    PermMember([o], q, o);
  }

  lemma SealedRound(o: Order, resting: seq<Order>, now: int, ready: Ready)
    requires o.sealed && Shows(o, resting, ready)
    ensures PlanRound([o], resting, now, ready) == PlanOne(o)
  {
    var all := Liquidity([o], resting, ready);
    FilterAll([o], ReadySealed(ready));
    FilterNone([o], UnreadySealed(ready));
    FilterNone([o], IsPublic());
    var x :| x in resting && Matches(o, x);
    assert x in all;
    PT.CrossesIffMatch(all, o);
    var ms, mb := LowestSell(all), HighestBuy(all);
    FilterAll([o], Crossing(ms, mb));
    FilterNone([o], Hidden(ms, mb, now));
    FilterNone([o], Late(ms, mb, now));
  }

  /** An order alone in the queue is all there is to plan. */
  lemma OneRound(o: Order, resting: seq<Order>, now: int, ready: Ready)
    requires Shows(o, resting, ready)
    ensures PlanRound([o], resting, now, ready) == PlanOne(o)
  {
    if o.sealed {
      SealedRound(o, resting, now, ready);
    } else {
      FilterNone([o], ReadySealed(ready));
      FilterNone([o], UnreadySealed(ready));
      FilterAll([o], IsPublic());
    }
  }

  lemma OneFits(o: Order, gas: Gas, lim: Limits)
    requires gas(o) <= lim.budget && lim.cap > 0 && lim.sealedCap.None?
    ensures BatchCap.Batch([o], gas, lim) == [o]
  {
    BatchCapTheorems.DealPermutes([o]);
    OneIsOne(Deal([o]), o);
    assert [o][1..] == [];
    assert Walk([o], gas, lim, 0, 0, 0) == [o] + Walk([], gas, lim, 1, gas(o), if o.sealed then 1 else 0);
  }

  /** A build of the order `o`, with nothing arriving. */
  ghost predicate Plain(o: Order, a: BuildArgs) {
    && !o.market && Shows(o, a.resting, a.ready)
    && a.gas(o) <= a.lim.budget && a.lim.cap > 0 && a.lim.sealedCap.None?
    && a.fate.Submitted? && a.pruned == {} && a.early == [] && a.middle == [] && a.late == []
  }

  lemma OneRefill(o: Order, a: BuildArgs, crossing: set<Order>)
    requires Plain(o, a) && (o.sealed ==> o in crossing)
    ensures Refill([o], a.resting, CapPolicy(a.gas, a.lim), a.now, crossing) == PlanOne(o)
  {
    FilterAll([o], Candidate(crossing));
    OneFits(o, a.gas, a.lim);
    OneRound(o, a.resting, a.now, AllReady());
  }

  /** It is batched, if a round can carry it. */
  lemma OneIsPlanned(o: Order, a: BuildArgs)
    requires Plain(o, a)
    ensures PlanBatch([o], a.resting, CapPolicy(a.gas, a.lim), a.now, a.ready) == PlanOne(o)
  {
    OneRound(o, a.resting, a.now, a.ready);
    OneRefill(o, a, Members(PlanOne(o).shown));
    var r := PlanPasses([o], a.resting, CapPolicy(a.gas, a.lim), a.now, a.ready);
    assert r == Passed(PlanOne(o), [], []);
    assert o in PlanOne(o).shown + PlanOne(o).public + [] + [] + [];
    FilterNone([o], NotIn(Placed(r, [])));
  }

  lemma EndNone(s: State)
    ensures End(s, []) == s
  {
    assert KeySet([]) == {} && s.ended + {} == s.ended;
    assert (set x: Order | x in [] :: x.oid) == {};
    assert s.expiry - {} == s.expiry;
  }

  /** The market's only order is queued; `o` is that order with its expiry attached. */
  ghost predicate Waits(s: State, o: Order) {
    s.inflight.None? && s.gate.None? && Attach(s.pending, s.expiry) == [o]
  }

  /** The order leaves the mempool. */
  lemma OneIsTaken(s: State, o: Order, a: BuildArgs)
    requires Waits(s, o) && Plain(o, a)
    ensures PlanOf(s, a) == PlanOne(o) && Underway(s, a) == s.(pending := [])
  {
    OneIsPlanned(o, a);
    assert Members([] + [] + []) == {};
    FilterNone([o], InSet({}));
    EndNone(s.(pending := []));
  }

  // ---- the sequence discipline over at most one order ----

  /** Of one order, what is not dropped is kept. */
  lemma OneSplits(kept: seq<Order>, dropped: seq<Order>, o: Order)
    requires multiset(kept) + multiset(dropped) == multiset([o])
    ensures if o in kept then kept == [o] && dropped == [] else kept == [] && dropped == [o]
  {
    OneIsOne(kept + dropped, o);
  }

  lemma OneSanitized(o: Order, floor: SD.Floors)
    ensures var sane := SD.Sanitized([o], floor);
            if o.seqno > SD.At(floor, o.account) then sane.kept == [o] && SD.Dropees(sane.dead) == []
            else sane.kept == [] && SD.Dropees(sane.dead) == [o]
  {
    var sane := SD.Sanitized([o], floor);
    SD.SanitizeIsExact([o], floor);
    OneSplits(sane.kept, SD.Dropees(sane.dead), o);
    assert SD.Uses([o], o.account, o.seqno);
    assert SD.Uses(sane.kept, o.account, o.seqno) <==> o in sane.kept;
  }

  lemma NoneSanitized(floor: SD.Floors)
    ensures SD.Sanitized([], floor).kept == [] && SD.Dropees(SD.Sanitized([], floor).dead) == []
  {
  }

  /** What the build makes of its batch: a public order at or below its floor is dead. */
  function Judged(o: Order, a: BuildArgs): Batch {
    if !o.sealed && o.seqno <= SD.At(a.floor, o.account) then Batch([], [], [o]) else BatchOne(o)
  }

  lemma OneBatch(o: Order, a: BuildArgs)
    requires Plain(o, a)
    ensures Unclaimed(Disciplined(PlanOne(o), a), {}) == Judged(o, a)
  {
    var lp := a.lastPrice;
    FilterAll([o], FreeOf({}));
    if o.sealed {
      assert Reprice([], lp) == [];
      NoneSanitized(a.floor);
    } else {
      FilterAll([o], Priceable(lp));
      FilterNone([o], Unpriceable(lp));
      assert Reprice([o], lp)[0] == o;
      assert Reprice([o], lp) == [o];
      OneSanitized(o, a.floor);
      assert [] + [o] == [o];
    }
  }

  // ---- the order is sent, or ends ----

  /** The round such a build makes. */
  function RoundOf(o: Order, a: BuildArgs): Record { NewRecord(BatchOne(o), a) }

  lemma OneShown(o: Order, a: BuildArgs)
    requires Plain(o, a)
    ensures StillShown(BatchOne(o), a) == BatchOne(o).sealed
  {
    assert BatchOne(o).sealed + BatchOne(o).public == [o];
    OneRound(o, a.resting, a.now, AllReady());
  }

  lemma OneAssembled(s: State, o: Order, taken: seq<Order>, a: BuildArgs)
    requires Plain(o, a) && forall z | z in s.zombies :: z.rid != RoundOf(o, a).rid
    ensures Assemble(s, BatchOne(o), taken, [], a) == s.(inflight := Some(RoundOf(o, a)))
  {
    var b := BatchOne(o);
    EndNone(s);
    OneShown(o, a);
    FilterNone(b.sealed, NotIn(Members(b.sealed)));
    assert [] + s.pending == s.pending;
    FilterAll(s.zombies, OtherThan(RoundOf(o, a).rid));
  }

  lemma DeadAssembled(s: State, o: Order, taken: seq<Order>, a: BuildArgs)
    requires Plain(o, a)
    ensures Assemble(s, Batch([], [], [o]), taken, [], a) == End(s, [o])
  {
    var s1 := End(s, [o]);
    assert [] + s1.pending == s1.pending;
  }

  lemma OneOpens(s: State, a: BuildArgs, cfg: Config, refused: set<nat>)
    requires s.gate.None? && Quiet(s.zombies, a.first, cfg) && a.early == []
    ensures var s1 := Opening(s, a, cfg, refused); s1 == s.(looks := s1.looks)
  {
    assert s.(gate := None) == s;
    QuietLook(s, a.first, cfg, refused);
  }

  lemma JudgedAssembled(s: State, o: Order, taken: seq<Order>, a: BuildArgs)
    requires Plain(o, a) && forall z | z in s.zombies :: z.rid != RoundOf(o, a).rid
    ensures Assemble(s, Judged(o, a), taken, [], a) ==
              if Judged(o, a) == BatchOne(o) then s.(inflight := Some(RoundOf(o, a))) else End(s, [o])
  {
    if Judged(o, a) == BatchOne(o) {
      OneAssembled(s, o, taken, a);
    } else {
      DeadAssembled(s, o, taken, a);
    }
  }

  lemma FinishFrom(s: State, plan: Plan, taken: seq<Order>, a: BuildArgs, cfg: Config, refused: set<nat>)
    requires a.fate.Submitted? && a.late == []
    ensures var v := Looked(s, a.second, cfg, refused);
            Finish(s, plan, taken, a, cfg, refused) ==
              Assemble(v.s, Unclaimed(Disciplined(plan, a), v.took), taken, plan.expired, a)
  {
  }

  lemma OneFinishes(s: State, o: Order, taken: seq<Order>, a: BuildArgs, cfg: Config, refused: set<nat>)
    requires Plain(o, a) && Quiet(s.zombies, a.second, cfg)
    requires forall z | z in s.zombies :: z.rid != RoundOf(o, a).rid
    ensures var s' := Finish(s, PlanOne(o), taken, a, cfg, refused);
            var x := s.(looks := s'.looks);
            s' == if Judged(o, a) == BatchOne(o) then x.(inflight := Some(RoundOf(o, a))) else End(x, [o])
  {
    QuietLook(s, a.second, cfg, refused);
    OneBatch(o, a);
    FinishFrom(s, PlanOne(o), taken, a, cfg, refused);
    JudgedAssembled(Looked(s, a.second, cfg, refused).s, o, taken, a);
  }

  /** A build whose only order is `o` puts it in flight, or ends it if its seq is stale. */
  lemma OneIsBuilt(s: State, o: Order, a: BuildArgs, cfg: Config, refused: set<nat>)
    requires Waits(s, o) && Plain(o, a) && Quiet(s.zombies, a.first, cfg) && Quiet(s.zombies, a.second, cfg)
    requires forall z | z in s.zombies :: z.rid != RoundOf(o, a).rid
    ensures var s' := Build(s, a, cfg, refused);
            var x := s.(pending := [], looks := s'.looks);
            s' == if Judged(o, a) == BatchOne(o) then x.(inflight := Some(RoundOf(o, a))) else End(x, [o])
  {
    var s1 := Opening(s, a, cfg, refused);
    OneOpens(s, a, cfg, refused);
    OneIsTaken(s1, o, a);
    BuildFrom(s, a, cfg, refused);
    OneFinishes(Underway(s1, a), o, Took(s1, a), a, cfg, refused);
  }

  /** A round found dead is released at once, if the builder does not wait to confirm it. */
  lemma DeadIsReleased(s: State, r: Record, look: Look, cfg: Config, refused: set<nat>)
    requires s.inflight == Some(r) && !r.Sighted() && r.deadSince.None? && r.claimed == map[]
    requires look.FindsDead(r.rid) && cfg.deadConfirm <= 0
    requires Quiet(s.zombies, look, cfg) && |s.zombies| < ZOMBIE_CAP
    ensures Sweep(s, look, cfg, refused) ==
              s.(inflight := None, pending := r.Orders() + s.pending, looks := s.looks + [look],
                 zombies := s.zombies + [r.(deadSince := Some(look.time), okSince := None, releasedAt := look.time)])
  {
    QuietSweep(s, look, cfg, refused);
    var r' := r.(deadSince := Some(look.time));
    FilterAll(r'.Orders(), FreeOf(r'.claimed.Keys));
  }

  // ---- runs ----

  lemma RunSnoc(es: seq<Event>, e: Event, cfg: Config)
    ensures Run(es + [e], cfg) == Step(Run(es, cfg), e, cfg)
    ensures HonestRun(es + [e], cfg) <==> HonestRun(es, cfg) && Honest(Run(es, cfg), e, cfg)
  {
    assert (es + [e])[..|es|] == es;
  }

  const CFG := Config(0, 100, 100, None, 0)

  lemma Next(es: seq<Event>, n: nat)
    requires n < |es|
    ensures Run(es[..n+1], CFG) == Step(Run(es[..n], CFG), es[n], CFG)
    ensures HonestRun(es[..n+1], CFG) <==> HonestRun(es[..n], CFG) && Honest(Run(es[..n], CFG), es[n], CFG)
  {
    RunSnoc(es[..n], es[n], CFG);
    assert es[..n+1] == es[..n] + [es[n]];
  }

  function LookAt(t: int, landed: set<RoundId>, dead: bool): Look { Look(t, landed, landed, true, true, dead, {}, {}) }

  /** A build at time `t` against a book, which reads no landing. */
  function Args(t: int, resting: seq<Order>, book: nat, floor: SD.Floors): BuildArgs {
    BuildArgs(t, LookAt(t, {}, false), LookAt(t, {}, false), resting, {}, book, (o: Order) => true, (o: Order) => 0,
              Limits(1, 0, None), 0, floor, Submitted, [], [], [])
  }

  /** The order the first ticket becomes, with its expiry attached. */
  function OrderOf(n: Ticket): Order {
    Order(n.account, 1, if n.sealed then Some(0) else None, n.side, n.price, n.qty, n.sealed, n.market, n.seqno,
          Some(n.expires))
  }

  /** The market has seen the one ticket, and nothing has ended or settled. */
  ghost predicate Stands(s: State, n: Ticket, pending: seq<Order>, inflight: Option<Record>, zombies: seq<Record>) {
    && s.pending == pending && s.inflight == inflight && s.zombies == zombies
    && s.gate.None? && s.retry == [] && s.expiry == map[1 := n.expires] && s.log == [] && s.ended == {}
    && s.nextOid == 2 && s.nextCommit == (if n.sealed then 1 else 0)
    && s.accepted == map[KeyOf(OrderOf(n)) := OrderOf(n).(expiry := None)]
  }

  /** The run so far is honest and leaves the market like this. */
  ghost predicate Reaches(es: seq<Event>, m: nat, n: Ticket, pending: seq<Order>, inflight: Option<Record>,
                          zombies: seq<Record>)
    requires m <= |es|
  {
    HonestRun(es[..m], CFG) && Stands(Run(es[..m], CFG), n, pending, inflight, zombies)
  }

  lemma Starting(es: seq<Event>, n: Ticket)
    requires es != [] && es[0] == Arrives(Placing(n))
    ensures Reaches(es, 1, n, [OrderOf(n).(expiry := None)], None, [])
  {
    assert es[..0] == [];
    Next(es, 0);
  }

  lemma OneLanding(r: RoundId)
    ensures Consistent({}) && Consistent({r})
  {
  }

  /** A look that finds at most one round, while nothing is settled. */
  lemma NothingSettled(s: State, look: Look, r: RoundId)
    requires s.log == [] && look.landed <= {r} && Readable(look, s.zombies)
    ensures Credible(look, s)
  {
    OneLanding(r);
    assert look.landed == {} || look.landed == {r};
  }

  /** The queue holds the order, as placed or as it came back from a round. */
  ghost predicate Queued(n: Ticket, pending: seq<Order>) {
    pending == [OrderOf(n)] || pending == [OrderOf(n).(expiry := None)]
  }

  lemma QueuedWaits(n: Ticket, pending: seq<Order>)
    requires Queued(n, pending)
    ensures Attach(pending, map[1 := n.expires]) == [OrderOf(n)]
  {
    assert Attach(pending, map[1 := n.expires])[0] == OrderOf(n);
  }

  ghost predicate Free(zombies: seq<Record>, t: int, rid: RoundId) {
    forall z | z in zombies :: !z.Sighted() && z.rid != rid && t - z.releasedAt <= CFG.watch
  }

  /** What a build of the one order makes of the market. */
  ghost predicate Builds(s: State, s': State, o: Order, a: BuildArgs) {
    var x := s.(pending := [], looks := s'.looks);
    s' == if Judged(o, a) == BatchOne(o) then x.(inflight := Some(RoundOf(o, a))) else End(x, [o])
  }

  /** The looks of the build change nothing and can be believed, and its round is a new one. */
  ghost predicate Calm(s: State, o: Order, a: BuildArgs) {
    && Quiet(s.zombies, a.first, CFG) && Quiet(s.zombies, a.second, CFG)
    && Credible(a.first, s) && Credible(a.second, s)
    && (forall r | r in a.resting :: r.oid != o.oid) && forall z | z in s.zombies :: z.rid != RoundOf(o, a).rid
  }

  lemma BuildingIsHonest(s: State, o: Order, a: BuildArgs)
    requires Waits(s, o) && Plain(o, a) && Calm(s, o, a)
    ensures Honest(s, Building(a, {}), CFG)
  {
    OneOpens(s, a, CFG, {});
    OneIsTaken(Opening(s, a, CFG, {}), o, a);
  }

  lemma BuildingOne(s: State, o: Order, a: BuildArgs)
    requires Waits(s, o) && Plain(o, a) && Calm(s, o, a)
    ensures Honest(s, Building(a, {}), CFG) && Builds(s, Step(s, Building(a, {}), CFG), o, a)
  {
    BuildingIsHonest(s, o, a);
    OneIsBuilt(s, o, a, CFG, {});
  }

  /** A look that lands nothing settles nothing, and contradicts nothing. */
  lemma NothingLands(s: State, t: int, dead: bool)
    ensures Credible(LookAt(t, {}, dead), s)
  {
  }

  lemma FreeIsCalm(s: State, o: Order, t: int, resting: seq<Order>, book: nat, floor: SD.Floors)
    requires Free(s.zombies, t, RoundOf(o, Args(t, resting, book, floor)).rid)
    requires forall r | r in resting :: r.oid != o.oid
    ensures Calm(s, o, Args(t, resting, book, floor))
  {
    NothingLands(s, t, false);
  }

  lemma PlainArgs(o: Order, t: int, resting: seq<Order>, book: nat, floor: SD.Floors)
    requires !o.market && (o.sealed ==> PT.HasMatch(o, resting))
    ensures Plain(o, Args(t, resting, book, floor))
  {
  }

  lemma Sending(es: seq<Event>, m: nat, n: Ticket, pending: seq<Order>, zombies: seq<Record>, t: int,
                resting: seq<Order>, book: nat)
    requires m < |es| && es[m] == Building(Args(t, resting, book, map[]), {})
    requires Reaches(es, m, n, pending, None, zombies)
    requires Queued(n, pending) && !n.market && n.seqno > 0 && (n.sealed ==> PT.HasMatch(OrderOf(n), resting))
    requires forall r | r in resting :: r.oid != 1
    requires Free(zombies, t, RoundOf(OrderOf(n), Args(t, resting, book, map[])).rid)
    ensures Reaches(es, m + 1, n, [], Some(RoundOf(OrderOf(n), Args(t, resting, book, map[]))), zombies)
  {
    Next(es, m);
    QueuedWaits(n, pending);
    PlainArgs(OrderOf(n), t, resting, book, map[]);
    FreeIsCalm(Run(es[..m], CFG), OrderOf(n), t, resting, book, map[]);
    BuildingOne(Run(es[..m], CFG), OrderOf(n), Args(t, resting, book, map[]));
  }

  /** The seq of a public order turns out to be stale: it ends. */
  lemma Superseding(es: seq<Event>, m: nat, n: Ticket, pending: seq<Order>, zombies: seq<Record>, t: int, book: nat,
                    floor: SD.Floors)
    requires m < |es| && es[m] == Building(Args(t, [], book, floor), {}) && Reaches(es, m, n, pending, None, zombies)
    requires Queued(n, pending) && !n.market && !n.sealed && n.seqno <= SD.At(floor, n.account)
    requires Free(zombies, t, RoundOf(OrderOf(n), Args(t, [], book, floor)).rid)
    ensures var s, s' := Run(es[..m], CFG), Run(es[..m+1], CFG);
            HonestRun(es[..m+1], CFG) && s' == End(s.(pending := [], looks := s'.looks), [OrderOf(n)])
  {
    Next(es, m);
    QueuedWaits(n, pending);
    PlainArgs(OrderOf(n), t, [], book, floor);
    FreeIsCalm(Run(es[..m], CFG), OrderOf(n), t, [], book, floor);
    BuildingOne(Run(es[..m], CFG), OrderOf(n), Args(t, [], book, floor));
  }

  lemma RoundIs(o: Order, a: BuildArgs)
    ensures var r := RoundOf(o, a);
            && r.rid == RoundId({KeyOf(o)}, a.book) && r.Orders() == [o] && r.claimed == map[]
            && !r.Sighted() && r.deadSince.None? && r.pruned == a.pruned
  {
    var b := BatchOne(o);
    assert b.sealed + b.public == [o];
    assert KeySet([o]) == {KeyOf(o)};
  }

  /** The round against a book, as it is kept after its release at time `t`. */
  function Released(n: Ticket, sent: int, resting: seq<Order>, book: nat, t: int): Record {
    RoundOf(OrderOf(n), Args(sent, resting, book, map[])).(deadSince := Some(t), releasedAt := t)
  }

  lemma Releasing(es: seq<Event>, m: nat, n: Ticket, zombies: seq<Record>, sent: int, resting: seq<Order>, book: nat,
                  t: int)
    requires m < |es| && es[m] == Sweeps(LookAt(t, {}, true), {}) && |zombies| < ZOMBIE_CAP
    requires Reaches(es, m, n, [], Some(RoundOf(OrderOf(n), Args(sent, resting, book, map[]))), zombies)
    requires Quiet(zombies, LookAt(t, {}, true), CFG)
    ensures Reaches(es, m + 1, n, [OrderOf(n)], None, zombies + [Released(n, sent, resting, book, t)])
  {
    var s := Run(es[..m], CFG);
    Next(es, m);
    RoundIs(OrderOf(n), Args(sent, resting, book, map[]));
    NothingLands(s, t, true);
    DeadIsReleased(s, s.inflight.value, LookAt(t, {}, true), CFG, {});
    assert [OrderOf(n)] + [] == [OrderOf(n)];
  }

  /** Placed, sent in a round and released as dead. */
  function Opened(n: Ticket, resting: seq<Order>, book: nat): seq<Event> {
    [Arrives(Placing(n)), Building(Args(0, resting, book, map[]), {}), Sweeps(LookAt(1, {}, true), {})]
  }

  lemma Opens(es: seq<Event>, n: Ticket, resting: seq<Order>, book: nat)
    requires |es| >= 3 && es[..3] == Opened(n, resting, book)
    requires !n.market && n.seqno > 0 && (n.sealed ==> PT.HasMatch(OrderOf(n), resting))
    requires forall r | r in resting :: r.oid != 1
    ensures Reaches(es, 3, n, [OrderOf(n)], None, [Released(n, 0, resting, book, 1)])
  {
    assert es[0] == es[..3][0] && es[1] == es[..3][1] && es[2] == es[..3][2];
    OpensSent(es, n, resting, book);
    Releasing(es, 2, n, [], 0, resting, book, 1);
    assert [] + [Released(n, 0, resting, book, 1)] == [Released(n, 0, resting, book, 1)];
  }

  lemma OpensSent(es: seq<Event>, n: Ticket, resting: seq<Order>, book: nat)
    requires |es| >= 2 && es[0] == Arrives(Placing(n)) && es[1] == Building(Args(0, resting, book, map[]), {})
    requires !n.market && n.seqno > 0 && (n.sealed ==> PT.HasMatch(OrderOf(n), resting))
    requires forall r | r in resting :: r.oid != 1
    ensures Reaches(es, 2, n, [], Some(RoundOf(OrderOf(n), Args(0, resting, book, map[]))), [])
  {
    Starting(es, n);
    Sending(es, 1, n, [OrderOf(n).(expiry := None)], [], 0, resting, book);
  }
}

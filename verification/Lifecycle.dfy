/** One market's rounds: the mempool, the round in flight, released rounds still watched for a
    late landing, and re-seals waiting for the chain. Every operation is a function on the
    market's state; the chain is whatever the reads of each sweep say it is. */
module Lifecycle {
  import opened Sequences
  import opened Orders
  import opened Clearing
  import opened Planning
  import opened BatchCap
  import opened SeqDiscipline

  /** A round's identity: the hash of its exact payload, so it fixes the orders it carries
      (`keys`) and everything else it was built from (`rest`). */
  datatype RoundId = RoundId(keys: set<Key>, rest: nat)

  datatype Record = Record(
    rid: RoundId,
    sealed: seq<Order>,
    public: seq<Order>,
    fills: Fills,                  // the clearing handed out if the round settles
    pruned: set<nat>,              // oids of resting orders the round's prune list expires
    t: int,
    okSince: Option<int>,          // first sighting of its landing, None while unsighted
    deadSince: Option<int>,
    claimed: map<Key, RoundId>,    // orders another landed round holds
    releasedAt: int)
  {
    function Orders(): seq<Order> { sealed + public }
    predicate Sighted() { okSince.Some? }
  }

  /** What one sweep reads from the chain, all from one view of it. `dead`: a precondition the
      round in flight needs to settle is gone. `unread`: the rounds whose landing could not be
      read when their turn came. `unsure`: those whose finality could not be read. */
  datatype Look = Look(time: int, landed: set<RoundId>, final: set<RoundId>, readsFinal: bool, advancing: bool,
                       dead: bool, unread: set<RoundId>, unsure: set<RoundId>)
  {
    /** The round was read, as landed. */
    predicate Reads(r: RoundId) { r in landed && r !in unread }

    /** The round was read, as not landed and dead. */
    predicate FindsDead(r: RoundId) { r !in landed && r !in unread && dead }
  }

  /** One order incarnation's receipt: the round it settled in, what it traded, what was left
      over and not carried on, and the sweep that finalized it. */
  datatype Receipt = Receipt(rid: RoundId, key: Key, filled: nat, left: nat, look: nat)

  /** `accepted`, `ended`, `log`, `looks`, `tip` and `placed` record the market's history. */
  datatype State = State(
    pending: seq<Order>,
    inflight: Option<Record>,
    zombies: seq<Record>,
    retry: seq<Order>,
    expiry: map<nat, int>,
    gate: Option<int>,
    nextOid: nat,
    nextCommit: nat,
    accepted: map<Key, Order>,     // every incarnation ever accepted, with its terms
    ended: set<Key>,               // incarnations that reached a terminal or were finalized
    log: seq<Receipt>,             // receipts in the order they were handed out
    looks: seq<Look>,              // the sweeps so far
    tip: map<nat, Key>,            // the newest incarnation of each order
    placed: map<nat, nat>)         // the quantity each order was placed with

  datatype Config = Config(deadConfirm: int, watch: int, gateSecs: int, hold: Option<int>, stallHold: int)

  const MIN_CONFIRM := 2
  const ZOMBIE_CAP := 32
  const COOLDOWN := 30

  function Init(): State {
    State([], None, [], [], map[], None, 1, 0, map[], {}, [], [], map[], map[])
  }

  function KeySet(os: seq<Order>): set<Key> { set o | o in os :: KeyOf(o) }
  function FreeOf(ks: set<Key>): Order -> bool { (o: Order) => KeyOf(o) !in ks }
  function HeldIn(ks: set<Key>): Order -> bool { (o: Order) => KeyOf(o) in ks }

  function InflightKeys(f: Option<Record>): set<Key> { if f.Some? then f.value.rid.keys else {} }

  /** The orders held by sighted released rounds, `skip` aside. */
  function SightedKeys(zs: seq<Record>, skip: int): set<Key> {
    set i, k | 0 <= i < |zs| && i != skip && zs[i].Sighted() && k in zs[i].rid.keys :: k
  }

  predicate Overdue(expiry: map<nat, int>, oid: nat, now: int) {
    oid in expiry && expiry[oid] != 0 && expiry[oid] <= now
  }

  // ---- accepting an order ----

  datatype Ticket = Ticket(account: nat, side: Side, price: nat, qty: nat, sealed: bool, market: bool, seqno: nat,
                           expires: int)

  function Place(s: State, n: Ticket): State {
    var commit := if n.sealed then Some(s.nextCommit) else None;
    var o := Order(n.account, s.nextOid, commit, n.side, n.price, n.qty, n.sealed, n.market, n.seqno, None);
    s.(pending := s.pending + [o],
       expiry := s.expiry[s.nextOid := n.expires],
       nextOid := s.nextOid + 1,
       nextCommit := if n.sealed then s.nextCommit + 1 else s.nextCommit,
       accepted := s.accepted[KeyOf(o) := o],
       tip := s.tip[s.nextOid := KeyOf(o)],
       placed := s.placed[s.nextOid := n.qty])
  }

  // ---- finalizing a settled round ----

  /** The re-sealed remainder: same order, fresh commitment. */
  function Remainder(o: Order, qty: nat, commit: nat): Order {
    Order(o.account, o.oid, Some(commit), o.side, o.price, qty, true, o.market, 0, None)
  }

  function Unfilled(o: Order, fills: Fills): nat {
    if o.qty > Got(fills, o.oid) then o.qty - Got(fills, o.oid) else 0
  }

  /** Receipt one order; a sealed remainder still in time is re-sealed, at once or (its post
      refused) through the retry list. */
  function ReceiptOne(s: State, rid: RoundId, o: Order, fills: Fills, now: int, refused: set<nat>): State {
    var left, look := Unfilled(o, fills), if |s.looks| > 0 then |s.looks| - 1 else 0;
    var carries := o.sealed && left > 0 && !Overdue(s.expiry, o.oid, now);
    var done := s.(ended := s.ended + {KeyOf(o)},
                   log := s.log + [Receipt(rid, KeyOf(o), Got(fills, o.oid), if carries then 0 else left, look)]);
    if !carries then done
    else
      var r := Remainder(o, left, s.nextCommit);
      done.(nextCommit := s.nextCommit + 1,
            accepted := s.accepted[KeyOf(r) := r],
            tip := s.tip[r.oid := KeyOf(r)],
            retry := if s.nextCommit in refused then s.retry + [r] else s.retry,
            pending := if s.nextCommit in refused then s.pending else s.pending + [r])
  }

  function ReceiptAll(s: State, rid: RoundId, os: seq<Order>, fills: Fills, now: int, refused: set<nat>): State
    decreases |os|
  {
    if os == [] then s
    else ReceiptAll(ReceiptOne(s, rid, os[0], fills, now, refused), rid, os[1..], fills, now, refused)
  }

  function Finalize(s: State, rec: Record, now: int, refused: set<nat>): State {
    var own := Filter(rec.Orders(), FreeOf(rec.claimed.Keys));
    var s' := ReceiptAll(s, rec.rid, own, rec.fills, now, refused);
    s'.(expiry := s'.expiry - rec.pruned)
  }

  // ---- retrying re-seals ----

  function DrainOne(s: State, r: Order, now: int, refused: set<nat>): State {
    if Overdue(s.expiry, r.oid, now) then s.(ended := s.ended + {KeyOf(r)})
    else if r.commit.Some? && r.commit.value in refused then s.(retry := s.retry + [r])
    else s.(pending := s.pending + [r])
  }

  function DrainAll(s: State, items: seq<Order>, now: int, refused: set<nat>): State
    decreases |items|
  {
    if items == [] then s else DrainAll(DrainOne(s, items[0], now, refused), items[1..], now, refused)
  }

  function Drain(s: State, now: int, refused: set<nat>): State {
    DrainAll(s.(retry := []), s.retry, now, refused)
  }

  // ---- what may happen to the queue at any time ----

  /** An order is placed, or the waiting re-seals are tried again. Neither takes the market's
      lock, so both may fall inside a build. */
  datatype Arrival = Placing(ticket: Ticket) | Draining(now: int, refused: set<nat>)

  function Arrive(s: State, v: Arrival): State {
    match v
    case Placing(n) => Place(s, n)
    case Draining(now, refused) => Drain(s, now, refused)
  }

  function ArriveAll(s: State, vs: seq<Arrival>): State
    decreases |vs|
  {
    if vs == [] then s else ArriveAll(Arrive(s, vs[0]), vs[1..])
  }

  // ---- releasing a round ----

  /** The first unsighted record, or |zs|. */
  function FirstUnsighted(zs: seq<Record>): (i: nat)
    ensures i <= |zs| && (i < |zs| ==> !zs[i].Sighted())
    ensures forall j | 0 <= j < i :: zs[j].Sighted()
  {
    if zs == [] then 0 else if !zs[0].Sighted() then 0 else 1 + FirstUnsighted(zs[1..])
  }

  /** Forget the oldest unsighted records beyond the cap; a sighted one is never forgotten. */
  function Trim(zs: seq<Record>): seq<Record>
    decreases |zs|
  {
    var i := FirstUnsighted(zs);
    if |zs| <= ZOMBIE_CAP || i == |zs| then zs else Trim(zs[..i] + zs[i+1..])
  }

  function Abandon(s: State, fr: Record, now: int, timeout: bool): State {
    s.(pending := Filter(fr.Orders(), FreeOf(fr.claimed.Keys)) + s.pending,
       zombies := Trim(s.zombies + [fr.(okSince := None, releasedAt := now)]),
       gate := if timeout then Some(now) else s.gate)
  }

  // ---- claiming a late landing, and giving it back ----

  function NoteClaim(rec: Record, z: Record): Record {
    rec.(claimed := rec.claimed + map k | k in rec.rid.keys * z.rid.keys :: z.rid)
  }

  function MapInflight(f: Option<Record>, g: Record -> Record): Option<Record> {
    if f.Some? then Some(g(f.value)) else None
  }

  function MapOthers(zs: seq<Record>, skip: nat, g: Record -> Record): (r: seq<Record>)
    ensures |r| == |zs|
    ensures forall j | 0 <= j < |zs| :: r[j] == if j == skip then zs[j] else g(zs[j])
  {
    seq(|zs|, j requires 0 <= j < |zs| => if j == skip then zs[j] else g(zs[j]))
  }

  function Noting(z: Record): Record -> Record { (rec: Record) => NoteClaim(rec, z) }

  function Claim(s: State, i: nat): State
    requires i < |s.zombies|
  {
    var z := s.zombies[i];
    s.(pending := Filter(s.pending, FreeOf(z.rid.keys)),
       inflight := MapInflight(s.inflight, Noting(z)),
       zombies := MapOthers(s.zombies, i, Noting(z)))
  }

  function DropClaims(rec: Record, r: RoundId): Record {
    rec.(claimed := map k | k in rec.claimed && rec.claimed[k] != r :: rec.claimed[k])
  }

  function Dropping(r: RoundId): Record -> Record { (rec: Record) => DropClaims(rec, r) }

  /** The orders an un-landed round does not get back: in flight, held by another sighted
      round, or already queued. */
  function Busy(s: State, i: nat): set<Key> {
    InflightKeys(s.inflight) + SightedKeys(s.zombies, i) + KeySet(s.pending)
  }

  function Unclaim(s: State, i: nat): State
    requires i < |s.zombies|
  {
    var z := s.zombies[i];
    s.(pending := Filter(z.Orders(), FreeOf(Busy(s, i))) + s.pending,
       inflight := MapInflight(s.inflight, Dropping(z.rid)),
       zombies := MapOthers(s.zombies, i, Dropping(z.rid)))
  }

  // ---- one sweep over the released rounds ----

  predicate Confirmed(rec: Record, look: Look, cfg: Config)
    requires rec.Sighted()
  {
    if rec.rid in look.unsure then false
    else if look.readsFinal && rec.rid in look.final then true
    else if look.readsFinal && cfg.hold.None? && look.advancing then false
    else
      var hold := if cfg.hold.Some? then cfg.hold.value else if look.advancing then 0 else cfg.stallHold;
      look.time - rec.okSince.value >= (if hold >= MIN_CONFIRM then hold else MIN_CONFIRM)
  }

  predicate Rivals(rec: Record, other: Record, look: Look) {
    other.rid.keys * rec.rid.keys != {} && other.rid in look.landed
  }

  /** Another tracked round sharing an order also reads as landed. */
  predicate RivalLanded(s: State, i: nat, look: Look)
    requires i < |s.zombies|
  {
    || (s.inflight.Some? && Rivals(s.zombies[i], s.inflight.value, look))
    || exists j :: 0 <= j < |s.zombies| && j != i && Rivals(s.zombies[i], s.zombies[j], look)
  }

  datatype Visited = Visited(s: State, drop: bool, took: set<Key>)

  function Sight(s: State, i: nat, when: Option<int>): State
    requires i < |s.zombies|
  {
    s.(zombies := s.zombies[i := s.zombies[i].(okSince := when)])
  }

  function Visit(s: State, i: nat, look: Look, cfg: Config, refused: set<nat>): Visited
    requires i < |s.zombies|
  {
    var z := s.zombies[i];
    if !z.Sighted() && look.time - z.releasedAt > cfg.watch then Visited(s, true, {})
    else if z.rid in look.unread then Visited(s, false, {})
    else if z.rid in look.landed then
      if !z.Sighted() then Visited(Claim(Sight(s, i, Some(look.time)), i), false, z.rid.keys)
      else if Confirmed(z, look, cfg) && !RivalLanded(s, i, look) then
        Visited(Finalize(s, z, look.time, refused), true, {})
      else Visited(s, false, {})
    else if z.Sighted() then Visited(Unclaim(Sight(s, i, None), i), false, {})
    else Visited(s, false, {})
  }

  /** The sweep's progress: records stay in place until it ends, dropped ones are marked. */
  datatype Sweeping = Sweeping(s: State, gone: set<nat>, took: set<Key>)

  function VisitNext(w: Sweeping, i: nat, look: Look, cfg: Config, refused: set<nat>): Sweeping
    requires i < |w.s.zombies|
  {
    var v := Visit(w.s, i, look, cfg, refused);
    Sweeping(v.s, if v.drop then w.gone + {i} else w.gone, w.took + v.took)
  }

  function Visiting(look: Look, cfg: Config, refused: set<nat>): (Sweeping, nat) -> Sweeping {
    (w: Sweeping, i: nat) => if i < |w.s.zombies| then VisitNext(w, i, look, cfg, refused) else w
  }

  function VisitUpTo(s: State, n: nat, look: Look, cfg: Config, refused: set<nat>): Sweeping {
    Iterate(Visiting(look, cfg, refused), Sweeping(s.(looks := s.looks + [look]), {}, {}), n)
  }

  function Survivors(zs: seq<Record>, gone: set<nat>, n: nat): seq<Record>
    requires n <= |zs|
  {
    if n == 0 then []
    else Survivors(zs, gone, n - 1) + (if n - 1 in gone then [] else [zs[n-1]])
  }

  function ResolveZombies(s: State, look: Look, cfg: Config, refused: set<nat>): Visited {
    var w := VisitUpTo(s, |s.zombies|, look, cfg, refused);
    Visited(w.s.(zombies := Survivors(w.s.zombies, w.gone, |w.s.zombies|)), false, w.took)
  }

  // ---- the round in flight ----

  predicate InflightRival(s: State, fr: Record, look: Look) {
    exists j :: 0 <= j < |s.zombies| && Rivals(fr, s.zombies[j], look)
  }

  function ResolveInflight(s: State, look: Look, cfg: Config, refused: set<nat>): State {
    if s.inflight.None? || s.inflight.value.rid in look.unread then s
    else
      var fr, now := s.inflight.value, look.time;
      if fr.rid in look.landed then
        var fr' := fr.(deadSince := None);
        if !fr.Sighted() then s.(inflight := Some(fr'.(okSince := Some(now))))
        else if Confirmed(fr, look, cfg) && !InflightRival(s, fr, look) then
          Finalize(s.(inflight := None), fr', now, refused)
        else s.(inflight := Some(fr'))
      else if fr.Sighted() then s.(inflight := Some(fr.(okSince := None)))
      else if look.dead then
        var since := if fr.deadSince.Some? then fr.deadSince.value else now;
        if now - since >= cfg.deadConfirm then
          Abandon(s.(inflight := None), fr.(deadSince := Some(since)), now, false)
        else s.(inflight := Some(fr.(deadSince := Some(since))))
      else if now - fr.t > cfg.gateSecs then
        Abandon(s.(inflight := None), fr.(deadSince := None), now, true)
      else s.(inflight := Some(fr.(deadSince := None)))
  }

  function Sweep(s: State, look: Look, cfg: Config, refused: set<nat>): State {
    ResolveInflight(ResolveZombies(s, look, cfg, refused).s, look, cfg, refused)
  }

  // ---- building the next round ----

  /** How a build ends: the price read or the floor reads fail, the payload cannot be made, the
      chain refuses it for now, or it is sent (accepted, or its outcome unknown). */
  datatype Fate = FailsPricing | FailsFloors | FailsLate | ChainBusy | Submitted

  /** What a build reads and how it ends. `first` and `second` are its two looks at the
      released rounds; `floor` and `lastPrice` are chain reads; `book` stands for the rest of
      the payload. `early`, `middle` and `late` arrive meanwhile: before the batch leaves the
      mempool, before the second look, and after it. */
  datatype BuildArgs = BuildArgs(now: int, first: Look, second: Look, resting: seq<Order>, pruned: set<nat>, book: nat,
                                 ready: Ready, gas: Gas, lim: Limits, lastPrice: nat, floor: Floors, fate: Fate,
                                 early: seq<Arrival>, middle: seq<Arrival>, late: seq<Arrival>)

  function Attach(os: seq<Order>, expiry: map<nat, int>): (r: seq<Order>)
    ensures |r| == |os|
    ensures forall i | 0 <= i < |os| ::
            r[i] == os[i].(expiry := if os[i].oid in expiry then Some(expiry[os[i].oid]) else None)
  {
    seq(|os|, i requires 0 <= i < |os| =>
      os[i].(expiry := if os[i].oid in expiry then Some(expiry[os[i].oid]) else None))
  }

  const MARKET_BAND_PCT := 10

  /** A market order executes at the edge of the price band: floor a buy, ceil a sell. */
  function MarketPrice(side: Side, lp: nat): nat {
    if side.Buy? then lp * (100 + MARKET_BAND_PCT) / 100
    else
      var p := (lp * (100 - MARKET_BAND_PCT) + 99) / 100;
      if p >= 1 then p else 1
  }

  function Reprice(os: seq<Order>, lp: nat): (r: seq<Order>)
    ensures |r| == |os|
    ensures forall i | 0 <= i < |os| ::
              r[i] == if os[i].market && !os[i].sealed && lp > 0 then os[i].(price := MarketPrice(os[i].side, lp))
                else os[i]
  {
    seq(|os|, i requires 0 <= i < |os| =>
      if os[i].market && !os[i].sealed && lp > 0 then os[i].(price := MarketPrice(os[i].side, lp)) else os[i])
  }

  function Priceable(lp: nat): Order -> bool { (o: Order) => !o.market || lp > 0 }
  function Unpriceable(lp: nat): Order -> bool { (o: Order) => o.market && lp == 0 }

  function End(s: State, os: seq<Order>): State {
    s.(ended := s.ended + KeySet(os), expiry := s.expiry - set o | o in os :: o.oid)
  }

  /** A build that fails puts back, at the front, every order it still owns. */
  function RequeueUnsent(s: State, taken: seq<Order>, ended: set<Key>): State {
    var skip := ended + SightedKeys(s.zombies, -1) + KeySet(s.pending);
    s.(pending := Filter(taken, FreeOf(skip)) + s.pending)
  }

  function PlanOf(s: State, a: BuildArgs): Plan {
    PlanBatch(Attach(s.pending, s.expiry), a.resting, CapPolicy(a.gas, a.lim), a.now, a.ready)
  }

  function Looked(s: State, look: Look, cfg: Config, refused: set<nat>): Visited {
    if s.zombies == [] then Visited(s, false, {}) else ResolveZombies(s, look, cfg, refused)
  }

  /** Take the batch out of the mempool: what waits stays, in queue order; the sealed orders
      that expired without a counterparty end. */
  function TakeBatch(s: State, a: BuildArgs): State {
    var plan := PlanOf(s, a);
    var wait := Members(plan.carry + plan.deferred + plan.overflow);
    End(s.(pending := Filter(Attach(s.pending, s.expiry), InSet(wait))), plan.expired)
  }

  /** The orders a build holds between leaving the mempool and being registered: `taken` is
      what left, `sealed`/`public`/`dead` what became of it. */
  datatype Batch = Batch(sealed: seq<Order>, public: seq<Order>, dead: seq<Order>)

  function Disciplined(plan: Plan, a: BuildArgs): Batch {
    var sane := Sanitized(Reprice(Filter(plan.public, Priceable(a.lastPrice)), a.lastPrice), a.floor);
    Batch(plan.shown, sane.kept, Filter(plan.public, Unpriceable(a.lastPrice)) + Dropees(sane.dead))
  }

  function Unclaimed(b: Batch, took: set<Key>): Batch {
    Batch(Filter(b.sealed, FreeOf(took)), Filter(b.public, FreeOf(took)), Filter(b.dead, FreeOf(took)))
  }

  /** Sealed orders left without a counterparty go back to the queue, still hidden. */
  function StillShown(b: Batch, a: BuildArgs): seq<Order> {
    PlanRound(b.sealed + b.public, a.resting, a.now, AllReady()).shown
  }

  function Rehide(s: State, b: Batch, a: BuildArgs): State {
    s.(pending := Filter(b.sealed, NotIn(Members(StillShown(b, a)))) + s.pending)
  }

  function NewRecord(b: Batch, a: BuildArgs): Record {
    Record(RoundId(KeySet(b.sealed + b.public), a.book), b.sealed, b.public,
           Clear(a.resting + b.sealed + b.public).fills, a.pruned, a.now, None, None, map[], 0)
  }

  /** One record per round id: an unchanged rebuild of a released round is that round. */
  function OtherThan(r: RoundId): Record -> bool { (z: Record) => z.rid != r || z.Sighted() }

  function Submit(s: State, b: Batch, a: BuildArgs): State {
    var rec := NewRecord(b, a);
    if a.fate.ChainBusy? then
      s.(pending := b.sealed + b.public + s.pending, gate := Some(a.now))
    else s.(inflight := Some(rec), zombies := Filter(s.zombies, OtherThan(rec.rid)))
  }

  /** The rest of a build once its batch `b` is out of the mempool and the second look is taken. */
  function Assemble(s: State, b: Batch, taken: seq<Order>, expired: seq<Order>, a: BuildArgs): State {
    var s1 := Rehide(End(s, b.dead), b, a);
    var b1 := Batch(StillShown(b, a), b.public, []);
    if b1.sealed == [] && b1.public == [] && a.pruned == {} then s1
    else if a.fate.FailsLate? then
      RequeueUnsent(s1.(gate := Some(a.now)), Reprice(taken, a.lastPrice), KeySet(expired) + KeySet(b.dead))
    else Submit(s1, b1, a)
  }

  predicate Gated(s: State, now: int) {
    s.inflight.Some? || (s.gate.Some? && now - s.gate.value < COOLDOWN)
  }

  /** The market as a build finds it when it plans. */
  function Opening(s: State, a: BuildArgs, cfg: Config, refused: set<nat>): State {
    ArriveAll(Looked(s.(gate := None), a.first, cfg, refused).s, a.early)
  }

  /** The market while a build holds the batch it planned in state `s`. */
  function Underway(s: State, a: BuildArgs): State { ArriveAll(TakeBatch(s, a), a.middle) }

  /** A build once its plan is made and the orders `taken` are out of the mempool. */
  function Finish(s: State, plan: Plan, taken: seq<Order>, a: BuildArgs, cfg: Config, refused: set<nat>): State {
    if a.fate.FailsPricing? then RequeueUnsent(s, taken, KeySet(plan.expired))
    else if a.fate.FailsFloors? then RequeueUnsent(s, Reprice(taken, a.lastPrice), KeySet(plan.expired))
    else
      var v := Looked(s, a.second, cfg, refused);
      Assemble(ArriveAll(v.s, a.late), Unclaimed(Disciplined(plan, a), v.took), taken, plan.expired, a)
  }

  function Build(s: State, a: BuildArgs, cfg: Config, refused: set<nat>): State {
    if Gated(s, a.now) then s
    else
      var s1 := Opening(s, a, cfg, refused);
      var plan := PlanOf(s1, a);
      var taken := Filter(Attach(s1.pending, s1.expiry), HeldIn(KeySet(plan.shown + plan.public + plan.expired)));
      Finish(Underway(s1, a), plan, taken, a, cfg, refused)
  }

  // ---- runs ----

  datatype Event =
    | Arrives(arrival: Arrival)
    | Sweeps(look: Look, refused: set<nat>)
    | Building(args: BuildArgs, refused: set<nat>)

  function Step(s: State, e: Event, cfg: Config): State {
    match e
    case Arrives(v) => Arrive(s, v)
    case Sweeps(look, refused) => Sweep(s, look, cfg, refused)
    case Building(a, refused) => Build(s, a, cfg, refused)
  }

  function Run(es: seq<Event>, cfg: Config): State {
    if es == [] then Init() else Step(Run(es[..|es|-1], cfg), es[|es|-1], cfg)
  }
}

/** What every step of a market's rounds keeps. The predicates speak of the released rounds
    `zs` at positions not in `gone`, so that they also hold in the middle of a sweep. */
module LifecycleInvariants {
  import opened Sequences
  import opened Orders
  import opened Clearing
  import opened Lifecycle

  // ---- vocabulary ----

  function Fin(log: seq<Receipt>): set<Key> { set rc | rc in log :: rc.key }

  ghost predicate DistinctKeys(os: seq<Order>) {
    forall i, j | 0 <= i < j < |os| :: KeyOf(os[i]) != KeyOf(os[j])
  }

  /** The order's terms are those its incarnation was accepted with. */
  ghost predicate Known(accepted: map<Key, Order>, o: Order) {
    KeyOf(o) in accepted && accepted[KeyOf(o)].qty == o.qty && accepted[KeyOf(o)].sealed == o.sealed
  }

  ghost predicate AllKnown(accepted: map<Key, Order>, os: seq<Order>) { forall o | o in os :: Known(accepted, o) }

  predicate Live(zs: seq<Record>, gone: set<nat>, j: int) { 0 <= j < |zs| && j !in gone }

  /** Position `j` holds a released round that is landed as far as the builder knows. */
  predicate Holds(zs: seq<Record>, gone: set<nat>, j: int) { Live(zs, gone, j) && zs[j].Sighted() }

  // ---- the parts of the invariant ----

  ghost predicate Queues(s: State, fin: set<Key>) {
    && DistinctKeys(s.pending) && DistinctKeys(s.retry)
    && KeySet(s.pending) !! KeySet(s.retry)
    && KeySet(s.pending) !! fin && KeySet(s.retry) !! fin
    && AllKnown(s.accepted, s.pending) && AllKnown(s.accepted, s.retry)
  }

  ghost predicate RecordOk(accepted: map<Key, Order>, retry: set<Key>, r: Record) {
    && r.rid.keys == KeySet(r.Orders()) && DistinctKeys(r.Orders())
    && r.claimed.Keys <= r.rid.keys
    && AllKnown(accepted, r.Orders())
    && (forall o | o in r.sealed :: o.sealed && Got(r.fills, o.oid) <= o.qty)
    && (forall o | o in r.public :: !o.sealed)
    && r.rid.keys !! retry
  }

  ghost predicate RecordsOk(accepted: map<Key, Order>, retry: set<Key>, f: Option<Record>, zs: seq<Record>,
                            gone: set<nat>) {
    && (f.Some? ==> RecordOk(accepted, retry, f.value))
    && (forall j | Live(zs, gone, j) :: RecordOk(accepted, retry, zs[j]))
  }

  /** Nothing queued is also in flight or held by a sighted round. */
  ghost predicate Apart(pending: set<Key>, f: Option<Record>, zs: seq<Record>, gone: set<nat>) {
    && InflightKeys(f) !! pending
    && (forall j | Holds(zs, gone, j) :: zs[j].rid.keys !! pending)
  }

  /** What a build holds in its hands is nowhere else; `prior` are the rounds sighted before the
      sweep under way. */
  ghost predicate InHand(held: set<Key>, s: State, fin: set<Key>, gone: set<nat>, prior: set<RoundId>) {
    && held <= s.accepted.Keys
    && held !! KeySet(s.pending) && held !! KeySet(s.retry) && held !! fin
    && (forall j | Holds(s.zombies, gone, j) && s.zombies[j].rid in prior :: s.zombies[j].rid.keys !! held)
  }

  /** No order is held by two sighted rounds, unless one of them is about to be un-sighted. */
  ghost predicate HeldOnce(zs: seq<Record>, gone: set<nat>, prior: set<RoundId>, stale: set<RoundId>) {
    forall i, j | Holds(zs, gone, i) && Holds(zs, gone, j) && zs[i].rid != zs[j].rid ::
      (zs[i].rid in prior && zs[j].rid in prior) || (zs[i].rid !in stale && zs[j].rid !in stale)
      ==> zs[i].rid.keys !! zs[j].rid.keys
  }

  /** A sighted round's orders are noted as claimed on the record `r` if it carries copies. */
  ghost predicate NotedOn(r: Record, zs: seq<Record>, gone: set<nat>, stale: set<RoundId>) {
    forall i, k | Holds(zs, gone, i) && zs[i].rid !in stale && zs[i].rid != r.rid && k in zs[i].rid.keys
      && k in r.rid.keys ::
      k in r.claimed && r.claimed[k] == zs[i].rid
  }

  ghost predicate Noted(f: Option<Record>, zs: seq<Record>, gone: set<nat>, stale: set<RoundId>) {
    && (f.Some? ==> NotedOn(f.value, zs, gone, stale))
    && (forall j | Live(zs, gone, j) :: NotedOn(zs[j], zs, gone, stale))
  }

  ghost predicate Holder(zs: seq<Record>, gone: set<nat>, r: RoundId, k: Key) {
    k in r.keys && exists i :: Holds(zs, gone, i) && zs[i].rid == r
  }

  /** A claim on `r` is backed by a sighted round, or the order is settled for good. */
  ghost predicate BackedOn(r: Record, zs: seq<Record>, gone: set<nat>, fin: set<Key>) {
    forall k | k in r.claimed ::
      r.claimed[k] != r.rid && k in r.claimed[k].keys && (k in fin || Holder(zs, gone, r.claimed[k], k))
  }

  ghost predicate Backed(f: Option<Record>, zs: seq<Record>, gone: set<nat>, fin: set<Key>) {
    && (f.Some? ==> BackedOn(f.value, zs, gone, fin))
    && (forall j | Live(zs, gone, j) :: BackedOn(zs[j], zs, gone, fin))
  }

  /** A settled order is in no sighted round, and in the round in flight only as claimed. */
  ghost predicate Finals(fin: set<Key>, f: Option<Record>, zs: seq<Record>, gone: set<nat>) {
    && (f.Some? ==> f.value.rid.keys * fin <= f.value.claimed.Keys)
    && (forall j | Holds(zs, gone, j) :: zs[j].rid.keys !! fin)
  }

  /** Receipts belong to rounds no longer tracked. */
  ghost predicate Logged(s: State, fin: set<Key>, gone: set<nat>) {
    && Fin(s.log) <= fin && fin <= s.accepted.Keys
    && (forall rc | rc in s.log :: rc.key in rc.rid.keys && rc.key in s.ended)
    && (forall rc | rc in s.log :: s.inflight.Some? ==> s.inflight.value.rid != rc.rid)
    && (forall rc, j | rc in s.log && Live(s.zombies, gone, j) :: s.zombies[j].rid != rc.rid)
  }

  ghost predicate LogOnce(log: seq<Receipt>) {
    forall i, j | 0 <= i < j < |log| :: log[i].key != log[j].key
  }

  /** Two tracked rounds with the same identity carry no orders. */
  ghost predicate RidsApart(f: Option<Record>, zs: seq<Record>) {
    && (forall i, j | 0 <= i < j < |zs| && zs[i].rid == zs[j].rid :: zs[i].rid.keys == {})
    && (forall i | 0 <= i < |zs| && f.Some? && f.value.rid == zs[i].rid :: f.value.rid.keys == {})
  }

  /** Where an order that has not ended is: queued, waiting to be re-sealed, in flight, or held
      by a sighted round (or, inside a step, in hand or about to be receipted). */
  ghost predicate InCustody(k: Key, s: State, gone: set<nat>) {
    || k in KeySet(s.pending)
    || k in KeySet(s.retry)
    || (s.inflight.Some? && k in s.inflight.value.rid.keys && k !in s.inflight.value.claimed)
    || exists j :: Holds(s.zombies, gone, j) && k in s.zombies[j].rid.keys
  }

  ghost predicate Custody(s: State, gone: set<nat>, held: set<Key>, fin: set<Key>) {
    forall k | k in s.accepted && k !in s.ended :: k in held || k in fin - Fin(s.log) || InCustody(k, s, gone)
  }

  ghost predicate Counters(s: State) {
    forall k | k in s.accepted ::
      && k.oid < s.nextOid
      && (k.commit.Some? ==> k.commit.value < s.nextCommit)
      && (s.accepted[k].sealed <==> k.commit.Some?)
  }

  /** Every incarnation not settled by a round is the newest of its order. */
  ghost predicate Tips(s: State) {
    forall k | k in s.accepted && k !in Fin(s.log) :: k.oid in s.tip && s.tip[k.oid] == k
  }

  function LoggedFor(oid: nat): Receipt -> nat {
    (rc: Receipt) => if rc.key.oid == oid then rc.filled + rc.left else 0
  }

  ghost predicate ConservedAt(s: State, x: nat)
    requires x in s.placed
  {
    && x in s.tip && s.tip[x] in s.accepted && s.tip[x].oid == x
    && (s.tip[x].commit.Some? ==>
          s.placed[x] == Total(s.log, LoggedFor(x)) + if s.tip[x] in Fin(s.log) then 0 else s.accepted[s.tip[x]].qty)
  }

  /** A sealed order's quantity is what its incarnations traded or lapsed with, plus what its
      newest incarnation still carries. */
  ghost predicate Conserved(s: State) { forall x | x in s.placed :: ConservedAt(s, x) }

  ghost predicate Books(s: State) {
    Counters(s) && LogOnce(s.log) && Tips(s) && Conserved(s) && forall k | k in s.accepted :: k.oid in s.placed
  }

  /** The point of view of a step under way: which released rounds are already dropped, what is
      in hand, which orders are settled (receipted or about to be), which rounds were sighted
      when the sweep began, and which of those it has yet to un-sight. */
  datatype Ctx = Ctx(gone: set<nat>, held: set<Key>, fin: set<Key>, prior: set<RoundId>, stale: set<RoundId>)

  ghost predicate Rounds(s: State, c: Ctx) {
    && RecordsOk(s.accepted, KeySet(s.retry), s.inflight, s.zombies, c.gone)
    && Apart(KeySet(s.pending), s.inflight, s.zombies, c.gone)
    && InHand(c.held, s, c.fin, c.gone, c.prior)
    && HeldOnce(s.zombies, c.gone, c.prior, c.stale)
    && Noted(s.inflight, s.zombies, c.gone, c.stale)
    && Backed(s.inflight, s.zombies, c.gone, c.fin)
    && Finals(c.fin, s.inflight, s.zombies, c.gone)
    && RidsApart(s.inflight, s.zombies)
  }

  ghost predicate Core(s: State, c: Ctx) {
    && Queues(s, c.fin)
    && Rounds(s, c)
    && Logged(s, c.fin, c.gone)
    && Custody(s, c.gone, c.held, c.fin)
    && Books(s)
  }

  function SightedRids(zs: seq<Record>): set<RoundId> { set j | 0 <= j < |zs| && zs[j].Sighted() :: zs[j].rid }

  /** The invariant between steps, with `held` in a build's hands. */
  ghost predicate Inv(s: State, held: set<Key>) {
    Core(s, Ctx({}, held, Fin(s.log), SightedRids(s.zombies), {}))
  }

  // ---- what is assumed of the chain ----

  /** In one view no two landed rounds share an order. */
  ghost predicate Consistent(landed: set<RoundId>) {
    forall r, q | r in landed && q in landed && r != q :: r.keys !! q.keys
  }

  /** A round confirmed earlier stays: no other round lands one of its orders. */
  ghost predicate Durable(landed: set<RoundId>, log: seq<Receipt>) {
    forall rc, r | rc in log && r in landed && rc.key in r.keys :: r == rc.rid
  }

  /** A read that fails hides nothing: a sighted round that could not be read is still landed. */
  ghost predicate Readable(look: Look, zs: seq<Record>) {
    forall z | z in zs && z.Sighted() && z.rid in look.unread :: z.rid in look.landed
  }

  /** What is assumed of a look at the market's rounds. */
  ghost predicate Credible(look: Look, s: State) { Believable(look, s.log) && Readable(look, s.zombies) }

  ghost predicate Believable(look: Look, log: seq<Receipt>) {
    Consistent(look.landed) && Durable(look.landed, log)
  }
}

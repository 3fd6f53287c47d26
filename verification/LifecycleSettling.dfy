/** A round that settles: every one of its orders gets its receipt, once. */
module LifecycleSettling {
  import opened Sequences
  import opened Orders
  import opened Clearing
  import opened Lifecycle
  import opened LifecycleInvariants
  import opened LifecycleReceipts

  // ---- a released round settles ----

  /** Released round `i` was sighted before the sweep and still is. */
  ghost predicate Standing(s: State, c: Ctx, i: nat) {
    && Holds(s.zombies, c.gone, i)
    && s.zombies[i].rid in c.prior && s.zombies[i].rid !in c.stale && c.stale <= c.prior
  }

  lemma StandingAlone(s: State, c: Ctx, i: nat, j: nat)
    requires Standing(s, c, i) && Holds(s.zombies, c.gone, j) && i != j
    requires HeldOnce(s.zombies, c.gone, c.prior, c.stale) && RidsApart(s.inflight, s.zombies)
    ensures s.zombies[i].rid.keys !! s.zombies[j].rid.keys
  {
    if s.zombies[i].rid == s.zombies[j].rid {
      assert s.zombies[i].rid.keys == {};
    }
  }

  /** No other round holds an order of a standing one, so none is left out of its receipts. */
  lemma StandingUnclaimed(s: State, c: Ctx, i: nat)
    requires Standing(s, c, i) && Rounds(s, c)
    ensures s.zombies[i].claimed == map[]
  {
    var z := s.zombies[i];
    assert BackedOn(z, s.zombies, c.gone, c.fin) && RecordOk(s.accepted, KeySet(s.retry), z);
    forall j: nat | Holds(s.zombies, c.gone, j) && i != j ensures z.rid.keys !! s.zombies[j].rid.keys {
      StandingAlone(s, c, i, j);
    }
    assert z.claimed.Keys == {};
  }

  function Settle(c: Ctx, i: nat, keys: set<Key>): Ctx { c.(gone := c.gone + {i}, fin := c.fin + keys) }

  lemma SettleBacked(f: Option<Record>, zs: seq<Record>, gone: set<nat>, fin: set<Key>, i: nat)
    requires i < |zs| && Backed(f, zs, gone, fin)
    ensures Backed(f, zs, gone + {i}, fin + zs[i].rid.keys)
  {
    var gone', fin' := gone + {i}, fin + zs[i].rid.keys;
    forall r | BackedOn(r, zs, gone, fin) ensures BackedOn(r, zs, gone', fin') {
      forall k | k in r.claimed ensures k in fin' || Holder(zs, gone', r.claimed[k], k) {
        if k !in fin' {
          var j :| Holds(zs, gone, j) && zs[j].rid == r.claimed[k];
          assert Holds(zs, gone', j);
        }
      }
    }
  }

  lemma FewerLive(zs: seq<Record>, gone: set<nat>, gone': set<nat>)
    requires gone <= gone'
    ensures forall j | Live(zs, gone', j) :: Live(zs, gone, j)
    ensures forall j | Holds(zs, gone', j) :: Holds(zs, gone, j)
  {
  }

  /** With fewer rounds tracked, what is said of every tracked round still holds. */
  lemma FewerRounds(f: Option<Record>, zs: seq<Record>, gone: set<nat>, gone': set<nat>, accepted: map<Key, Order>,
                    retry: set<Key>, pending: set<Key>, prior: set<RoundId>, stale: set<RoundId>)
    requires gone <= gone'
    ensures RecordsOk(accepted, retry, f, zs, gone) ==> RecordsOk(accepted, retry, f, zs, gone')
    ensures Apart(pending, f, zs, gone) ==> Apart(pending, f, zs, gone')
    ensures HeldOnce(zs, gone, prior, stale) ==> HeldOnce(zs, gone', prior, stale)
    ensures Noted(f, zs, gone, stale) ==> Noted(f, zs, gone', stale)
  {
    FewerLive(zs, gone, gone');
    forall r | NotedOn(r, zs, gone, stale) ensures NotedOn(r, zs, gone', stale) {}
  }

  lemma SettleFinals(s: State, c: Ctx, i: nat)
    requires Standing(s, c, i) && Rounds(s, c)
    ensures Finals(c.fin + s.zombies[i].rid.keys, s.inflight, s.zombies, c.gone + {i})
  {
    forall j | Holds(s.zombies, c.gone + {i}, j)
      ensures s.zombies[j].rid.keys !! c.fin + s.zombies[i].rid.keys
    {
      assert Holds(s.zombies, c.gone, j);
      StandingAlone(s, c, i, j);
    }
    if s.inflight.Some? {
      assert NotedOn(s.inflight.value, s.zombies, c.gone, c.stale);
    }
  }

  lemma SettleRounds(s: State, c: Ctx, i: nat)
    requires Standing(s, c, i) && Rounds(s, c)
    ensures Rounds(s, Settle(c, i, s.zombies[i].rid.keys))
  {
    FewerRounds(s.inflight, s.zombies, c.gone, c.gone + {i}, s.accepted, KeySet(s.retry), KeySet(s.pending),
                c.prior, c.stale);
    SettleBacked(s.inflight, s.zombies, c.gone, c.fin, i);
    SettleFinals(s, c, i);
    FewerLive(s.zombies, c.gone, c.gone + {i});
  }

  lemma SettleCore(s: State, c: Ctx, i: nat)
    requires Standing(s, c, i) && Core(s, c)
    ensures Core(s, Settle(c, i, s.zombies[i].rid.keys))
  {
    var z := s.zombies[i];
    var c' := Settle(c, i, z.rid.keys);
    SettleRounds(s, c, i);
    assert forall j | Live(s.zombies, c'.gone, j) :: Live(s.zombies, c.gone, j);
    assert AllKnown(s.accepted, z.Orders()) && z.rid.keys == KeySet(z.Orders());
    forall k | k in s.accepted && k !in s.ended
      ensures k in c.held || k in c'.fin - Fin(s.log) || InCustody(k, s, c'.gone)
    {
      if k !in c.held && k !in c'.fin - Fin(s.log) {
        SettleCustody(s, c, i, k);
      }
    }
  }

  lemma SettleCustody(s: State, c: Ctx, i: nat, k: Key)
    requires Holds(s.zombies, c.gone, i) && s.zombies[i].rid.keys !! Fin(s.log)
    requires InCustody(k, s, c.gone) && k !in s.zombies[i].rid.keys
    ensures InCustody(k, s, c.gone + {i})
  {
    if exists j :: Holds(s.zombies, c.gone, j) && k in s.zombies[j].rid.keys {
      var j :| Holds(s.zombies, c.gone, j) && k in s.zombies[j].rid.keys;
      assert Holds(s.zombies, c.gone + {i}, j);
    }
  }

  // ---- the receipts of a settling round ----

  /** A round all of whose orders are settled but not yet receipted, and which is tracked no more. */
  ghost predicate Settled(s: State, c: Ctx, rec: Record) {
    && rec.rid.keys == KeySet(rec.Orders()) && DistinctKeys(rec.Orders()) && AllKnown(s.accepted, rec.Orders())
    && (forall o | o in rec.sealed :: o.sealed && Got(rec.fills, o.oid) <= o.qty)
    && (forall o | o in rec.public :: !o.sealed)
    && rec.claimed == map[]
    && rec.rid.keys <= c.fin && rec.rid.keys !! Fin(s.log)
    && (rec.rid.keys != {} ==>
          && (s.inflight.Some? ==> s.inflight.value.rid != rec.rid)
          && forall j | Live(s.zombies, c.gone, j) :: s.zombies[j].rid != rec.rid)
  }

  lemma SettledAllDue(s: State, c: Ctx, rec: Record)
    requires Settled(s, c, rec)
    ensures AllDue(s, c, rec.rid, rec.Orders(), rec.fills)
  {
    forall o | o in rec.Orders() ensures Due(s, c, rec.rid, o, rec.fills) {
      assert KeyOf(o) in rec.rid.keys;
      assert o in rec.sealed || o in rec.public;
    }
  }

  /** Finalizing hands a receipt to every order of the round. */
  lemma FinalizeKeeps(s: State, c: Ctx, rec: Record, now: int, refused: set<nat>)
    requires Core(s, c) && Settled(s, c, rec)
    ensures var s' := Finalize(s, rec, now, refused);
            Core(s', c) && Fin(s'.log) == Fin(s.log) + rec.rid.keys && Framed(s, s')
  {
    FilterAll(rec.Orders(), FreeOf(rec.claimed.Keys));
    SettledAllDue(s, c, rec);
    ReceiptAllKeeps(s, c, rec.rid, rec.Orders(), rec.fills, now, refused);
    Refresh(ReceiptAll(s, rec.rid, rec.Orders(), rec.fills, now, refused), c, rec.pruned);
  }

  ghost predicate Framed(s: State, s': State) {
    && s'.inflight == s.inflight && s'.zombies == s.zombies && s'.looks == s.looks && s'.gate == s.gate
    && Extends(s.accepted, s'.accepted)
  }

  lemma Refresh(s: State, c: Ctx, pruned: set<nat>)
    requires Core(s, c)
    ensures Core(s.(expiry := s.expiry - pruned), c)
  {
    var s' := s.(expiry := s.expiry - pruned);
    assert Queues(s', c.fin) && Logged(s', c.fin, c.gone);
    forall k | InCustody(k, s, c.gone) ensures InCustody(k, s', c.gone) {}
    assert Books(s') by {
      forall x | x in s.placed ensures ConservedAt(s', x) { assert ConservedAt(s, x); }
    }
  }

  lemma StandingSettles(s: State, c: Ctx, i: nat)
    requires Standing(s, c, i) && Rounds(s, c) && c.fin == Fin(s.log)
    ensures Settled(s, Settle(c, i, s.zombies[i].rid.keys), s.zombies[i])
  {
    StandingUnclaimed(s, c, i);
    assert RecordOk(s.accepted, KeySet(s.retry), s.zombies[i]) && s.zombies[i].rid.keys !! c.fin;
  }

  /** A released round that stood its confirmation: all its orders are receipted. */
  lemma ZombieFinalizes(s: State, c: Ctx, i: nat, now: int, refused: set<nat>)
    requires Standing(s, c, i) && Core(s, c) && c.fin == Fin(s.log)
    ensures var s', keys := Finalize(s, s.zombies[i], now, refused), s.zombies[i].rid.keys;
            Core(s', Settle(c, i, keys)) && Fin(s'.log) == Fin(s.log) + keys && Framed(s, s')
  {
    StandingSettles(s, c, i);
    SettleCore(s, c, i);
    FinalizeKeeps(s, Settle(c, i, s.zombies[i].rid.keys), s.zombies[i], now, refused);
  }

  // ---- the round in flight settles ----

  /** The round in flight reads as landed, and so does no released round sharing its orders;
      every sighted round reads as landed. */
  ghost predicate Landing(s: State, c: Ctx, landed: set<RoundId>) {
    && s.inflight.Some? && s.inflight.value.rid in landed
    && c.gone == {} && c.held == {} && c.fin == Fin(s.log)
    && Durable(landed, s.log)
    && (forall j | Holds(s.zombies, c.gone, j) :: s.zombies[j].rid.keys !! s.inflight.value.rid.keys)
  }

  lemma LandingUnclaimed(s: State, c: Ctx, landed: set<RoundId>)
    requires Landing(s, c, landed) && Rounds(s, c) && Logged(s, c.fin, c.gone)
    ensures s.inflight.value.claimed == map[] && s.inflight.value.rid.keys !! c.fin
  {
    var fr := s.inflight.value;
    assert BackedOn(fr, s.zombies, c.gone, c.fin) && RecordOk(s.accepted, KeySet(s.retry), fr);
    forall rc | rc in s.log ensures rc.key !in fr.rid.keys {}
    assert fr.claimed.Keys == {};
  }

  /** The orders of the round in flight join the settled ones as it leaves its slot. */
  function Landed(c: Ctx, keys: set<Key>): Ctx { c.(fin := c.fin + keys) }

  lemma LandedRounds(s: State, c: Ctx, landed: set<RoundId>)
    requires Landing(s, c, landed) && Rounds(s, c) && Logged(s, c.fin, c.gone)
    ensures Rounds(s.(inflight := None), Landed(c, s.inflight.value.rid.keys))
  {
    var c' := Landed(c, s.inflight.value.rid.keys);
    forall r | BackedOn(r, s.zombies, c.gone, c.fin) ensures BackedOn(r, s.zombies, c.gone, c'.fin) {}
  }

  lemma LandedCore(s: State, c: Ctx, landed: set<RoundId>)
    requires Landing(s, c, landed) && Core(s, c)
    ensures Core(s.(inflight := None), Landed(c, s.inflight.value.rid.keys))
  {
    var fr, s', c' := s.inflight.value, s.(inflight := None), Landed(c, s.inflight.value.rid.keys);
    LandedRounds(s, c, landed);
    LandingUnclaimed(s, c, landed);
    assert RecordOk(s.accepted, KeySet(s.retry), fr);
    assert Queues(s', c'.fin) && Logged(s', c'.fin, c'.gone);
    forall k | k in s'.accepted && k !in s'.ended
      ensures k in c'.fin - Fin(s'.log) || InCustody(k, s', c'.gone)
    {
      assert InCustody(k, s, c.gone) && k !in fr.rid.keys ==> InCustody(k, s', c.gone);
    }
    assert Books(s') by {
      forall x | x in s.placed ensures ConservedAt(s', x) { assert ConservedAt(s, x); }
    }
  }

  lemma LandingSettles(s: State, c: Ctx, landed: set<RoundId>, rec: Record)
    requires Landing(s, c, landed) && Core(s, c) && rec == s.inflight.value.(deadSince := None)
    ensures Settled(s.(inflight := None), Landed(c, rec.rid.keys), rec)
  {
    var fr := s.inflight.value;
    LandingUnclaimed(s, c, landed);
    assert rec.Orders() == fr.Orders();
    assert RecordOk(s.accepted, KeySet(s.retry), fr);
  }

  /** The round in flight stood its confirmation: all its orders are receipted. */
  lemma InflightFinalizes(s: State, c: Ctx, landed: set<RoundId>, rec: Record, now: int, refused: set<nat>)
    requires Landing(s, c, landed) && Core(s, c) && rec == s.inflight.value.(deadSince := None)
    ensures var s' := Finalize(s.(inflight := None), rec, now, refused);
            Core(s', Landed(c, rec.rid.keys)) && Fin(s'.log) == Fin(s.log) + rec.rid.keys
              && Framed(s.(inflight := None), s')
  {
    LandedCore(s, c, landed);
    LandingSettles(s, c, landed, rec);
    FinalizeKeeps(s.(inflight := None), Landed(c, rec.rid.keys), rec, now, refused);
  }

  // ---- what a settlement adds to the queues ----

  /** The orders of `q'` that are not in `q` carry a commitment of `n` or later. */
  ghost predicate Newly(q: seq<Order>, q': seq<Order>, n: nat) {
    forall o | o in q' :: o in q || (o.commit.Some? && o.commit.value >= n)
  }

  ghost predicate NoneRefused(refused: set<nat>, lo: nat, hi: nat) { forall n | lo <= n < hi :: n !in refused }

  /** The re-seals are new, the refused ones wait behind those already waiting, and nothing ends
      but what is receipted. */
  ghost predicate Adds(s: State, x: State, refused: set<nat>) {
    && s.accepted.Keys <= x.accepted.Keys && s.nextCommit <= x.nextCommit
    && Newly(s.pending, x.pending, s.nextCommit) && Newly(s.retry, x.retry, s.nextCommit) && s.retry <= x.retry
    && (x.retry == s.retry <==> NoneRefused(refused, s.nextCommit, x.nextCommit))
    && s.ended <= x.ended && x.ended <= s.ended + Fin(x.log)
  }

  lemma NewlyMore(q: seq<Order>, q': seq<Order>, n: nat, r: Order)
    requires Newly(q, q', n) && r.commit.Some? && r.commit.value >= n
    ensures Newly(q, q' + [r], n)
  {
    assert forall o :: o in q' + [r] <==> o in q' || o == r;
  }

  lemma ResealAdds(s: State, x: State, r: Order, refused: set<nat>)
    requires Adds(s, x, refused) && r.commit == Some(x.nextCommit)
    ensures Adds(s, Reseal(x, r, x.nextCommit in refused), refused)
  {
    NewlyMore(s.pending, x.pending, s.nextCommit, r);
    NewlyMore(s.retry, x.retry, s.nextCommit, r);
    assert NoneRefused(refused, s.nextCommit, x.nextCommit + 1) <==>
             NoneRefused(refused, s.nextCommit, x.nextCommit) && x.nextCommit !in refused;
    assert |x.retry + [r]| > |s.retry|;
  }

  lemma ReceiptAdds(s: State, x: State, rid: RoundId, o: Order, fills: Fills, now: int, refused: set<nat>)
    requires Adds(s, x, refused)
    ensures Adds(s, ReceiptOne(x, rid, o, fills, now, refused), refused)
  {
    var rc := ReceiptFor(x, rid, o, fills, now);
    ReceiptSplits(x, rid, o, fills, now, refused);
    FinSnoc(x.log, rc);
    assert Adds(s, LogOnly(x, rc), refused);
    if Carries(x, o, fills, now) {
      ResealAdds(s, LogOnly(x, rc), Remainder(o, Unfilled(o, fills), x.nextCommit), refused);
    }
  }

  lemma FinalizeAdds(s: State, rec: Record, now: int, refused: set<nat>)
    ensures Adds(s, Finalize(s, rec, now, refused), refused)
  {
    var inv := (x: State, rest: seq<Order>) => Adds(s, x, refused);
    forall x, rest | inv(x, rest) && rest != []
      ensures inv(ReceiptOne(x, rec.rid, rest[0], rec.fills, now, refused), rest[1..])
    {
      ReceiptAdds(s, x, rec.rid, rest[0], rec.fills, now, refused);
    }
    ReceiptInduction(s, rec.rid, Filter(rec.Orders(), FreeOf(rec.claimed.Keys)), rec.fills, now, refused, inv);
  }

  /** What a settlement adds to a queue was never accepted before. */
  lemma NewlyKeys(s: State, q: seq<Order>, q': seq<Order>)
    requires Counters(s) && Newly(q, q', s.nextCommit)
    ensures KeySet(q') - KeySet(q) !! s.accepted.Keys
  {
  }
}

/** The market as it runs: one object whose queues and records are updated in place. Each
    method carries out one operation of the lifecycle and is proved equal to it. */
module Market {
  import opened Sequences
  import opened Orders
  import opened Clearing
  import opened Planning
  import opened BatchCap
  import SD = SeqDiscipline
  import opened Lifecycle
  import LS = LifecycleSightings

  /** Note on every other released round that `z`, at position `i`, holds their common orders. */
  method NoteOthers(zs: seq<Record>, i: nat, z: Record) returns (r: seq<Record>)
    ensures r == MapOthers(zs, i, Noting(z))
  {
    r := zs;
    for j := 0 to |zs|
      invariant |r| == |zs| && forall m | j <= m < |zs| :: r[m] == zs[m]
      invariant forall m | 0 <= m < j :: r[m] == if m == i then zs[m] else NoteClaim(zs[m], z)
    {
      if j != i {
        r := r[j := NoteClaim(r[j], z)];
      }
    }
  }

  /** Take the claims of round `rid` off every other released round. */
  method DropFromOthers(zs: seq<Record>, i: nat, rid: RoundId) returns (r: seq<Record>)
    ensures r == MapOthers(zs, i, Dropping(rid))
  {
    r := zs;
    for j := 0 to |zs|
      invariant |r| == |zs| && forall m | j <= m < |zs| :: r[m] == zs[m]
      invariant forall m | 0 <= m < j :: r[m] == if m == i then zs[m] else DropClaims(zs[m], rid)
    {
      if j != i {
        r := r[j := DropClaims(r[j], rid)];
      }
    }
  }

  /** Forget the oldest unsighted records beyond the cap. */
  method TrimList(records: seq<Record>) returns (zs: seq<Record>)
    ensures zs == Trim(records)
  {
    zs := records;
    while |zs| > ZOMBIE_CAP
      invariant Trim(zs) == Trim(records)
      decreases |zs|
    {
      var i := FirstUnsighted(zs);
      if i == |zs| {
        break;
      }
      zs := zs[..i] + zs[i+1..];
    }
  }

  class Market {
    var pending: seq<Order>
    var inflight: Option<Record>
    var zombies: seq<Record>
    var retry: seq<Order>
    var expiry: map<nat, int>
    var gate: Option<int>
    var nextOid: nat
    var nextCommit: nat
    ghost var accepted: map<Key, Order>
    ghost var ended: set<Key>
    ghost var log: seq<Receipt>
    ghost var looks: seq<Look>
    ghost var tip: map<nat, Key>
    ghost var placed: map<nat, nat>

    ghost function Value(): State
      reads this
    {
      State(pending, inflight, zombies, retry, expiry, gate, nextOid, nextCommit, accepted, ended, log, looks, tip,
            placed)
    }

    constructor ()
      ensures Value() == Init()
    {
      pending, inflight, zombies, retry := [], None, [], [];
      expiry, gate, nextOid, nextCommit := map[], None, 1, 0;
      accepted, ended, log, looks, tip, placed := map[], {}, [], [], map[], map[];
    }

    /** Accept an order. */
    method PlaceOrder(n: Ticket)
      modifies this
      ensures Value() == Place(old(Value()), n)
    {
      var commit := if n.sealed then Some(nextCommit) else None;
      var o := Order(n.account, nextOid, commit, n.side, n.price, n.qty, n.sealed, n.market, n.seqno, None);
      pending := pending + [o];
      expiry := expiry[nextOid := n.expires];
      accepted, tip, placed := accepted[KeyOf(o) := o], tip[nextOid := KeyOf(o)], placed[nextOid := n.qty];
      nextOid := nextOid + 1;
      if n.sealed {
        nextCommit := nextCommit + 1;
      }
    }

    // ---- settling ----

    /** Receipt one order and re-seal what is left of it, if it carries on. */
    method Receipt(rid: RoundId, o: Order, fills: Fills, now: int, refused: set<nat>)
      modifies this
      ensures Value() == ReceiptOne(old(Value()), rid, o, fills, now, refused)
    {
      var left := Unfilled(o, fills);
      var carries := o.sealed && left > 0 && !Overdue(expiry, o.oid, now);
      ended := ended + {KeyOf(o)};
      ghost var look := if |looks| > 0 then |looks| - 1 else 0;
      log := log + [Lifecycle.Receipt(rid, KeyOf(o), Got(fills, o.oid), if carries then 0 else left, look)];
      if carries {
        ReSeal(Remainder(o, left, nextCommit), nextCommit in refused);
      }
    }

    /** Queue a remainder under a fresh commitment, or keep it for a later try. */
    method ReSeal(r: Order, busy: bool)
      modifies this
      ensures Value() == old(Value()).(nextCommit := old(nextCommit) + 1,
                                       accepted := old(accepted)[KeyOf(r) := r],
                                       tip := old(tip)[r.oid := KeyOf(r)],
                                       retry := if busy then old(retry) + [r] else old(retry),
                                       pending := if busy then old(pending) else old(pending) + [r])
    {
      if busy {
        retry := retry + [r];
      } else {
        pending := pending + [r];
      }
      accepted, tip := accepted[KeyOf(r) := r], tip[r.oid := KeyOf(r)];
      nextCommit := nextCommit + 1;
    }

    /** Hand out a settled round's receipts, except for the orders another landed round holds. */
    method FinalizeRound(rec: Record, now: int, refused: set<nat>)
      modifies this
      ensures Value() == Finalize(old(Value()), rec, now, refused)
    {
      var own := Filter(rec.Orders(), FreeOf(rec.claimed.Keys));
      for i := 0 to |own|
        invariant ReceiptAll(Value(), rec.rid, own[i..], rec.fills, now, refused) ==
                  ReceiptAll(old(Value()), rec.rid, own, rec.fills, now, refused)
      {
        assert own[i..][0] == own[i] && own[i..][1..] == own[i+1..];
        Receipt(rec.rid, own[i], rec.fills, now, refused);
      }
      expiry := expiry - rec.pruned;
    }

    /** Retry the re-seals the chain would not take. */
    method DrainRetry(now: int, refused: set<nat>)
      modifies this
      ensures Value() == Drain(old(Value()), now, refused)
    {
      var items, keep := retry, [];
      for i := 0 to |items|
        invariant DrainAll(Value().(retry := keep), items[i..], now, refused) == Drain(old(Value()), now, refused)
      {
        assert items[i..][0] == items[i] && items[i..][1..] == items[i+1..];
        var r := items[i];
        if Overdue(expiry, r.oid, now) {
          ended := ended + {KeyOf(r)};
        } else if r.commit.Some? && r.commit.value in refused {
          keep := keep + [r];
        } else {
          pending := pending + [r];
        }
      }
      retry := keep;
    }

    /** What arrives while the market is at work on something else. */
    method ArriveMany(vs: seq<Arrival>)
      modifies this
      ensures Value() == ArriveAll(old(Value()), vs)
    {
      for i := 0 to |vs|
        invariant ArriveAll(Value(), vs[i..]) == ArriveAll(old(Value()), vs)
      {
        assert vs[i..][0] == vs[i] && vs[i..][1..] == vs[i+1..];
        match vs[i] {
          case Placing(n) => PlaceOrder(n);
          case Draining(now, refused) => DrainRetry(now, refused);
        }
      }
    }

    // ---- releasing ----

    method ReleaseRound(fr: Record, now: int, timeout: bool)
      modifies this
      ensures Value() == Abandon(old(Value()), fr, now, timeout)
    {
      pending := Filter(fr.Orders(), FreeOf(fr.claimed.Keys)) + pending;
      zombies := zombies + [fr.(okSince := None, releasedAt := now)];
      if timeout {
        gate := Some(now);
      }
      zombies := TrimList(zombies);
    }

    // ---- claims ----

    /** Released round `i` landed after all. */
    method ClaimRound(i: nat) returns (keys: set<Key>)
      requires i < |zombies|
      modifies this
      ensures Value() == Claim(old(Value()), i) && keys == old(zombies)[i].rid.keys
    {
      var z := zombies[i];
      keys := z.rid.keys;
      pending := Filter(pending, FreeOf(keys));
      if inflight.Some? {
        inflight := Some(NoteClaim(inflight.value, z));
      }
      zombies := NoteOthers(zombies, i, z);
      assert inflight == MapInflight(old(inflight), Noting(z));
    }

    /** The late landing of released round `i` is gone. */
    method UnclaimRound(i: nat)
      requires i < |zombies|
      modifies this
      ensures Value() == Unclaim(old(Value()), i)
    {
      var z := zombies[i];
      var busy := InflightKeys(inflight) + SightedKeys(zombies, i) + KeySet(pending);
      pending := Filter(z.Orders(), FreeOf(busy)) + pending;
      if inflight.Some? {
        inflight := Some(DropClaims(inflight.value, z.rid));
      }
      zombies := DropFromOthers(zombies, i, z.rid);
      assert inflight == MapInflight(old(inflight), Dropping(z.rid));
      assert busy == Busy(old(Value()), i);
    }

    // ---- sweeping ----

    /** Judge released round `i` by what one look at the chain says. */
    method VisitRound(i: nat, look: Look, cfg: Config, refused: set<nat>) returns (drop: bool, took: set<Key>)
      requires i < |zombies|
      modifies this
      ensures Visited(Value(), drop, took) == Visit(old(Value()), i, look, cfg, refused)
    {
      var z := zombies[i];
      drop, took := false, {};
      if !z.Sighted() && look.time - z.releasedAt > cfg.watch {
        drop := true;
      } else if z.rid in look.unread {
        return;
      } else if z.rid in look.landed {
        if !z.Sighted() {
          zombies := zombies[i := z.(okSince := Some(look.time))];
          took := ClaimRound(i);
        } else if Confirmed(z, look, cfg) {
          var rival := RivalReads(i, look);
          if !rival {
            FinalizeRound(z, look.time, refused);
            drop := true;
          }
        }
      } else if z.Sighted() {
        zombies := zombies[i := z.(okSince := None)];
        UnclaimRound(i);
      }
    }

    /** Does another tracked round sharing an order also read as landed? */
    method RivalReads(i: nat, look: Look) returns (rival: bool)
      requires i < |zombies|
      ensures rival == RivalLanded(Value(), i, look)
    {
      rival := inflight.Some? && Rivals(zombies[i], inflight.value, look);
      for j := 0 to |zombies|
        invariant rival == ((inflight.Some? && Rivals(zombies[i], inflight.value, look)) ||
                            exists m :: 0 <= m < j && m != i && Rivals(zombies[i], zombies[m], look))
      {
        if j != i && Rivals(zombies[i], zombies[j], look) {
          rival := true;
        }
      }
    }

    /** One visit of a sweep that began in state `start`. */
    method SweepStep(i: nat, look: Look, cfg: Config, refused: set<nat>, gone: set<nat>, took: set<Key>,
                     ghost start: State)
      returns (gone': set<nat>, took': set<Key>)
      requires i < |zombies| && looks != []
      requires Sweeping(Value(), gone, took) == VisitUpTo(start, i, look, cfg, refused)
      modifies this
      ensures Sweeping(Value(), gone', took') == VisitUpTo(start, i + 1, look, cfg, refused)
      ensures |zombies| == |old(zombies)| && looks != []
    {
      ghost var before := Value();
      LS.FinalizeFresh(before, before.zombies[i], look.time, refused);
      var drop, keys := VisitRound(i, look, cfg, refused);
      gone', took' := if drop then gone + {i} else gone, took + keys;
    }

    /** Visit every released round; the records stay in place until the end, since a later claim
        still writes on them. */
    method VisitAll(look: Look, cfg: Config, refused: set<nat>) returns (gone: set<nat>, took: set<Key>)
      modifies this
      ensures Sweeping(Value(), gone, took) == VisitUpTo(old(Value()), |old(zombies)|, look, cfg, refused)
    {
      ghost var start := Value();
      looks := looks + [look];
      gone, took := {}, {};
      var n := |zombies|;
      for i := 0 to n
        invariant |zombies| == n && looks != []
        invariant Sweeping(Value(), gone, took) == VisitUpTo(start, i, look, cfg, refused)
      {
        gone, took := SweepStep(i, look, cfg, refused, gone, took, start);
      }
    }

    /** One sweep over the released rounds. */
    method SweepZombies(look: Look, cfg: Config, refused: set<nat>) returns (took: set<Key>)
      modifies this
      ensures Visited(Value(), false, took) == ResolveZombies(old(Value()), look, cfg, refused)
    {
      var gone;
      gone, took := VisitAll(look, cfg, refused);
      zombies := KeepRest(zombies, gone);
    }

    // ---- the round in flight ----

    method JudgeInflight(look: Look, cfg: Config, refused: set<nat>)
      modifies this
      ensures Value() == ResolveInflight(old(Value()), look, cfg, refused)
    {
      if inflight.None? || inflight.value.rid in look.unread {
        return;
      }
      var fr, now := inflight.value, look.time;
      if fr.rid in look.landed {
        fr := fr.(deadSince := None);
        if !fr.Sighted() {
          inflight := Some(fr.(okSince := Some(now)));
        } else {
          var rival := exists j :: 0 <= j < |zombies| && Rivals(fr, zombies[j], look);
          if Confirmed(fr, look, cfg) && !rival {
            inflight := None;
            FinalizeRound(fr, now, refused);
          } else {
            inflight := Some(fr);
          }
        }
      } else if fr.Sighted() {
        inflight := Some(fr.(okSince := None));
      } else if look.dead {
        var since := if fr.deadSince.Some? then fr.deadSince.value else now;
        fr := fr.(deadSince := Some(since));
        if now - since >= cfg.deadConfirm {
          inflight := None;
          ReleaseRound(fr, now, false);
        } else {
          inflight := Some(fr);
        }
      } else {
        fr := fr.(deadSince := None);
        if now - fr.t > cfg.gateSecs {
          inflight := None;
          ReleaseRound(fr, now, true);
        } else {
          inflight := Some(fr);
        }
      }
    }

    /** One resolver sweep. */
    method SweepOnce(look: Look, cfg: Config, refused: set<nat>)
      modifies this
      ensures Value() == Sweep(old(Value()), look, cfg, refused)
    {
      var took := SweepZombies(look, cfg, refused);
      JudgeInflight(look, cfg, refused);
    }

    // ---- building ----

    method EndOrders(os: seq<Order>)
      modifies this
      ensures Value() == End(old(Value()), os)
    {
      ended := ended + KeySet(os);
      expiry := expiry - set o | o in os :: o.oid;
    }

    /** Put back, at the front, what a failed build still owns. */
    method Requeue(taken: seq<Order>, done: set<Key>)
      modifies this
      ensures Value() == RequeueUnsent(old(Value()), taken, done)
    {
      var skip := done + SightedKeys(zombies, -1) + KeySet(pending);
      pending := Filter(taken, FreeOf(skip)) + pending;
    }

    /** Look at the released rounds, if there are any. */
    method LookAgain(look: Look, cfg: Config, refused: set<nat>) returns (took: set<Key>)
      modifies this
      ensures Visited(Value(), false, took) == Looked(old(Value()), look, cfg, refused)
    {
      took := {};
      if zombies != [] {
        took := SweepZombies(look, cfg, refused);
      }
    }

    /** Take the batch the planner chose out of the mempool. */
    method TakePlanned(a: BuildArgs) returns (plan: Plan, taken: seq<Order>)
      modifies this
      ensures plan == PlanOf(old(Value()), a) && Value() == TakeBatch(old(Value()), a)
      ensures taken ==
              Filter(Attach(old(pending), old(expiry)), HeldIn(KeySet(plan.shown + plan.public + plan.expired)))
    {
      var all := Attach(pending, expiry);
      plan := PlanBatchLoop(all, a.resting, CapPolicy(a.gas, a.lim), a.now, a.ready);
      taken := Filter(all, HeldIn(KeySet(plan.shown + plan.public + plan.expired)));
      pending := Filter(all, InSet(Members(plan.carry + plan.deferred + plan.overflow)));
      EndOrders(plan.expired);
    }

    /** Send the round, or put its orders back if the chain refuses it for now. */
    method SubmitRound(b: Batch, a: BuildArgs)
      modifies this
      ensures Value() == Submit(old(Value()), b, a)
    {
      var clearing := ClearBatch(a.resting + b.sealed + b.public);
      var rec := Record(RoundId(KeySet(b.sealed + b.public), a.book), b.sealed, b.public, clearing.fills,
                        a.pruned, a.now, None, None, map[], 0);
      if a.fate.ChainBusy? {
        pending := b.sealed + b.public + pending;
        gate := Some(a.now);
      } else {
        inflight := Some(rec);
        zombies := Filter(zombies, OtherThan(rec.rid));
      }
    }

    /** Queue again, still hidden, the sealed orders left without a counterparty. */
    method HideUnmatched(b: Batch, a: BuildArgs) returns (shown: seq<Order>)
      modifies `pending
      ensures Value() == Rehide(old(Value()), b, a) && shown == StillShown(b, a)
    {
      var kept := PlanRoundLoop(b.sealed + b.public, a.resting, a.now, AllReady());
      shown := kept.shown;
      pending := Filter(b.sealed, NotIn(Members(shown))) + pending;
    }

    /** The rest of a build, once its batch is out of the mempool. */
    method AssembleRound(b: Batch, taken: seq<Order>, expired: seq<Order>, a: BuildArgs)
      modifies this
      ensures Value() == Assemble(old(Value()), b, taken, expired, a)
    {
      EndOrders(b.dead);
      var shown := HideUnmatched(b, a);
      if shown == [] && b.public == [] && a.pruned == {} {
        return;
      }
      if a.fate.FailsLate? {
        gate := Some(a.now);
        Requeue(Reprice(taken, a.lastPrice), KeySet(expired) + KeySet(b.dead));
      } else {
        SubmitRound(Batch(shown, b.public, []), a);
      }
    }

    /** Price the market orders and enforce the sequence discipline. */
    method Discipline(plan: Plan, a: BuildArgs) returns (b: Batch)
      ensures b == Disciplined(plan, a)
    {
      var priced := Reprice(Filter(plan.public, Priceable(a.lastPrice)), a.lastPrice);
      var kept, stale, floors := SD.Sanitize(priced, a.floor);
      b := Batch(plan.shown, kept, Filter(plan.public, Unpriceable(a.lastPrice)) + SD.Dropees(stale));
    }

    /** Build and send the next round. */
    method BuildRound(a: BuildArgs, cfg: Config, refused: set<nat>)
      modifies this
      ensures Value() == Build(old(Value()), a, cfg, refused)
    {
      if inflight.Some? || (gate.Some? && a.now - gate.value < COOLDOWN) {
        return;
      }
      OpenBuild(a, cfg, refused);
      CompleteBuild(a, cfg, refused);
    }

    method CompleteBuild(a: BuildArgs, cfg: Config, refused: set<nat>)
      modifies this
      ensures var s := old(Value());
              var plan := PlanOf(s, a);
              var taken := Filter(Attach(s.pending, s.expiry), HeldIn(KeySet(plan.shown + plan.public + plan.expired)));
              Value() == Finish(Underway(s, a), plan, taken, a, cfg, refused)
    {
      var plan, taken := TakePlanned(a);
      ArriveMany(a.middle);
      FinishBuild(plan, taken, a, cfg, refused);
    }

    /** Before planning, give a late landing its orders. */
    method OpenBuild(a: BuildArgs, cfg: Config, refused: set<nat>)
      modifies this
      ensures Value() == Opening(old(Value()), a, cfg, refused)
    {
      gate := None;
      var took := LookAgain(a.first, cfg, refused);
      ArriveMany(a.early);
    }

    method FinishBuild(plan: Plan, taken: seq<Order>, a: BuildArgs, cfg: Config, refused: set<nat>)
      modifies this
      ensures Value() == Finish(old(Value()), plan, taken, a, cfg, refused)
    {
      if a.fate.FailsPricing? {
        Requeue(taken, KeySet(plan.expired));
      } else if a.fate.FailsFloors? {
        Requeue(Reprice(taken, a.lastPrice), KeySet(plan.expired));
      } else {
        var b := Discipline(plan, a);
        var took := LookAgain(a.second, cfg, refused);
        ArriveMany(a.late);
        AssembleRound(Unclaimed(b, took), taken, plan.expired, a);
      }
    }
  }

  /** The records that are not dropped, in order. */
  method KeepRest(zs: seq<Record>, gone: set<nat>) returns (r: seq<Record>)
    ensures r == Survivors(zs, gone, |zs|)
  {
    r := [];
    for i := 0 to |zs|
      invariant r == Survivors(zs, gone, i)
    {
      if i !in gone {
        r := r + [zs[i]];
      }
    }
  }
}

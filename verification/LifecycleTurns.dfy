/** No build sends an account's newer public order and leaves an older one behind. */
module LifecycleTurns {
  import opened Sequences
  import opened Orders
  import opened Planning
  import PT = PlanningTheorems
  import opened BatchCap
  import BatchCapTheorems
  import SD = SeqDiscipline
  import opened Lifecycle
  import opened LifecycleInvariants
  import opened LifecycleReceipts
  import opened LifecycleClaims
  import opened LifecycleQueues
  import opened LifecycleBuilds
  import opened LifecycleSends

  /** Two public orders of one account, the first with the lower seq. */
  ghost predicate Precedes(older: Order, newer: Order) {
    !older.sealed && !newer.sealed && older.account == newer.account && older.seqno < newer.seqno
  }

  /** The plan takes the older order with the newer one, if a round could carry it. */
  lemma OlderIsPlanned(all: seq<Order>, a: BuildArgs, older: Order, newer: Order)
    requires Distinct(all) && older in all && Precedes(older, newer) && a.gas(older) <= a.lim.budget
    requires newer in PlanBatch(all, a.resting, CapPolicy(a.gas, a.lim), a.now, a.ready).public
    ensures older in PlanBatch(all, a.resting, CapPolicy(a.gas, a.lim), a.now, a.ready).public
  {
    var fit := CapPolicy(a.gas, a.lim);
    BatchCapTheorems.CapPolicyIsSafe(a.gas, a.lim);
    var last := PT.PlanBatchSettles(all, a.resting, fit, a.now, a.ready);
    PT.RefillMember(all, a.resting, fit, a.now, last, older);
    PT.RefillMember(all, a.resting, fit, a.now, last, newer);
    FilterMember(all, Candidate(last), older);
    FilterDistinct(all, Candidate(last));
    BatchCapTheorems.OlderGoesFirst(Filter(all, Candidate(last)), a.gas, a.lim, older, newer);
  }

  /** A public order of the batch was planned, at some price. */
  lemma KeptWasPlanned(q: seq<Order>, lp: nat, floor: SD.Floors, o: Order) returns (x: Order)
    requires o in SD.Sanitized(Reprice(Filter(q, Priceable(lp)), lp), floor).kept
    ensures x in q && o == x.(price := o.price)
  {
    var p := Filter(q, Priceable(lp));
    var r := Reprice(p, lp);
    var sane := SD.Sanitized(r, floor);
    SD.SanitizeIsExact(r, floor);
    PermMember(sane.kept + SD.Dropees(sane.dead), r, o);
    FilterMembers(q, Priceable(lp));
    var i :| 0 <= i < |r| && r[i] == o;
    x := p[i];
    assert x in p;
  }

  /** So the older order is in the build's hands when it assembles its round, unless the second
      look took it. */
  lemma OlderInHand(s: State, a: BuildArgs, took: set<Key>, older: Order, newer: Order)
    requires Inv(s, {}) && older in Attach(s.pending, s.expiry) && Precedes(older, newer)
    requires a.gas(older) <= a.lim.budget && newer in Unclaimed(Disciplined(PlanOf(s, a), a), took).public
    ensures var b := Unclaimed(Disciplined(PlanOf(s, a), a), took);
            KeyOf(older) in KeySet(b.public) || KeyOf(older) in KeySet(b.dead) || KeyOf(older) in took
  {
    var all, plan, lp := Attach(s.pending, s.expiry), PlanOf(s, a), a.lastPrice;
    var batch := Disciplined(plan, a);
    AllOf(s, a);
    DistinctKeysIff(all);
    FilterMembers(batch.public, FreeOf(took));
    var planned := KeptWasPlanned(plan.public, lp, a.floor, newer);
    OlderIsPlanned(all, a, older, planned);
    PublicSplits(s, a);
    assert KeyOf(older) in KeySet(plan.public);
    FilterKeySet(batch.public, took);
    FilterKeySet(batch.dead, took);
  }

  lemma PublicSplits(s: State, a: BuildArgs)
    requires Inv(s, {})
    ensures var plan := PlanOf(s, a);
            KeySet(plan.public) == KeySet(Disciplined(plan, a).public) + KeySet(Disciplined(plan, a).dead)
  {
    var plan := PlanOf(s, a);
    AllOf(s, a);
    DistinctKeysSplit(plan.shown, plan.public);
    assert forall o | o in plan.public :: o in Hand(plan);
    DisciplineSplits(plan.public, a.lastPrice, a.floor, s.accepted);
  }

  /** What becomes of the state a round is sent from. */
  ghost predicate SentFrom(s: State, b: Batch, a: BuildArgs, s': State) {
    && s'.inflight == Some(NewRecord(Shown(b, a), a))
    && s'.ended == s.ended + KeySet(b.dead)
    && s'.zombies == Filter(s.zombies, OtherThan(NewRecord(Shown(b, a), a).rid))
  }

  lemma SubmitSends(s: State, b: Batch, a: BuildArgs)
    requires s.inflight.None? && Submit(s, b, a).inflight.Some?
    ensures var s', r := Submit(s, b, a), NewRecord(b, a);
            s'.inflight == Some(r) && s'.ended == s.ended && s'.zombies == Filter(s.zombies, OtherThan(r.rid))
  {
  }

  lemma AssembleSent(s: State, b: Batch, taken: seq<Order>, expired: seq<Order>, a: BuildArgs)
    requires s.inflight.None? && Assemble(s, b, taken, expired, a).inflight.Some?
    ensures SentFrom(s, b, a, Assemble(s, b, taken, expired, a))
  {
    var s1 := Rehide(End(s, b.dead), b, a);
    RehideMoves(s, b, a);
    RequeueMoves(s1, Reprice(taken, a.lastPrice), KeySet(expired) + KeySet(b.dead), Some(a.now));
    if Submit(s1, Shown(b, a), a).inflight.Some? {
      SubmitSends(s1, Shown(b, a), a);
    }
    AssembleForms(s, b, taken, expired, a, (x: State) => x.inflight.Some? ==> SentFrom(s, b, a, x));
  }

  /** A sighted round is not replaced by a rebuild. */
  lemma SightedStay(zs: seq<Record>, rid: RoundId, k: Key)
    requires k in SightedKeys(zs, -1)
    ensures k in SightedKeys(Filter(zs, OtherThan(rid)), -1)
  {
    var j :| 0 <= j < |zs| && zs[j].Sighted() && k in zs[j].rid.keys;
    FilterMember(zs, OtherThan(rid), zs[j]);
    var q := Filter(zs, OtherThan(rid));
    var i :| 0 <= i < |q| && q[i] == zs[j];
    assert q[i].Sighted() && k in q[i].rid.keys;
  }

  ghost predicate AccountedFor(s: State, r: Record, k: Key) {
    k in r.rid.keys || k in s.ended || k in SightedKeys(s.zombies, -1)
  }

  lemma SentAccounts(s: State, b: Batch, a: BuildArgs, s': State, k: Key)
    requires SentFrom(s, b, a, s') && (k in KeySet(b.public) || k in KeySet(b.dead) || k in SightedKeys(s.zombies, -1))
    ensures AccountedFor(s', s'.inflight.value, k)
  {
    if k in KeySet(b.public) {
      KeySetConcat(StillShown(b, a), b.public);
    } else if k !in KeySet(b.dead) {
      SightedStay(s.zombies, s'.inflight.value.rid, k);
    }
  }

  lemma SendingAccounts(s: State, a: BuildArgs, cfg: Config, refused: set<nat>, older: Order, newer: Order)
    requires Inv(s, {}) && s.inflight.None? && Credible(a.second, s)
    requires older in Attach(s.pending, s.expiry) && Precedes(older, newer) && a.gas(older) <= a.lim.budget
    requires var b, s3 := InBatch(s, a, cfg, refused), Seconded(s, a, cfg, refused);
             var s' := Assemble(s3, b, Took(s, a), PlanOf(s, a).expired, a);
             s'.inflight.Some? && newer in s'.inflight.value.public
    ensures var b, s3 := InBatch(s, a, cfg, refused), Seconded(s, a, cfg, refused);
            var s' := Assemble(s3, b, Took(s, a), PlanOf(s, a).expired, a);
            AccountedFor(s', s'.inflight.value, KeyOf(older))
  {
    var b, s3 := InBatch(s, a, cfg, refused), Seconded(s, a, cfg, refused);
    SecondLookKeeps(s, a, cfg, refused);
    AssembleSent(s3, b, Took(s, a), PlanOf(s, a).expired, a);
    OlderInHand(s, a, Looked(Underway(s, a), a.second, cfg, refused).took, older, newer);
    SentAccounts(s3, b, a, Assemble(s3, b, Took(s, a), PlanOf(s, a).expired, a), KeyOf(older));
  }

  /** If the round a build sends carries a public order, then every public order of that account
      with a lower seq that was queued when the build planned, and that a round could carry, is in
      the round too, or has ended, or is held by a late landing: none is left to be stranded by
      the newer one raising its account's floor. */
  lemma OlderIsNotLeftBehind(s: State, a: BuildArgs, cfg: Config, refused: set<nat>, older: Order, newer: Order)
    requires Inv(s, {}) && !Gated(s, a.now) && HonestBuild(s, a, cfg, refused)
    requires var s1 := Opening(s, a, cfg, refused); older in Attach(s1.pending, s1.expiry)
    requires Precedes(older, newer) && a.gas(older) <= a.lim.budget
    requires var f := Build(s, a, cfg, refused).inflight; f.Some? && newer in f.value.public
    ensures var s' := Build(s, a, cfg, refused);
            || KeyOf(older) in s'.inflight.value.rid.keys
            || KeyOf(older) in s'.ended
            || KeyOf(older) in SightedKeys(s'.zombies, -1)
  {
    OpeningKeeps(s, a, cfg, refused);
    BuildForms(s, a, cfg, refused);
    SendingAccounts(Opening(s, a, cfg, refused), a, cfg, refused, older, newer);
  }
}

/** The cap is a safe capacity policy: it loses nothing, stays within its limits, keeps each
    account's orders in turn, never drops a batched order when sealed candidates leave, and
    makes a public order wait only behind a batch that is really full. */
module BatchCapTheorems {
  import opened Sequences
  import opened Orders
  import opened Planning
  import opened PlanningTheorems
  import opened BatchCap

  // ---- re-dealing is a permutation that puts every account in turn ----

  lemma TurnsBelong(full: seq<Order>, a: nat)
    ensures |Turns(full, a)| == |Filter(full, OfAccount(a))|
    ensures forall o | o in Turns(full, a) :: OfAccount(a)(o)
  {
    forall o | o in Turns(full, a) ensures OfAccount(a)(o) {
      SortMember(Filter(full, OfAccount(a)), BySeqno(), o);
      FilterMember(full, OfAccount(a), o);
    }
  }

  lemma DealtToAccount(full: seq<Order>, before: seq<Order>, o: Order)
    requires !o.sealed
    ensures OfAccount(o.account)(DealtTo(full, before, o))
  {
    TurnsBelong(full, o.account);
    var t, r := Turns(full, o.account), |Filter(before, OfAccount(o.account))|;
    assert r < |t| ==> t[r] in t;
  }

  lemma PrefixTurns(os: seq<Order>, full: seq<Order>, a: nat)
    requires os <= full
    ensures |Filter(os, OfAccount(a))| <= |Turns(full, a)|
  {
    TurnsBelong(full, a);
    assert full == os + full[|os|..];
    FilterConcat(os, full[|os|..], OfAccount(a));
  }

  lemma DealtInTurn(os: seq<Order>, n: nat, full: seq<Order>, a: nat)
    requires n < |os| && os <= full
    ensures var last := DealtTo(full, os[..n], os[n]);
            Filter([last], OfAccount(a)) == if OfAccount(a)(os[n]) then [last] else []
    ensures OfAccount(a)(os[n]) ==> |Filter(os[..n], OfAccount(a))| < |Turns(full, a)|
    ensures OfAccount(a)(os[n]) ==> DealtTo(full, os[..n], os[n]) == Turns(full, a)[|Filter(os[..n], OfAccount(a))|]
  {
    FilterSnoc(os, n, OfAccount(a));
    assert os[..n+1] <= full;
    PrefixTurns(os[..n+1], full, a);
    if !os[n].sealed {
      DealtToAccount(full, os[..n], os[n]);
    }
  }

  lemma {:induction false} DealTurnsPrefix(os: seq<Order>, full: seq<Order>, a: nat)
    requires os <= full
    ensures |Filter(os, OfAccount(a))| <= |Turns(full, a)|
    ensures Filter(DealPrefix(os, full), OfAccount(a)) == Turns(full, a)[..|Filter(os, OfAccount(a))|]
  {
    PrefixTurns(os, full, a);
    if os == [] {
    } else {
      var n := |os| - 1;
      var mine, turns, last := OfAccount(a), Turns(full, a), DealtTo(full, os[..n], os[n]);
      var done, r := DealPrefix(os[..n], full), |Filter(os[..n], OfAccount(a))|;
      DealTurnsPrefix(os[..n], full, a);
      DealtInTurn(os, n, full, a);
      FilterConcat(done, [last], mine);
      FilterSnoc(os, n, mine);
      assert os[..n+1] == os;
      assert Filter(DealPrefix(os, full), mine) == turns[..r] + (if mine(os[n]) then [last] else []);
      TakeMore(turns, r);
    }
  }

  lemma TakeMore(t: seq<Order>, r: nat)
    ensures r < |t| ==> t[..r+1] == t[..r] + [t[r]]
    ensures r <= |t| ==> t[..r] + [] == t[..r]
  {
  }

  /** In the dealt queue every account's public orders come lowest seq first. */
  lemma DealInTurn(os: seq<Order>, a: nat)
    ensures Filter(Deal(os), OfAccount(a)) == Turns(os, a)
    ensures SortedBy(Filter(Deal(os), OfAccount(a)), BySeqno())
  {
    DealTurnsPrefix(os, os, a);
    PermSize(Turns(os, a), Filter(os, OfAccount(a)));
    SortSorted(Filter(os, OfAccount(a)), BySeqno());
  }

  lemma {:induction false} DealSealed(os: seq<Order>, full: seq<Order>)
    ensures Filter(DealPrefix(os, full), IsSealed()) == Filter(os, IsSealed())
  {
    if os == [] {
    } else {
      var n := |os| - 1;
      DealSealed(os[..n], full);
      FilterSnoc(os, n, IsSealed());
      assert os[..n+1] == os;
      FilterConcat(DealPrefix(os[..n], full), [DealtTo(full, os[..n], os[n])], IsSealed());
      if !os[n].sealed {
        DealtToAccount(full, os[..n], os[n]);
      }
    }
  }

  lemma DealPermutes(os: seq<Order>)
    ensures multiset(Deal(os)) == multiset(os)
  {
    forall o ensures multiset(Deal(os))[o] == multiset(os)[o] {
      if o.sealed {
        DealSealed(os, os);
        FilterCount(Deal(os), IsSealed(), o);
        FilterCount(os, IsSealed(), o);
      } else {
        DealInTurn(os, o.account);
        FilterCount(Deal(os), OfAccount(o.account), o);
        FilterCount(os, OfAccount(o.account), o);
      }
    }
  }

  /** Taking sealed orders out commutes with re-dealing. */
  lemma {:induction false} DealWithout(os: seq<Order>, full: seq<Order>, gone: set<Order>)
    requires AllSealed(gone)
    ensures Without(DealPrefix(os, full), gone) == DealPrefix(Without(os, gone), Without(full, gone))
  {
    if os == [] {
    } else {
      var n := |os| - 1;
      var before, o := os[..n], os[n];
      DealWithout(before, full, gone);
      FilterSnoc(os, n, NotIn(gone));
      assert os[..n+1] == os;
      FilterConcat(DealPrefix(before, full), [DealtTo(full, before, o)], NotIn(gone));
      if o !in gone {
        DealtWithout(full, before, gone, o);
        var kept := Without(before, gone);
        assert Without(os, gone) == kept + [o];
        assert (kept + [o])[..|kept|] == kept;
      } else {
        var dealt := Without(DealPrefix(before, full), gone);
        assert dealt + [] == dealt && Without(before, gone) + [] == Without(before, gone);
      }
    }
  }

  lemma DealtWithout(full: seq<Order>, before: seq<Order>, gone: set<Order>, o: Order)
    requires AllSealed(gone) && o !in gone
    ensures DealtTo(full, before, o) == DealtTo(Without(full, gone), Without(before, gone), o)
    ensures DealtTo(full, before, o) !in gone
  {
    var mine := OfAccount(o.account);
    FilterTwice(full, NotIn(gone), mine, mine);
    FilterTwice(before, NotIn(gone), mine, mine);
    if !o.sealed {
      DealtToAccount(full, before, o);
    }
  }

  // ---- the batch is the fitting part of a prefix, cut at the first order that does not fit ----

  function Fits(gas: Gas, lim: Limits): Order -> bool { (o: Order) => gas(o) <= lim.budget }

  lemma {:induction false} WalkIsPrefix(q: seq<Order>, gas: Gas, lim: Limits, n: nat, used: nat, sealed: nat)
    returns (k: nat)
    ensures k <= |q|
    ensures Walk(q, gas, lim, n, used, sealed) == Filter(q[..k], Fits(gas, lim))
    ensures var w := Walk(q, gas, lim, n, used, sealed);
            k < |q| ==> Fits(gas, lim)(q[k])
                        && Full(q[k], gas, lim, n + |w|, used + Total(w, gas), sealed + |Filter(w, IsSealed())|)
  {
    if q == [] {
      k := 0;
    } else if gas(q[0]) > lim.budget {
      k := WalkIsPrefix(q[1..], gas, lim, n, used, sealed);
      assert q[..k+1] == [q[0]] + q[1..][..k];
      k := k + 1;
    } else if Full(q[0], gas, lim, n, used, sealed) {
      k := 0;
    } else {
      k := WalkIsPrefix(q[1..], gas, lim, n + 1, used + gas(q[0]), sealed + (if q[0].sealed then 1 else 0));
      assert q[..k+1] == [q[0]] + q[1..][..k];
      k := k + 1;
    }
  }

  lemma {:induction false} WalkWithin(q: seq<Order>, gas: Gas, lim: Limits, n: nat, used: nat, sealed: nat)
    requires n <= lim.cap && used <= lim.budget && (lim.sealedCap.Some? ==> sealed <= lim.sealedCap.value)
    ensures var w := Walk(q, gas, lim, n, used, sealed);
            && n + |w| <= lim.cap
            && used + Total(w, gas) <= lim.budget
            && (lim.sealedCap.Some? ==> sealed + |Filter(w, IsSealed())| <= lim.sealedCap.value)
  {
    if q == [] {
    } else {
      if gas(q[0]) > lim.budget {
        WalkWithin(q[1..], gas, lim, n, used, sealed);
      } else if !Full(q[0], gas, lim, n, used, sealed) {
        WalkWithin(q[1..], gas, lim, n + 1, used + gas(q[0]), sealed + (if q[0].sealed then 1 else 0));
      }
    }
  }

  /** The count, gas and sealed limits hold of every batch. */
  lemma BatchWithinLimits(os: seq<Order>, gas: Gas, lim: Limits)
    ensures var b := Batch(os, gas, lim);
            && |b| <= lim.cap
            && Total(b, gas) <= lim.budget
            && (lim.sealedCap.Some? ==> |Filter(b, IsSealed())| <= lim.sealedCap.value)
  {
    WalkWithin(Deal(os), gas, lim, 0, 0, 0);
  }

  lemma WalkMembers(q: seq<Order>, gas: Gas, lim: Limits)
    requires Distinct(q)
    ensures Distinct(Walk(q, gas, lim, 0, 0, 0))
    ensures forall o | o in Walk(q, gas, lim, 0, 0, 0) :: o in q
  {
    var k := WalkIsPrefix(q, gas, lim, 0, 0, 0);
    FilterMembers(q[..k], Fits(gas, lim));
    FilterDistinct(q[..k], Fits(gas, lim));
  }

  /** Batch and overflow together are exactly the candidates. */
  lemma CapLosesNothing(os: seq<Order>, gas: Gas, lim: Limits)
    requires Distinct(os)
    ensures multiset(Batch(os, gas, lim) + Overflow(os, gas, lim)) == multiset(os)
  {
    DealPermutes(os);
    PermDistinct(os, Deal(os));
    WalkMembers(Deal(os), gas, lim);
    OverflowCompletes(Deal(os), Batch(os, gas, lim));
  }

  /** An account's older public order rides with its newer one exactly when a round could
      carry it at all: with equal public gas it always does. */
  lemma OlderGoesFirst(os: seq<Order>, gas: Gas, lim: Limits, older: Order, newer: Order)
    requires Distinct(os) && older in os && newer in Batch(os, gas, lim)
    requires !older.sealed && !newer.sealed && older.account == newer.account && older.seqno < newer.seqno
    ensures older in Batch(os, gas, lim) <==> gas(older) <= lim.budget
  {
    var q, mine := Deal(os), OfAccount(newer.account);
    var k := WalkIsPrefix(q, gas, lim, 0, 0, 0);
    FilterMember(q[..k], Fits(gas, lim), older);
    FilterMember(q[..k], Fits(gas, lim), newer);
    DealPermutes(os);
    PermMember(os, q, older);
    assert q == q[..k] + q[k..];
    if older !in q[..k] {
      FilterConcat(q[..k], q[k..], mine);
      FilterMember(q[..k], mine, newer);
      FilterMember(q[k..], mine, older);
      DealInTurn(os, newer.account);
      SortedSplit(Filter(q[..k], mine), Filter(q[k..], mine), newer, older);
    }
  }

  lemma SortedSplit(a: seq<Order>, b: seq<Order>, x: Order, y: Order)
    requires SortedBy(a + b, BySeqno()) && x in a && y in b
    ensures x.seqno <= y.seqno
  {
    var i :| 0 <= i < |a| && a[i] == x;
    var j :| 0 <= j < |b| && b[j] == y;
    assert (a + b)[i] == x && (a + b)[|a| + j] == y;
    assert BySeqno()((a + b)[i], (a + b)[|a| + j]);
  }

  // ---- removing sealed candidates never drops a batched order ----

  lemma {:induction false} WalkKeeps(q: seq<Order>, gone: set<Order>, gas: Gas, lim: Limits, o: Order,
                                     n: nat, used: nat, sealed: nat, n': nat, used': nat, sealed': nat)
    requires n' <= n && used' <= used && sealed' <= sealed
    requires o in Walk(q, gas, lim, n, used, sealed) && o !in gone
    ensures o in Walk(Without(q, gone), gas, lim, n', used', sealed')
  {
    var h, t := q[0], q[1..];
    if gas(h) > lim.budget {
      WalkKeeps(t, gone, gas, lim, o, n, used, sealed, n', used', sealed');
    } else if o != h {
      var s := if h.sealed then 1 else 0;
      if h in gone {
        WalkKeeps(t, gone, gas, lim, o, n + 1, used + gas(h), sealed + s, n', used', sealed');
      } else {
        WalkKeeps(t, gone, gas, lim, o, n + 1, used + gas(h), sealed + s, n' + 1, used' + gas(h), sealed' + s);
      }
    }
  }

  /** The server's cap meets what the planner demands of a capacity policy. */
  lemma CapPolicyIsSafe(gas: Gas, lim: Limits)
    ensures SafePolicy(CapPolicy(gas, lim))
  {
    var fit := CapPolicy(gas, lim);
    forall c: seq<Order> | Distinct(c) ensures BatchesFrom(fit, c) {
      DealPermutes(c);
      PermDistinct(c, Deal(c));
      WalkMembers(Deal(c), gas, lim);
      forall o | o in fit(c) ensures o in c {
        PermMember(c, Deal(c), o);
      }
    }
    forall c: seq<Order>, gone | AllSealed(gone) ensures KeepsBatched(fit, c, gone) {
      DealWithout(c, c, gone);
      forall o | o in fit(c) && o !in gone ensures o in fit(Without(c, gone)) {
        WalkKeeps(Deal(c), gone, gas, lim, o, 0, 0, 0, 0, 0, 0);
      }
    }
  }

  // ---- a public order waits only behind a full batch ----

  /** The batch has reached one of its limits: for some candidate `x` there was no room left. */
  ghost predicate Saturated(batch: seq<Order>, gas: Gas, lim: Limits, x: Order) {
    gas(x) <= lim.budget && Full(x, gas, lim, |batch|, Total(batch, gas), |Filter(batch, IsSealed())|)
  }

  lemma SaturatedPerm(a: seq<Order>, b: seq<Order>, gas: Gas, lim: Limits, x: Order)
    requires multiset(a) == multiset(b) && Saturated(a, gas, lim, x)
    ensures Saturated(b, gas, lim, x)
  {
    PermSize(a, b);
    TotalPerm(a, b, gas);
    FilterPerm(a, b, IsSealed());
    PermSize(Filter(a, IsSealed()), Filter(b, IsSealed()));
  }

  /** The order the walk stopped at: it was itself left out, and nothing ahead of it was but
      what no round could carry. */
  lemma LeftOutMeansFull(c: seq<Order>, gas: Gas, lim: Limits, o: Order) returns (x: Order)
    requires Distinct(c) && o in c && gas(o) <= lim.budget && o !in Batch(c, gas, lim)
    ensures x in c && x !in Batch(c, gas, lim) && Saturated(Batch(c, gas, lim), gas, lim, x)
  {
    var q := Deal(c);
    var k := WalkIsPrefix(q, gas, lim, 0, 0, 0);
    DealPermutes(c);
    PermMember(c, q, o);
    FilterMember(q[..k], Fits(gas, lim), o);
    assert q == q[..k] + q[k..];
    x := q[k];
    PermMember(c, q, x);
    PermDistinct(c, q);
    FilterMember(q[..k], Fits(gas, lim), x);
  }

  /** With nothing stuck, what the plan shows and its public orders are exactly the batch. */
  lemma UnstuckIsWholeBatch(pending: seq<Order>, resting: seq<Order>, fit: Policy, now: int, crossing: set<Order>)
    requires Distinct(pending) && SafePolicy(fit)
    requires Stuck(Refill(pending, resting, fit, now, crossing)) == []
    ensures var plan := Refill(pending, resting, fit, now, crossing);
            multiset(plan.shown + plan.public) == multiset(Batched(pending, fit, crossing))
  {
    var plan, batch := Refill(pending, resting, fit, now, crossing), Batched(pending, fit, crossing);
    forall o
      ensures o in plan.shown + plan.public <==> o in batch
      ensures !(o in plan.shown && o in plan.public)
    {
      RefillMember(pending, resting, fit, now, crossing, o);
      BatchedMember(pending, fit, crossing, o);
    }
    BatchedDistinct(pending, fit, crossing);
    PlanRoundDistinct(batch, resting, now, AllReady());
    DistinctConcat(plan.shown, plan.public);
    DistinctPerm(plan.shown + plan.public, batch);
  }

  /** A public order that a round could carry waits only because the final batch has no room
      for some order `x` that it leaves out. `x` is public, or a sealed order that is ready and
      has a counterparty, and so is everything in the batch: a hidden or deferred sealed order
      neither fills the batch nor stands in its way. */
  lemma NoStarvation(pending: seq<Order>, resting: seq<Order>, gas: Gas, lim: Limits, now: int, ready: Ready, o: Order)
    returns (x: Order)
    requires Distinct(pending) && o in pending && !o.sealed && gas(o) <= lim.budget
    requires o in PlanBatch(pending, resting, CapPolicy(gas, lim), now, ready).overflow
    ensures var b := PlanBatch(pending, resting, CapPolicy(gas, lim), now, ready);
            var full := PlanRound(pending, resting, now, ready);
            && x in pending && (x.sealed ==> x in full.shown)
            && x !in b.shown + b.public && Saturated(b.shown + b.public, gas, lim, x)
            && (forall s | s in b.shown :: s in full.shown && HasMatch(s, resting + b.public + b.shown))
            && (forall s | s in b.public :: s in pending && !s.sealed)
    ensures var full, all := PlanRound(pending, resting, now, ready), Liquidity(pending, resting, ready);
            forall s | s in full.shown :: ready(s) && HasMatch(s, all)
  {
    var fit := CapPolicy(gas, lim);
    var b, full := PlanBatch(pending, resting, fit, now, ready), PlanRound(pending, resting, now, ready);
    CapPolicyIsSafe(gas, lim);
    var last := PlanBatchSettles(pending, resting, fit, now, ready);
    var cands := Filter(pending, Candidate(last));
    FilterMember(pending, NotIn(Placed(PlanPasses(pending, resting, fit, now, ready), full.deferred)), o);
    RefillMember(pending, resting, fit, now, last, o);
    FilterMember(pending, Candidate(last), o);
    FilterDistinct(pending, Candidate(last));
    x := LeftOutMeansFull(cands, gas, lim, o);
    FilterMember(pending, Candidate(last), x);
    UnstuckIsWholeBatch(pending, resting, fit, now, last);
    SaturatedPerm(Batch(cands, gas, lim), b.shown + b.public, gas, lim, x);
    PermMember(Batch(cands, gas, lim), b.shown + b.public, x);
    forall s
      ensures s in b.shown ==> s in full.shown && HasMatch(s, resting + b.public + b.shown)
      ensures s in b.public ==> s in pending && !s.sealed
      ensures s in full.shown ==> ready(s) && HasMatch(s, Liquidity(pending, resting, ready))
    {
      PlanRoundMember(pending, resting, now, ready, s);
      RefillMember(pending, resting, fit, now, last, s);
      BatchedMember(pending, fit, last, s);
      if s in b.shown {
        BatchShownHasCounterparty(pending, resting, fit, now, ready, s);
      }
    }
  }
}

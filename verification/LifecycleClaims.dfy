/** A released round that turns out to have landed takes its orders back, and one that turns
    out not to have landed gives them up. */
module LifecycleClaims {
  import opened Sequences
  import opened Orders
  import opened Lifecycle
  import opened LifecycleInvariants
  import opened LifecycleReceipts

  // ---- small facts ----

  lemma {:induction false} FilterKeys(q: seq<Order>, ks: set<Key>)
    requires DistinctKeys(q)
    ensures KeySet(Filter(q, FreeOf(ks))) == KeySet(q) - ks && DistinctKeys(Filter(q, FreeOf(ks)))
  {
    FilterKeySet(q, ks);
    if q == [] {
    } else {
      FilterKeys(q[1..], ks);
      FilterKeySet(q[1..], ks);
      if KeyOf(q[0]) !in ks {
        forall o | o in q[1..] ensures KeyOf(o) != KeyOf(q[0]) {
          var i :| 0 <= i < |q[1..]| && q[1..][i] == o;
          assert o == q[i + 1];
        }
        assert KeySet([q[0]]) == {KeyOf(q[0])};
        DistinctKeysConcat([q[0]], Filter(q[1..], FreeOf(ks)));
      }
    }
  }

  lemma FilterKeySet(q: seq<Order>, ks: set<Key>)
    ensures KeySet(Filter(q, FreeOf(ks))) == KeySet(q) - ks
  {
    FilterMembers(q, FreeOf(ks));
  }

  lemma FilterKnown(accepted: map<Key, Order>, q: seq<Order>, p: Order -> bool)
    requires AllKnown(accepted, q)
    ensures AllKnown(accepted, Filter(q, p))
  {
    FilterMembers(q, p);
  }

  // ---- what a claim changes on the records ----

  ghost predicate SameRound(r: Record, r': Record) {
    r'.rid == r.rid && r'.sealed == r.sealed && r'.public == r.public && r'.fills == r.fills
  }

  /** `r'` is `r` with the orders it shares with round `q` noted as held by `q`. */
  ghost predicate Marks(r: Record, r': Record, q: RoundId) {
    && SameRound(r, r')
    && r'.claimed.Keys == r.claimed.Keys + r.rid.keys * q.keys
    && (forall k | k in r'.claimed :: r'.claimed[k] == if k in r.rid.keys * q.keys then q else r.claimed[k])
  }

  ghost predicate Claims(f: Option<Record>, zs: seq<Record>, f': Option<Record>, zs': seq<Record>, i: nat) {
    && i < |zs| == |zs'| && !zs[i].Sighted()
    && (f.Some? <==> f'.Some?) && (f.Some? ==> Marks(f.value, f'.value, zs[i].rid))
    && (forall j | 0 <= j < |zs| && j != i :: Marks(zs[j], zs'[j], zs[i].rid) && zs'[j].okSince == zs[j].okSince)
    && SameRound(zs[i], zs'[i]) && zs'[i].claimed == zs[i].claimed && zs'[i].Sighted()
  }

  lemma ClaimShape(s: State, i: nat, t: int)
    requires i < |s.zombies| && !s.zombies[i].Sighted()
    ensures var s' := Claim(Sight(s, i, Some(t)), i);
            && Claims(s.inflight, s.zombies, s'.inflight, s'.zombies, i)
            && s' == s.(pending := Filter(s.pending, FreeOf(s.zombies[i].rid.keys)),
                        inflight := s'.inflight, zombies := s'.zombies)
  {
  }

  // ---- a claim keeps the invariant ----

  /** Released round `i`, unsighted so far, reads as landed; the sighted ones read as landed
      too, or are about to be un-sighted. */
  ghost predicate Surfacing(zs: seq<Record>, c: Ctx, i: nat, landed: set<RoundId>) {
    && Live(zs, c.gone, i) && !zs[i].Sighted() && zs[i].rid in landed
    && c.stale <= c.prior && c.stale !! landed
    && (zs[i].rid in c.prior ==> zs[i].rid.keys == {})
    && (forall j | Holds(zs, c.gone, j) :: zs[j].rid in landed || zs[j].rid in c.stale)
    && Consistent(landed)
  }

  lemma SameLive(zs: seq<Record>, zs': seq<Record>, gone: set<nat>, i: nat, f: Option<Record>, f': Option<Record>)
    requires Claims(f, zs, f', zs', i)
    ensures forall j :: Live(zs', gone, j) <==> Live(zs, gone, j)
    ensures forall j | j != i :: Holds(zs', gone, j) <==> Holds(zs, gone, j)
    ensures forall j | Live(zs', gone, j) :: zs'[j].rid == zs[j].rid
  {
  }

  lemma MarksOk(accepted: map<Key, Order>, retry: set<Key>, r: Record, r': Record, q: RoundId)
    requires Marks(r, r', q) && RecordOk(accepted, retry, r)
    ensures RecordOk(accepted, retry, r')
  {
    assert r'.Orders() == r.Orders();
  }

  lemma ClaimRecordsOk(f: Option<Record>, zs: seq<Record>, f': Option<Record>, zs': seq<Record>, i: nat, gone: set<nat>,
                       accepted: map<Key, Order>, retry: set<Key>)
    requires Claims(f, zs, f', zs', i) && RecordsOk(accepted, retry, f, zs, gone)
    ensures RecordsOk(accepted, retry, f', zs', gone)
  {
    if f.Some? {
      MarksOk(accepted, retry, f.value, f'.value, zs[i].rid);
    }
    forall j | Live(zs', gone, j) ensures RecordOk(accepted, retry, zs'[j]) {
      assert Live(zs, gone, j);
      if j != i {
        MarksOk(accepted, retry, zs[j], zs'[j], zs[i].rid);
      } else {
        assert zs'[i].Orders() == zs[i].Orders();
      }
    }
  }

  lemma ClaimHeldOnce(f: Option<Record>, zs: seq<Record>, f': Option<Record>, zs': seq<Record>, i: nat, c: Ctx,
                      landed: set<RoundId>)
    requires Claims(f, zs, f', zs', i) && Surfacing(zs, c, i, landed) && HeldOnce(zs, c.gone, c.prior, c.stale)
    ensures HeldOnce(zs', c.gone, c.prior, c.stale)
  {
    SameLive(zs, zs', c.gone, i, f, f');
  }

  lemma ClaimNotedOn(r: Record, r': Record, f: Option<Record>, zs: seq<Record>, f': Option<Record>, zs': seq<Record>,
                     i: nat, c: Ctx, landed: set<RoundId>)
    requires Claims(f, zs, f', zs', i) && Surfacing(zs, c, i, landed)
    requires NotedOn(r, zs, c.gone, c.stale) && Marks(r, r', zs[i].rid)
    ensures NotedOn(r', zs', c.gone, c.stale)
  {
    SameLive(zs, zs', c.gone, i, f, f');
  }

  lemma ClaimNoted(f: Option<Record>, zs: seq<Record>, f': Option<Record>, zs': seq<Record>, i: nat, c: Ctx,
                   landed: set<RoundId>)
    requires Claims(f, zs, f', zs', i) && Surfacing(zs, c, i, landed) && Noted(f, zs, c.gone, c.stale)
             && RidsApart(f, zs)
    ensures Noted(f', zs', c.gone, c.stale)
  {
    SameLive(zs, zs', c.gone, i, f, f');
    if f.Some? {
      ClaimNotedOn(f.value, f'.value, f, zs, f', zs', i, c, landed);
    }
    forall j | Live(zs', c.gone, j) ensures NotedOn(zs'[j], zs', c.gone, c.stale) {
      if j != i {
        ClaimNotedOn(zs[j], zs'[j], f, zs, f', zs', i, c, landed);
      } else {
        assert NotedOn(zs[i], zs, c.gone, c.stale);
      }
    }
  }

  lemma ClaimHolder(f: Option<Record>, zs: seq<Record>, f': Option<Record>, zs': seq<Record>, i: nat, gone: set<nat>,
                    r: RoundId, k: Key)
    requires Claims(f, zs, f', zs', i) && Live(zs, gone, i)
    ensures Holder(zs, gone, r, k) ==> Holder(zs', gone, r, k)
    ensures k in zs[i].rid.keys ==> Holder(zs', gone, zs[i].rid, k)
  {
    SameLive(zs, zs', gone, i, f, f');
    assert Holds(zs', gone, i);
    if Holder(zs, gone, r, k) {
      var j :| Holds(zs, gone, j) && zs[j].rid == r;
      assert Holds(zs', gone, j);
    }
  }

  lemma ClaimBackedOn(r: Record, r': Record, f: Option<Record>, zs: seq<Record>, f': Option<Record>, zs': seq<Record>,
                      i: nat, gone: set<nat>, fin: set<Key>)
    requires Claims(f, zs, f', zs', i) && Live(zs, gone, i) && BackedOn(r, zs, gone, fin)
    requires Marks(r, r', zs[i].rid) && (r.rid == zs[i].rid ==> r.rid.keys == {})
    ensures BackedOn(r', zs', gone, fin)
  {
    forall k | k in r'.claimed
      ensures r'.claimed[k] != r'.rid && k in r'.claimed[k].keys && (k in fin || Holder(zs', gone, r'.claimed[k], k))
    {
      ClaimHolder(f, zs, f', zs', i, gone, r'.claimed[k], k);
    }
  }

  lemma ClaimBacked(f: Option<Record>, zs: seq<Record>, f': Option<Record>, zs': seq<Record>, i: nat, gone: set<nat>,
                    fin: set<Key>)
    requires Claims(f, zs, f', zs', i) && Live(zs, gone, i) && Backed(f, zs, gone, fin) && RidsApart(f, zs)
    ensures Backed(f', zs', gone, fin)
  {
    if f.Some? {
      ClaimBackedOn(f.value, f'.value, f, zs, f', zs', i, gone, fin);
    }
    forall j | Live(zs', gone, j) ensures BackedOn(zs'[j], zs', gone, fin) {
      assert Live(zs, gone, j);
      if j != i {
        ClaimBackedOn(zs[j], zs'[j], f, zs, f', zs', i, gone, fin);
      } else {
        forall k | k in zs[i].claimed ensures k in fin || Holder(zs', gone, zs[i].claimed[k], k) {
          ClaimHolder(f, zs, f', zs', i, gone, zs[i].claimed[k], k);
        }
      }
    }
  }

  /** A round that just landed carries no settled order. */
  lemma SurfacingUnsettled(s: State, c: Ctx, i: nat, landed: set<RoundId>)
    requires Surfacing(s.zombies, c, i, landed) && Durable(landed, s.log) && Logged(s, c.fin, c.gone)
             && c.fin == Fin(s.log)
    ensures s.zombies[i].rid.keys !! c.fin
  {
    forall rc | rc in s.log ensures rc.key !in s.zombies[i].rid.keys {
      assert s.zombies[i].rid != rc.rid;
    }
  }

  lemma ClaimRounds(s: State, s': State, c: Ctx, i: nat, landed: set<RoundId>)
    requires Rounds(s, c) && Surfacing(s.zombies, c, i, landed) && s.zombies[i].rid.keys !! c.fin
    requires Claims(s.inflight, s.zombies, s'.inflight, s'.zombies, i)
    requires KeySet(s'.pending) == KeySet(s.pending) - s.zombies[i].rid.keys && s'.retry == s.retry
             && s'.accepted == s.accepted
    ensures Rounds(s', c)
  {
    var f, zs, f', zs' := s.inflight, s.zombies, s'.inflight, s'.zombies;
    SameLive(zs, zs', c.gone, i, f, f');
    ClaimRecordsOk(f, zs, f', zs', i, c.gone, s.accepted, KeySet(s.retry));
    ClaimHeldOnce(f, zs, f', zs', i, c, landed);
    ClaimNoted(f, zs, f', zs', i, c, landed);
    ClaimBacked(f, zs, f', zs', i, c.gone, c.fin);
    assert Apart(KeySet(s'.pending), f', zs', c.gone);
    assert Finals(c.fin, f', zs', c.gone);
  }

  lemma ClaimCustody(s: State, s': State, gone: set<nat>, i: nat, k: Key)
    requires Live(s.zombies, gone, i) && InCustody(k, s, gone)
    requires Claims(s.inflight, s.zombies, s'.inflight, s'.zombies, i)
    requires KeySet(s'.pending) == KeySet(s.pending) - s.zombies[i].rid.keys && s'.retry == s.retry
    ensures InCustody(k, s', gone)
  {
    SameLive(s.zombies, s'.zombies, gone, i, s.inflight, s'.inflight);
    assert Holds(s'.zombies, gone, i);
    if exists j :: Holds(s.zombies, gone, j) && k in s.zombies[j].rid.keys {
      var j :| Holds(s.zombies, gone, j) && k in s.zombies[j].rid.keys;
      assert Holds(s'.zombies, gone, j);
    }
  }

  lemma SameBooks(s: State, s': State)
    requires Books(s) && s'.accepted == s.accepted && s'.log == s.log && s'.tip == s.tip && s'.placed == s.placed
    requires s'.nextOid == s.nextOid && s'.nextCommit == s.nextCommit
    ensures Books(s')
  {
    forall x | x in s.placed ensures ConservedAt(s', x) {
      assert ConservedAt(s, x);
    }
  }

  /** The orders of a round that turns out to have landed leave the queue; no one else claims them. */
  lemma ClaimKeeps(s: State, c: Ctx, i: nat, t: int, landed: set<RoundId>)
    requires Core(s, c) && Surfacing(s.zombies, c, i, landed) && Durable(landed, s.log) && c.fin == Fin(s.log)
    ensures Core(Claim(Sight(s, i, Some(t)), i), c)
  {
    var s' := Claim(Sight(s, i, Some(t)), i);
    ClaimShape(s, i, t);
    FilterKeys(s.pending, s.zombies[i].rid.keys);
    FilterKnown(s.accepted, s.pending, FreeOf(s.zombies[i].rid.keys));
    SurfacingUnsettled(s, c, i, landed);
    ClaimRounds(s, s', c, i, landed);
    SameBooks(s, s');
    SameLive(s.zombies, s'.zombies, c.gone, i, s.inflight, s'.inflight);
    forall k | k in s'.accepted && k !in s'.ended
      ensures k in c.held || k in c.fin - Fin(s'.log) || InCustody(k, s', c.gone)
    {
      if InCustody(k, s, c.gone) {
        ClaimCustody(s, s', c.gone, i, k);
      }
    }
  }

  // ---- giving the orders back ----

  /** `r'` is `r` without the claims of round `q`. */
  ghost predicate Drops(r: Record, r': Record, q: RoundId) {
    && SameRound(r, r')
    && (forall k :: k in r'.claimed <==> k in r.claimed && r.claimed[k] != q)
    && (forall k | k in r'.claimed :: r'.claimed[k] == r.claimed[k])
  }

  ghost predicate Unclaims(f: Option<Record>, zs: seq<Record>, f': Option<Record>, zs': seq<Record>, i: nat) {
    && i < |zs| == |zs'| && zs[i].Sighted()
    && (f.Some? <==> f'.Some?) && (f.Some? ==> Drops(f.value, f'.value, zs[i].rid))
    && (forall j | 0 <= j < |zs| && j != i :: Drops(zs[j], zs'[j], zs[i].rid) && zs'[j].okSince == zs[j].okSince)
    && SameRound(zs[i], zs'[i]) && zs'[i].claimed == zs[i].claimed && !zs'[i].Sighted()
  }

  lemma SightedKeysAgree(zs: seq<Record>, zs': seq<Record>, i: nat)
    requires |zs'| == |zs|
    requires forall j | 0 <= j < |zs| && j != i :: zs'[j].rid == zs[j].rid && zs'[j].okSince == zs[j].okSince
    ensures SightedKeys(zs', i) == SightedKeys(zs, i)
  {
    forall k | k in SightedKeys(zs, i) ensures k in SightedKeys(zs', i) {
      var j :| 0 <= j < |zs| && j != i && zs[j].Sighted() && k in zs[j].rid.keys;
      assert zs'[j].Sighted();
    }
    forall k | k in SightedKeys(zs', i) ensures k in SightedKeys(zs, i) {
      var j :| 0 <= j < |zs| && j != i && zs'[j].Sighted() && k in zs'[j].rid.keys;
      assert zs[j].Sighted();
    }
  }

  lemma UnclaimShape(s: State, i: nat)
    requires i < |s.zombies| && s.zombies[i].Sighted()
    ensures var s' := Unclaim(Sight(s, i, None), i);
            && Unclaims(s.inflight, s.zombies, s'.inflight, s'.zombies, i)
            && s' == s.(pending := Filter(s.zombies[i].Orders(), FreeOf(Busy(s, i))) + s.pending,
                        inflight := s'.inflight, zombies := s'.zombies)
  {
    SightedKeysAgree(s.zombies, Sight(s, i, None).zombies, i);
  }

  lemma DropsOk(accepted: map<Key, Order>, retry: set<Key>, r: Record, r': Record, q: RoundId)
    requires Drops(r, r', q) && RecordOk(accepted, retry, r)
    ensures RecordOk(accepted, retry, r')
  {
    assert r'.Orders() == r.Orders();
  }

  /** Released round `i` was sighted but reads as landed no more; rounds dropped in this sweep
      while sighted are settled. */
  ghost predicate Sinking(zs: seq<Record>, c: Ctx, i: nat) {
    && Holds(zs, c.gone, i) && zs[i].rid in c.stale && c.stale <= c.prior
    && (forall j | 0 <= j < |zs| && j in c.gone && zs[j].Sighted() :: zs[j].rid.keys <= c.fin)
  }

  lemma UnclaimLive(zs: seq<Record>, zs': seq<Record>, gone: set<nat>, i: nat, f: Option<Record>, f': Option<Record>)
    requires Unclaims(f, zs, f', zs', i)
    ensures forall j :: Live(zs', gone, j) <==> Live(zs, gone, j)
    ensures forall j :: Holds(zs', gone, j) <==> Holds(zs, gone, j) && j != i
    ensures forall j | Live(zs', gone, j) :: zs'[j].rid == zs[j].rid
  {
  }

  lemma UnclaimRecordsOk(f: Option<Record>, zs: seq<Record>, f': Option<Record>, zs': seq<Record>, i: nat,
                         gone: set<nat>, accepted: map<Key, Order>, retry: set<Key>)
    requires Unclaims(f, zs, f', zs', i) && RecordsOk(accepted, retry, f, zs, gone)
    ensures RecordsOk(accepted, retry, f', zs', gone)
  {
    if f.Some? {
      DropsOk(accepted, retry, f.value, f'.value, zs[i].rid);
    }
    forall j | Live(zs', gone, j) ensures RecordOk(accepted, retry, zs'[j]) {
      assert Live(zs, gone, j);
      if j != i {
        DropsOk(accepted, retry, zs[j], zs'[j], zs[i].rid);
      } else {
        assert zs'[i].Orders() == zs[i].Orders();
      }
    }
  }

  lemma UnclaimNoted(f: Option<Record>, zs: seq<Record>, f': Option<Record>, zs': seq<Record>, i: nat, gone: set<nat>,
                     stale: set<RoundId>)
    requires Unclaims(f, zs, f', zs', i) && zs[i].rid in stale && Noted(f, zs, gone, stale)
    ensures Noted(f', zs', gone, stale)
  {
    UnclaimLive(zs, zs', gone, i, f, f');
    if f.Some? {
      assert NotedOn(f.value, zs, gone, stale);
    }
    forall j | Live(zs', gone, j) ensures NotedOn(zs'[j], zs', gone, stale) {
      assert NotedOn(zs[j], zs, gone, stale);
    }
  }

  lemma UnclaimBackedOn(r: Record, r': Record, f: Option<Record>, zs: seq<Record>, f': Option<Record>, zs': seq<Record>,
                        i: nat, gone: set<nat>, fin: set<Key>)
    requires Unclaims(f, zs, f', zs', i) && BackedOn(r, zs, gone, fin) && SameRound(r, r')
    requires forall k | k in r'.claimed :: k in r.claimed && r'.claimed[k] == r.claimed[k] != zs[i].rid
    ensures BackedOn(r', zs', gone, fin)
  {
    UnclaimLive(zs, zs', gone, i, f, f');
    forall k | k in r'.claimed && k !in fin ensures Holder(zs', gone, r'.claimed[k], k) {
      var j :| Holds(zs, gone, j) && zs[j].rid == r.claimed[k];
      assert Holds(zs', gone, j);
    }
  }

  lemma UnclaimBacked(f: Option<Record>, zs: seq<Record>, f': Option<Record>, zs': seq<Record>, i: nat, gone: set<nat>,
                      fin: set<Key>)
    requires Unclaims(f, zs, f', zs', i) && Backed(f, zs, gone, fin)
    ensures Backed(f', zs', gone, fin)
  {
    if f.Some? {
      UnclaimBackedOn(f.value, f'.value, f, zs, f', zs', i, gone, fin);
    }
    forall j | Live(zs', gone, j) ensures BackedOn(zs'[j], zs', gone, fin) {
      assert Live(zs, gone, j) && BackedOn(zs[j], zs, gone, fin);
      UnclaimBackedOn(zs[j], zs'[j], f, zs, f', zs', i, gone, fin);
    }
  }

  /** The round in flight keeps the note of every settled order. */
  lemma UnclaimFinals(f: Option<Record>, zs: seq<Record>, f': Option<Record>, zs': seq<Record>, i: nat, gone: set<nat>,
                      fin: set<Key>)
    requires Unclaims(f, zs, f', zs', i) && Holds(zs, gone, i) && Finals(fin, f, zs, gone) && Backed(f, zs, gone, fin)
    ensures Finals(fin, f', zs', gone)
  {
    UnclaimLive(zs, zs', gone, i, f, f');
    if f.Some? {
      assert BackedOn(f.value, zs, gone, fin);
      forall k | k in f.value.rid.keys * fin ensures k in f'.value.claimed {
        assert k !in zs[i].rid.keys && k in f.value.claimed;
      }
    }
  }

  lemma UnclaimRounds(s: State, s': State, c: Ctx, i: nat)
    requires Rounds(s, c) && Sinking(s.zombies, c, i)
    requires Unclaims(s.inflight, s.zombies, s'.inflight, s'.zombies, i)
    requires KeySet(s'.pending) == (s.zombies[i].rid.keys - Busy(s, i)) + KeySet(s.pending)
    requires s'.retry == s.retry && s'.accepted == s.accepted
    ensures Rounds(s', c)
  {
    var f, zs, f', zs' := s.inflight, s.zombies, s'.inflight, s'.zombies;
    UnclaimLive(zs, zs', c.gone, i, f, f');
    UnclaimRecordsOk(f, zs, f', zs', i, c.gone, s.accepted, KeySet(s.retry));
    UnclaimNoted(f, zs, f', zs', i, c.gone, c.stale);
    UnclaimBacked(f, zs, f', zs', i, c.gone, c.fin);
    UnclaimFinals(f, zs, f', zs', i, c.gone, c.fin);
    assert HeldOnce(zs', c.gone, c.prior, c.stale);
    forall j | Holds(zs', c.gone, j) ensures zs'[j].rid.keys !! KeySet(s'.pending) {
      assert zs[j].rid.keys <= SightedKeys(zs, i);
    }
  }

  lemma UnclaimCustody(s: State, s': State, c: Ctx, i: nat, k: Key)
    requires Sinking(s.zombies, c, i) && InCustody(k, s, c.gone) && Rounds(s, c)
    requires Unclaims(s.inflight, s.zombies, s'.inflight, s'.zombies, i)
    requires KeySet(s'.pending) == (s.zombies[i].rid.keys - Busy(s, i)) + KeySet(s.pending) && s'.retry == s.retry
    ensures InCustody(k, s', c.gone)
  {
    UnclaimLive(s.zombies, s'.zombies, c.gone, i, s.inflight, s'.inflight);
    if j :| Holds(s.zombies, c.gone, j) && k in s.zombies[j].rid.keys && j != i {
      assert Holds(s'.zombies, c.gone, j);
    } else if k in s.zombies[i].rid.keys {
      UnclaimedReturns(s, s', c, i, k);
    }
  }

  /** An order of the un-sighted round that no other sighted round holds is queued again or in flight. */
  lemma UnclaimedReturns(s: State, s': State, c: Ctx, i: nat, k: Key)
    requires Sinking(s.zombies, c, i) && Rounds(s, c) && k in s.zombies[i].rid.keys
    requires forall j | Holds(s.zombies, c.gone, j) && j != i :: k !in s.zombies[j].rid.keys
    requires Unclaims(s.inflight, s.zombies, s'.inflight, s'.zombies, i)
    requires KeySet(s'.pending) == (s.zombies[i].rid.keys - Busy(s, i)) + KeySet(s.pending)
    ensures k in KeySet(s'.pending)
            || (s'.inflight.Some? && k in s'.inflight.value.rid.keys && k !in s'.inflight.value.claimed)
  {
    assert k !in c.fin;
    assert k !in SightedKeys(s.zombies, i);
    if s.inflight.Some? && k in s.inflight.value.rid.keys {
      assert BackedOn(s.inflight.value, s.zombies, c.gone, c.fin);
    }
  }

  lemma UnclaimQueues(s: State, s': State, c: Ctx, i: nat)
    requires Queues(s, c.fin) && Rounds(s, c) && Sinking(s.zombies, c, i)
    requires s' == s.(pending := Filter(s.zombies[i].Orders(), FreeOf(Busy(s, i))) + s.pending,
                      inflight := s'.inflight, zombies := s'.zombies)
    ensures Queues(s', c.fin)
    ensures KeySet(s'.pending) == (s.zombies[i].rid.keys - Busy(s, i)) + KeySet(s.pending)
  {
    var z, back := s.zombies[i], Filter(s.zombies[i].Orders(), FreeOf(Busy(s, i)));
    assert RecordOk(s.accepted, KeySet(s.retry), z);
    FilterKeys(z.Orders(), Busy(s, i));
    FilterKnown(s.accepted, z.Orders(), FreeOf(Busy(s, i)));
    DistinctKeysConcat(back, s.pending);
    KeySetConcat(back, s.pending);
    assert forall x :: x in back + s.pending <==> x in back || x in s.pending;
  }

  /** A round that landed no more gives its orders back, unless another round holds them. */
  lemma UnclaimKeeps(s: State, c: Ctx, i: nat)
    requires Core(s, c) && Sinking(s.zombies, c, i)
    ensures Core(Unclaim(Sight(s, i, None), i), c)
  {
    var s' := Unclaim(Sight(s, i, None), i);
    UnclaimShape(s, i);
    UnclaimQueues(s, s', c, i);
    UnclaimRounds(s, s', c, i);
    SameBooks(s, s');
    UnclaimLive(s.zombies, s'.zombies, c.gone, i, s.inflight, s'.inflight);
    forall k | k in s'.accepted && k !in s'.ended
      ensures k in c.held || k in c.fin - Fin(s'.log) || InCustody(k, s', c.gone)
    {
      if InCustody(k, s, c.gone) {
        UnclaimCustody(s, s', c, i, k);
      }
    }
  }

  // ---- claiming and giving back, as a pair ----

  /** A claim taken back at once: the queue is restored exactly when the orders of the round that
      are not in flight or held by another sighted round are those that were queued. The orders
      queued or in flight are restored exactly when each order of the round was queued, in flight
      or held by another sighted round, and none was both queued and held by one. */
  lemma ClaimUndoneQueue(s: State, i: nat, t: int)
    requires i < |s.zombies| && !s.zombies[i].Sighted() && s.zombies[i].rid.keys == KeySet(s.zombies[i].Orders())
    ensures var s' := Unclaim(Sight(Claim(Sight(s, i, Some(t)), i), i, None), i);
            var k, p := s.zombies[i].rid.keys, KeySet(s.pending);
            var f, h := InflightKeys(s.inflight), SightedKeys(s.zombies, i);
            && (KeySet(s'.pending) == p <==> k - f - h == k * p)
            && (KeySet(s'.pending) + f == p + f <==> k - h <= p + f && p * k * h <= f)
  {
    var s1 := Claim(Sight(s, i, Some(t)), i);
    var z, k, p := s.zombies[i], s.zombies[i].rid.keys, KeySet(s.pending);
    ClaimShape(s, i, t);
    UnclaimShape(s1, i);
    FilterKeySet(s.pending, k);
    assert s1.zombies[i].Orders() == z.Orders();
    FilterKeySet(z.Orders(), Busy(s1, i));
    KeySetConcat(Filter(z.Orders(), FreeOf(Busy(s1, i))), s1.pending);
    SightedKeysAgree(s.zombies, s1.zombies, i);
    var back := k - InflightKeys(s.inflight) - SightedKeys(s.zombies, i);
    assert k - Busy(s1, i) == back;
    UndoSets(k, p, InflightKeys(s.inflight), SightedKeys(s.zombies, i));
  }

  lemma UndoSets(k: set<Key>, p: set<Key>, f: set<Key>, h: set<Key>)
    ensures var q := (k - f - h) + (p - k);
            (q == p <==> k - f - h == k * p) && (q + f == p + f <==> k - h <= p + f && p * k * h <= f)
  {
    var q := (k - f - h) + (p - k);
    assert q * k == k - f - h;
    assert forall x :: x in q + f <==> (x in k && x !in h) || (x in p && x !in k) || x in f;
    if q + f == p + f {
      assert forall x | x in k && x !in h :: x in q + f;
      assert forall x | x in p && x in k && x in h :: x in q + f;
    }
  }

  /** No record is left claimed by the round, and no round's own orders changed. */
  lemma ClaimUndoneClean(s: State, i: nat, t: int)
    requires i < |s.zombies| && !s.zombies[i].Sighted()
    ensures var s' := Unclaim(Sight(Claim(Sight(s, i, Some(t)), i), i, None), i);
            && |s'.zombies| == |s.zombies|
            && (s'.inflight.Some? <==> s.inflight.Some?)
            && (s.inflight.Some? ==> SameRound(s.inflight.value, s'.inflight.value))
            && (forall k | s.inflight.Some? && k in s'.inflight.value.claimed ::
                s'.inflight.value.claimed[k] != s.zombies[i].rid)
            && (forall j | 0 <= j < |s.zombies| :: SameRound(s.zombies[j], s'.zombies[j]))
            && (forall j, k | 0 <= j < |s.zombies| && j != i && k in s'.zombies[j].claimed ::
                  s'.zombies[j].claimed[k] != s.zombies[i].rid)
  {
    ClaimShape(s, i, t);
    UnclaimShape(Claim(Sight(s, i, Some(t)), i), i);
  }

  /** In a reachable state, a round none of whose orders has ended undoes its claim cleanly. */
  lemma ClaimUndoneWhenLive(s: State, i: nat, t: int)
    requires Inv(s, {}) && i < |s.zombies| && !s.zombies[i].Sighted() && s.zombies[i].rid.keys !! s.ended
    ensures var s' := Unclaim(Sight(Claim(Sight(s, i, Some(t)), i), i, None), i);
            var f := InflightKeys(s.inflight);
            KeySet(s'.pending) + f == KeySet(s.pending) + f
  {
    var k, p, f, h := s.zombies[i].rid.keys, KeySet(s.pending), InflightKeys(s.inflight), SightedKeys(s.zombies, i);
    assert RecordOk(s.accepted, KeySet(s.retry), s.zombies[i]);
    ClaimUndoneQueue(s, i, t);
    forall x | x in k ensures x in p + f + h {
      assert InCustody(x, s, {});
      if j :| Holds(s.zombies, {}, j) && x in s.zombies[j].rid.keys {
        assert j != i;
      }
    }
    forall x | x in h ensures x !in p {
      var j :| 0 <= j < |s.zombies| && j != i && s.zombies[j].Sighted() && x in s.zombies[j].rid.keys;
      assert Holds(s.zombies, {}, j);
    }
  }

  /** The record `r` after another round `q` claims its orders and gives them back. */
  lemma ClaimUndoneOn(r: Record, r1: Record, r2: Record, q: RoundId)
    requires r.claimed.Keys <= r.rid.keys && Marks(r, r1, q) && Drops(r1, r2, q)
    ensures SameRound(r, r2)
    ensures r2.claimed == r.claimed <==> (r.claimed.Keys !! q.keys && forall k | k in r.claimed :: r.claimed[k] != q)
  {
    forall k ensures k in r2.claimed <==> k in r.claimed && k !in q.keys && r.claimed[k] != q {}
    if r.claimed.Keys !! q.keys && forall k | k in r.claimed :: r.claimed[k] != q {
      assert r2.claimed.Keys == r.claimed.Keys;
      assert r2.claimed == r.claimed;
    }
  }

  /** The records are restored, sighting time included, exactly where no order shared with the
      round was already noted as claimed. */
  lemma ClaimUndoneRecords(s: State, i: nat, j: nat, t: int)
    requires i < |s.zombies| && j < |s.zombies| && i != j && s.zombies[i].okSince == None
    requires s.zombies[j].claimed.Keys <= s.zombies[j].rid.keys
    ensures var s' := Unclaim(Sight(Claim(Sight(s, i, Some(t)), i), i, None), i);
            && |s'.zombies| == |s.zombies| && s'.zombies[i] == s.zombies[i]
            && SameRound(s.zombies[j], s'.zombies[j]) && s'.zombies[j].okSince == s.zombies[j].okSince
            && (s'.zombies[j].claimed == s.zombies[j].claimed <==>
                  && s.zombies[j].claimed.Keys !! s.zombies[i].rid.keys
                  && forall k | k in s.zombies[j].claimed :: s.zombies[j].claimed[k] != s.zombies[i].rid)
  {
    var s1 := Claim(Sight(s, i, Some(t)), i);
    var s' := Unclaim(Sight(s1, i, None), i);
    ClaimShape(s, i, t);
    UnclaimShape(s1, i);
    ClaimUndoneOn(s.zombies[j], s1.zombies[j], s'.zombies[j], s.zombies[i].rid);
  }
}

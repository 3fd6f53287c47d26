/** The batch cap: how many of the candidate orders one round may carry, without letting an
    account's newer public order overtake its older one. */
module BatchCap {
  import opened Sequences
  import opened Orders
  import opened Planning

  /** `sealedCap` is None when sealed orders have no cap of their own. */
  datatype Limits = Limits(cap: nat, budget: nat, sealedCap: Option<nat>)

  type Gas = Order -> nat

  // ---- re-dealing each account's public orders, lowest seq first ----

  function OfAccount(a: nat): Order -> bool { (o: Order) => !o.sealed && o.account == a }

  function BySeqno(): (Order, Order) -> bool { (x: Order, y: Order) => x.seqno <= y.seqno }

  /** An account's public orders, oldest first. */
  function Turns(os: seq<Order>, a: nat): seq<Order> { Sort(Filter(os, OfAccount(a)), BySeqno()) }

  function Nth(q: seq<Order>, r: nat, default: Order): Order {
    if r < |q| then q[r] else default
  }

  /** What the queue position behind `before`, now held by `o`, is dealt. */
  function DealtTo(full: seq<Order>, before: seq<Order>, o: Order): Order {
    if o.sealed then o else Nth(Turns(full, o.account), |Filter(before, OfAccount(o.account))|, o)
  }

  function DealPrefix(os: seq<Order>, full: seq<Order>): (r: seq<Order>)
    ensures |r| == |os|
  {
    if os == [] then []
    else
      var n := |os| - 1;
      DealPrefix(os[..n], full) + [DealtTo(full, os[..n], os[n])]
  }

  function Deal(os: seq<Order>): seq<Order> { DealPrefix(os, os) }

  // ---- taking the batch ----

  predicate Full(o: Order, gas: Gas, lim: Limits, n: nat, used: nat, sealed: nat) {
    n >= lim.cap || used + gas(o) > lim.budget
    || (o.sealed && lim.sealedCap.Some? && sealed >= lim.sealedCap.value)
  }

  /** The longest admissible prefix, passing over orders no round could ever carry. */
  function Walk(q: seq<Order>, gas: Gas, lim: Limits, n: nat, used: nat, sealed: nat): seq<Order> {
    if q == [] then []
    else if gas(q[0]) > lim.budget then Walk(q[1..], gas, lim, n, used, sealed)
    else if Full(q[0], gas, lim, n, used, sealed) then []
    else [q[0]] + Walk(q[1..], gas, lim, n + 1, used + gas(q[0]), sealed + (if q[0].sealed then 1 else 0))
  }

  function Batch(os: seq<Order>, gas: Gas, lim: Limits): seq<Order> { Walk(Deal(os), gas, lim, 0, 0, 0) }

  function Overflow(os: seq<Order>, gas: Gas, lim: Limits): seq<Order> {
    Filter(Deal(os), NotIn(Members(Batch(os, gas, lim))))
  }

  function CapPolicy(gas: Gas, lim: Limits): Policy { (c: seq<Order>) => Batch(c, gas, lim) }

  // ---- the cap as it runs ----

  /** The queue positions an account's public orders hold. */
  function Slots(os: seq<Order>, a: nat): seq<nat> {
    if os == [] then []
    else
      var n := |os| - 1;
      Slots(os[..n], a) + (if OfAccount(a)(os[n]) then [n] else [])
  }

  lemma SlotsSnoc(os: seq<Order>, i: nat, a: nat)
    requires i < |os|
    ensures Slots(os[..i+1], a) == Slots(os[..i], a) + (if OfAccount(a)(os[i]) then [i] else [])
  {
    assert os[..i+1][..i] == os[..i];
  }

  /** `idx` lists, ascending, the positions below `n` of the account's public orders, each with its rank. */
  ghost predicate AreSlots(os: seq<Order>, n: nat, a: nat, idx: seq<nat>)
    requires n <= |os|
  {
    && (forall j, k | 0 <= j < k < |idx| :: idx[j] < idx[k])
    && (forall j | 0 <= j < |idx| :: idx[j] < n && IsSlot(os, a, idx[j], j))
    && (forall i | 0 <= i < n && OfAccount(a)(os[i]) :: i in idx)
  }

  ghost predicate IsSlot(os: seq<Order>, a: nat, i: nat, rank: nat)
    requires i < |os|
  {
    OfAccount(a)(os[i]) && |Filter(os[..i], OfAccount(a))| == rank
  }

  lemma AreSlotsSnoc(os: seq<Order>, n: nat, a: nat, idx: seq<nat>)
    requires n < |os| && AreSlots(os, n, a, idx) && |idx| == |Filter(os[..n], OfAccount(a))|
    ensures AreSlots(os, n + 1, a, idx + (if OfAccount(a)(os[n]) then [n] else []))
  {
    if OfAccount(a)(os[n]) {
      assert IsSlot(os, a, n, |idx|);
    } else {
      assert idx + [] == idx;
    }
  }

  lemma {:induction false} SlotsAre(os: seq<Order>, n: nat, a: nat)
    requires n <= |os|
    ensures AreSlots(os, n, a, Slots(os[..n], a))
    ensures |Slots(os[..n], a)| == |Filter(os[..n], OfAccount(a))|
  {
    if n == 0 {
    } else {
      SlotsAre(os, n - 1, a);
      SlotsSnoc(os, n - 1, a);
      FilterSnoc(os, n - 1, OfAccount(a));
      AreSlotsSnoc(os, n - 1, a, Slots(os[..n-1], a));
    }
  }

  lemma {:induction false} DealAt(os: seq<Order>, full: seq<Order>, i: nat)
    requires i < |os|
    ensures DealPrefix(os, full)[i] == DealtTo(full, os[..i], os[i])
  {
    var n := |os| - 1;
    if i < n {
      DealAt(os[..n], full, i);
      assert os[..n][..i] == os[..i];
    }
  }

  ghost predicate SlotsUpTo(os: seq<Order>, n: nat, slots: map<nat, seq<nat>>)
    requires n <= |os|
  {
    forall a: nat :: Slots(os[..n], a) == if a in slots then slots[a] else []
  }

  function NoteSlot(slots: map<nat, seq<nat>>, o: Order, i: nat): map<nat, seq<nat>> {
    if o.sealed then slots
    else slots[o.account := (if o.account in slots then slots[o.account] else []) + [i]]
  }

  lemma NoteSlotStep(os: seq<Order>, i: nat, slots: map<nat, seq<nat>>)
    requires i < |os| && SlotsUpTo(os, i, slots)
    ensures SlotsUpTo(os, i + 1, NoteSlot(slots, os[i], i))
  {
    var slots' := NoteSlot(slots, os[i], i);
    forall a: nat ensures Slots(os[..i+1], a) == if a in slots' then slots'[a] else [] {
      SlotsSnoc(os, i, a);
      assert Slots(os[..i], a) == if a in slots then slots[a] else [];
    }
  }

  method CollectSlots(os: seq<Order>) returns (slots: map<nat, seq<nat>>)
    ensures forall a | a in slots :: slots[a] == Slots(os, a)
    ensures forall i | 0 <= i < |os| && !os[i].sealed :: os[i].account in slots
  {
    slots := map[];
    for i := 0 to |os|
      invariant SlotsUpTo(os, i, slots)
    {
      NoteSlotStep(os, i, slots);
      if !os[i].sealed {
        var a := os[i].account;
        slots := slots[a := (if a in slots then slots[a] else []) + [i]];
      }
    }
    assert os[..|os|] == os;
    forall i | 0 <= i < |os| && !os[i].sealed ensures os[i].account in slots {
      SlotsAre(os, |os|, os[i].account);
    }
  }

  method DealQueue(os: seq<Order>) returns (out: seq<Order>)
    ensures out == Deal(os)
  {
    var slots := CollectSlots(os);
    out := os;
    var todo := slots.Keys;
    while todo != {}
      invariant todo <= slots.Keys
      invariant |out| == |os|
      invariant forall i | 0 <= i < |os| ::
                  out[i] == if !os[i].sealed && os[i].account !in todo then Deal(os)[i] else os[i]
      decreases |todo|
    {
      var a :| a in todo;
      out := DealAccount(os, out, a, slots[a]);
      todo := todo - {a};
    }
    forall i | 0 <= i < |os| ensures out[i] == Deal(os)[i] {
      DealAt(os, os, i);
    }
  }

  /** Deal one account's orders, oldest first, into the positions they hold. */
  method DealAccount(os: seq<Order>, before: seq<Order>, a: nat, idx: seq<nat>) returns (out: seq<Order>)
    requires |before| == |os| && idx == Slots(os, a)
    ensures |out| == |os|
    ensures forall i | 0 <= i < |os| :: out[i] == if OfAccount(a)(os[i]) then Deal(os)[i] else before[i]
  {
    SlotsAre(os, |os|, a);
    assert os[..|os|] == os;
    out := before;
    var turns := Turns(os, a);
    for j := 0 to |idx|
      invariant |out| == |os|
      invariant forall k | 0 <= k < j :: out[idx[k]] == Deal(os)[idx[k]]
      invariant forall i | 0 <= i < |os| && !OfAccount(a)(os[i]) :: out[i] == before[i]
    {
      assert IsSlot(os, a, idx[j], j);
      DealAt(os, os, idx[j]);
      out := out[idx[j] := turns[j]];
    }
  }

  method CapBatch(os: seq<Order>, gas: Gas, lim: Limits) returns (batch: seq<Order>, overflow: seq<Order>)
    ensures batch == Batch(os, gas, lim) && overflow == Overflow(os, gas, lim)
  {
    var out := DealQueue(os);
    batch := [];
    var used: nat, sealed: nat, i: nat := 0, 0, 0;
    while i < |out|
      invariant 0 <= i <= |out|
      invariant Walk(out, gas, lim, 0, 0, 0) == batch + Walk(out[i..], gas, lim, |batch|, used, sealed)
    {
      var o, g := out[i], gas(out[i]);
      assert out[i..][1..] == out[i+1..];
      i := i + 1;
      if g > lim.budget {
        continue;
      }
      if |batch| >= lim.cap || used + g > lim.budget
         || (o.sealed && lim.sealedCap.Some? && sealed >= lim.sealedCap.value) {
        assert Walk(out[i-1..], gas, lim, |batch|, used, sealed) == [];
        break;
      }
      batch := batch + [o];
      used, sealed := used + g, sealed + (if o.sealed then 1 else 0);
    }
    overflow := Filter(out, NotIn(Members(batch)));
  }
}

/** Do the nodes of a network follow one chain? Heads are walked back to a common slot and the
    blocks found there compared. */
module HeadAlignment {
  import opened Sequences

  type Hash = nat
  datatype Block = Block(slot: nat, parent: Option<Hash>)
  type Blocks = map<Hash, Block>

  /** Every parent is known and older. */
  ghost predicate Tree(t: Blocks) {
    forall h | h in t && t[h].parent.Some? :: t[h].parent.value in t && t[t[h].parent.value].slot < t[h].slot
  }

  /** The chain that ends at `h`, newest block first. */
  ghost function Chain(t: Blocks, h: Hash): (c: seq<Hash>)
    requires Tree(t) && h in t
    ensures c != [] && c[0] == h
    decreases t[h].slot
  {
    [h] + if t[h].parent.None? then [] else Chain(t, t[h].parent.value)
  }

  /** Walk back from `h` to the first block at or below `slot`, by at most `hops` parents. */
  function AncestorAt(t: Blocks, h: Hash, slot: nat, hops: nat): Option<Hash>
    decreases hops
  {
    if h !in t then None
    else if t[h].slot <= slot then Some(h)
    else if hops == 0 || t[h].parent.None? then None
    else AncestorAt(t, t[h].parent.value, slot, hops - 1)
  }

  /** The walk as it runs. */
  method Walk(t: Blocks, h: Hash, slot: nat, hops: nat) returns (r: Option<Hash>)
    ensures r == AncestorAt(t, h, slot, hops)
  {
    var cur := h;
    for n := 0 to hops + 1
      invariant n <= hops ==> AncestorAt(t, cur, slot, hops - n) == AncestorAt(t, h, slot, hops)
      invariant n == hops + 1 ==> AncestorAt(t, h, slot, hops) == None
    {
      if cur !in t {
        return None;
      }
      if t[cur].slot <= slot {
        return Some(cur);
      }
      if t[cur].parent.None? {
        return None;
      }
      cur := t[cur].parent.value;
    }
    r := None;
  }

  // ---- what the walk finds ----

  /** The blocks of the chain above a slot. */
  ghost function Above(t: Blocks, h: Hash, slot: nat): nat
    requires Tree(t) && h in t
    decreases t[h].slot
  {
    if t[h].slot <= slot then 0 else 1 + if t[h].parent.None? then 0 else Above(t, t[h].parent.value, slot)
  }

  ghost predicate Reaches(t: Blocks, h: Hash, slot: nat)
    requires Tree(t) && h in t
  {
    exists x :: x in Chain(t, h) && x in t && t[x].slot <= slot
  }

  lemma {:induction false} ChainDescends(t: Blocks, h: Hash, x: Hash)
    requires Tree(t) && h in t && x in Chain(t, h)
    ensures x in t && (x == h || t[x].slot < t[h].slot)
    decreases t[h].slot
  {
    if x != h {
      ChainDescends(t, t[h].parent.value, x);
    }
  }

  /** The walk succeeds exactly when the chain has a block that low and few enough above it. */
  lemma {:induction false} FoundIff(t: Blocks, h: Hash, slot: nat, hops: nat)
    requires Tree(t) && h in t
    ensures AncestorAt(t, h, slot, hops).Some? <==> Reaches(t, h, slot) && Above(t, h, slot) <= hops
    decreases t[h].slot
  {
    if t[h].slot <= slot {
      assert h in Chain(t, h);
    } else if t[h].parent.Some? {
      var p := t[h].parent.value;
      assert forall x :: x in Chain(t, h) <==> x == h || x in Chain(t, p);
      assert Reaches(t, h, slot) <==> Reaches(t, p, slot);
      if hops > 0 {
        FoundIff(t, p, slot, hops - 1);
      }
    } else {
      assert Chain(t, h) == [h];
    }
  }

  /** What it finds is the newest block that low: the chain below the slot is the chain it ends. */
  lemma {:induction false} FoundIsNewest(t: Blocks, h: Hash, slot: nat, hops: nat, y: Hash)
    requires Tree(t) && h in t && AncestorAt(t, h, slot, hops).Some?
    ensures var x := AncestorAt(t, h, slot, hops).value;
            && x in t && t[x].slot <= slot && x in Chain(t, h)
            && (y in Chain(t, x) <==> y in Chain(t, h) && y in t && t[y].slot <= slot)
    decreases t[h].slot
  {
    if t[h].slot <= slot {
      if y in Chain(t, h) {
        ChainDescends(t, h, y);
      }
    } else {
      var p := t[h].parent.value;
      assert forall z :: z in Chain(t, h) <==> z == h || z in Chain(t, p);
      FoundIsNewest(t, p, slot, hops - 1, y);
    }
  }

  /** The two chains have the same blocks up to the slot. */
  ghost predicate AgreeUpTo(t: Blocks, a: Hash, b: Hash, slot: nat)
    requires Tree(t) && a in t && b in t
  {
    forall y | y in t && t[y].slot <= slot :: y in Chain(t, a) <==> y in Chain(t, b)
  }

  /** Two nodes show one hash at the slot exactly when their chains agree on every block up to it. */
  lemma SameHashIffAgree(t: Blocks, a: Hash, b: Hash, slot: nat, hops: nat)
    requires Tree(t) && a in t && b in t
    requires AncestorAt(t, a, slot, hops).Some? && AncestorAt(t, b, slot, hops).Some?
    ensures AncestorAt(t, a, slot, hops) == AncestorAt(t, b, slot, hops) <==> AgreeUpTo(t, a, b, slot)
  {
    var x, y := AncestorAt(t, a, slot, hops).value, AncestorAt(t, b, slot, hops).value;
    if x == y {
      forall z | z in t && t[z].slot <= slot ensures z in Chain(t, a) <==> z in Chain(t, b) {
        FoundIsNewest(t, a, slot, hops, z);
        FoundIsNewest(t, b, slot, hops, z);
      }
    }
    if AgreeUpTo(t, a, b, slot) {
      FoundIsNewest(t, a, slot, hops, y);
      FoundIsNewest(t, b, slot, hops, x);
      FoundIsNewest(t, a, slot, hops, x);
      FoundIsNewest(t, b, slot, hops, y);
      ChainDescends(t, x, y);
      ChainDescends(t, y, x);
    }
  }

  // ---- a sample of the network ----

  /** The lowest slot among the heads. */
  function CommonSlot(t: Blocks, heads: seq<Hash>): nat
    requires heads != [] && forall h | h in heads :: h in t
  {
    if |heads| == 1 then t[heads[0]].slot
    else Min(t[heads[0]].slot, CommonSlot(t, heads[1..]))
  }

  /** The blocks each node holds at the common slot, None where the walk gave up. */
  function Aligned(t: Blocks, heads: seq<Hash>, hops: nat): (r: seq<Option<Hash>>)
    requires heads != [] && forall h | h in heads :: h in t
    ensures |r| == |heads|
  {
    var slot := CommonSlot(t, heads);
    seq(|heads|, i requires 0 <= i < |heads| => AncestorAt(t, heads[i], slot, hops))
  }

  /** The alignment as it runs: the lowest slot first, then a walk from every head. */
  method Align(t: Blocks, heads: seq<Hash>, hops: nat) returns (r: seq<Option<Hash>>)
    requires heads != [] && forall h | h in heads :: h in t
    ensures r == Aligned(t, heads, hops)
  {
    var slot := t[heads[|heads| - 1]].slot;
    var n := |heads| - 1;
    while n > 0
      invariant 0 <= n < |heads| && slot == CommonSlot(t, heads[n..])
    {
      n := n - 1;
      assert heads[n..][0] == heads[n] && heads[n..][1..] == heads[n + 1..];
      if t[heads[n]].slot < slot {
        slot := t[heads[n]].slot;
      }
    }
    r := [];
    for i := 0 to |heads|
      invariant |r| == i && forall j | 0 <= j < i :: r[j] == AncestorAt(t, heads[j], slot, hops)
    {
      var b := Walk(t, heads[i], slot, hops);
      r := r + [b];
    }
    assert heads[0..] == heads;
  }

  function Hashes(blocks: seq<Option<Hash>>): set<Hash> { set b | b in blocks && b.Some? :: b.value }

  /** All blocks found are one block, exactly when there are no two hashes among them. */
  lemma OneHash(blocks: seq<Option<Hash>>)
    requires None !in blocks
    ensures |Hashes(blocks)| <= 1 <==> forall i, j | 0 <= i < |blocks| && 0 <= j < |blocks| :: blocks[i] == blocks[j]
  {
    var hs := Hashes(blocks);
    forall i | 0 <= i < |blocks| ensures blocks[i].Some? && blocks[i].value in hs {
      assert blocks[i] in blocks;
    }
    if |hs| <= 1 {
      forall i, j | 0 <= i < |blocks| && 0 <= j < |blocks| ensures blocks[i] == blocks[j] {
        Singleton(hs, blocks[i].value, blocks[j].value);
      }
    } else {
      var x :| x in hs;
      assert hs != {x};
      var y :| y in hs && y != x;
      assert Some(x) in blocks && Some(y) in blocks;
    }
  }

  lemma Singleton(hs: set<Hash>, x: Hash, y: Hash)
    requires |hs| <= 1 && x in hs && y in hs
    ensures x == y
  {
    var rest := hs - {x};
    assert |rest| == |hs| - 1 <= 0;
    assert y in rest || y == x;
  }

  /** The chains of all these heads are walked down to the common slot and agree up to it. */
  ghost predicate OneChain(t: Blocks, heads: seq<Hash>, hops: nat)
    requires Tree(t) && heads != [] && forall h | h in heads :: h in t
  {
    var slot := CommonSlot(t, heads);
    && (forall h | h in heads :: Reaches(t, h, slot) && Above(t, h, slot) <= hops)
    && (forall i, j | 0 <= i < |heads| && 0 <= j < |heads| :: AgreeUpTo(t, heads[i], heads[j], slot))
  }

  /** One hash and no node unaligned, exactly when every walk reached the common slot and all the
      nodes' chains agree on every block up to it. */
  lemma OneHeadIffAgree(t: Blocks, heads: seq<Hash>, hops: nat)
    requires Tree(t) && heads != [] && forall h | h in heads :: h in t
    ensures var blocks := Aligned(t, heads, hops);
            |Hashes(blocks)| <= 1 && None !in blocks <==> OneChain(t, heads, hops)
  {
    var blocks, slot := Aligned(t, heads, hops), CommonSlot(t, heads);
    forall i | 0 <= i < |heads|
      ensures blocks[i].Some? <==> Reaches(t, heads[i], slot) && Above(t, heads[i], slot) <= hops
    {
      FoundIff(t, heads[i], slot, hops);
    }
    if None !in blocks {
      assert forall i | 0 <= i < |heads| :: blocks[i] in blocks;
      forall i, j | 0 <= i < |heads| && 0 <= j < |heads|
        ensures blocks[i] == blocks[j] <==> AgreeUpTo(t, heads[i], heads[j], slot)
      {
        SameHashIffAgree(t, heads[i], heads[j], slot, hops);
      }
      OneHash(blocks);
    }
  }

  // ---- judging the sample ----

  /** The newest block a node reports; a node without hashes may report its height. */
  datatype Best = Best(slot: nat, hash: Option<Hash>, height: Option<nat>)

  /** What is seen of each node: None when it is down. */
  type Nodes = seq<Option<Best>>

  datatype Picture = Picture(ok: bool, top: nat, down: set<nat>, lagging: set<nat>, heads: nat,
                             heightSplit: set<nat>, split: bool, unaligned: set<nat>)

  function TopSlot(nodes: Nodes): nat {
    if nodes == [] then 0
    else
      var n := |nodes| - 1;
      if nodes[n].Some? && nodes[n].value.slot > TopSlot(nodes[..n]) then nodes[n].value.slot else TopSlot(nodes[..n])
  }

  predicate ByHeight(b: Option<Best>) { b.Some? && b.value.hash.None? && b.value.height.Some? }

  /** The heights reported for a slot by nodes without hashes. */
  function HeightsAt(nodes: Nodes, slot: nat): set<nat> {
    set i | 0 <= i < |nodes| && ByHeight(nodes[i]) && nodes[i].value.slot == slot :: nodes[i].value.height.value
  }

  function SplitSlots(nodes: Nodes): set<nat> {
    set i | 0 <= i < |nodes| && ByHeight(nodes[i]) && |HeightsAt(nodes, nodes[i].value.slot)| > 1 :: nodes[i].value.slot
  }

  function Missing<T>(q: seq<Option<T>>): set<nat> { set i | 0 <= i < |q| && q[i].None? }

  function LaggingOf(nodes: Nodes, maxLag: nat): set<nat> {
    set i | 0 <= i < |nodes| && nodes[i].Some? && TopSlot(nodes) - nodes[i].value.slot > maxLag
  }

  function JudgeSample(nodes: Nodes, blocks: seq<Option<Hash>>, maxLag: nat): Picture {
    var down, lagging, unaligned := Missing(nodes), LaggingOf(nodes, maxLag), Missing(blocks);
    var heads, heightSplit := |Hashes(blocks)|, SplitSlots(nodes);
    var split := heads > 1 || heightSplit != {};
    Picture(|down| < |nodes| && down == {} && !split && unaligned == {} && lagging == {},
            TopSlot(nodes), down, lagging, heads, heightSplit, split, unaligned)
  }

  ghost predicate HeightsUpTo(nodes: Nodes, n: nat, heights: map<nat, set<nat>>)
    requires n <= |nodes|
  {
    forall slot :: HeightsAt(nodes[..n], slot) == if slot in heights then heights[slot] else {}
  }

  lemma HeightsNext(nodes: Nodes, n: nat, slot: nat)
    requires n < |nodes|
    ensures HeightsAt(nodes[..n+1], slot) == HeightsAt(nodes[..n], slot) +
              if ByHeight(nodes[n]) && nodes[n].value.slot == slot then {nodes[n].value.height.value} else {}
  {
    var more, less := nodes[..n+1], nodes[..n];
    assert more[n] == nodes[n] && forall i | 0 <= i < n :: more[i] == less[i];
    forall h | h in HeightsAt(less, slot) ensures h in HeightsAt(more, slot) {
      var i :| 0 <= i < n && ByHeight(less[i]) && less[i].value.slot == slot && less[i].value.height.value == h;
      assert ByHeight(more[i]);
    }
  }

  /** The heights of nodes without hashes, collected slot by slot. */
  method CollectHeights(nodes: Nodes) returns (heights: map<nat, set<nat>>)
    ensures forall slot :: HeightsAt(nodes, slot) == if slot in heights then heights[slot] else {}
    ensures forall slot | slot in heights :: exists i ::
            0 <= i < |nodes| && ByHeight(nodes[i]) && nodes[i].value.slot == slot
  {
    heights := map[];
    for n := 0 to |nodes|
      invariant HeightsUpTo(nodes, n, heights)
      invariant forall slot | slot in heights :: exists i ::
                0 <= i < n && ByHeight(nodes[i]) && nodes[i].value.slot == slot
    {
      forall slot ensures HeightsAt(nodes[..n+1], slot) == HeightsAt(nodes[..n], slot) +
          if ByHeight(nodes[n]) && nodes[n].value.slot == slot then {nodes[n].value.height.value} else {}
      {
        HeightsNext(nodes, n, slot);
      }
      if ByHeight(nodes[n]) {
        var slot, h := nodes[n].value.slot, nodes[n].value.height.value;
        heights := heights[slot := (if slot in heights then heights[slot] else {}) + {h}];
      }
    }
    assert nodes[..|nodes|] == nodes;
  }

  /** The judgement as it is made. */
  method Judge(nodes: Nodes, blocks: seq<Option<Hash>>, maxLag: nat) returns (p: Picture)
    ensures p == JudgeSample(nodes, blocks, maxLag)
  {
    var heights := CollectHeights(nodes);
    var heightSplit := set slot | slot in heights && |heights[slot]| > 1;
    forall slot ensures slot in heightSplit <==> slot in SplitSlots(nodes) {
      assert slot in heights ==> HeightsAt(nodes, slot) == heights[slot];
    }
    assert heightSplit == SplitSlots(nodes);
    var top := 0;
    for n := 0 to |nodes|
      invariant top == TopSlot(nodes[..n])
    {
      assert nodes[..n+1][..n] == nodes[..n];
      if nodes[n].Some? && nodes[n].value.slot > top {
        top := nodes[n].value.slot;
      }
    }
    assert nodes[..|nodes|] == nodes;
    var heads := |Hashes(blocks)|;
    var split := heads > 1 || heightSplit != {};
    var down, unaligned := Missing(nodes), Missing(blocks);
    var lagging := set i | 0 <= i < |nodes| && nodes[i].Some? && top - nodes[i].value.slot > maxLag;
    p := Picture(|down| < |nodes| && down == {} && !split && unaligned == {} && lagging == {},
                 top, down, lagging, heads, heightSplit, split, unaligned);
  }

  // ---- what a good sample means ----

  lemma {:induction false} TopIsNewest(nodes: Nodes)
    ensures forall i | 0 <= i < |nodes| && nodes[i].Some? :: nodes[i].value.slot <= TopSlot(nodes)
    ensures TopSlot(nodes) == 0 || exists i ::
            0 <= i < |nodes| && nodes[i].Some? && nodes[i].value.slot == TopSlot(nodes)
  {
    if nodes == [] {
      assert TopSlot(nodes) == 0;
    } else {
      var n := |nodes| - 1;
      TopIsNewest(nodes[..n]);
      if TopSlot(nodes) != 0 && TopSlot(nodes) == TopSlot(nodes[..n]) {
        var i :| 0 <= i < n && nodes[..n][i].Some? && nodes[..n][i].value.slot == TopSlot(nodes);
        assert nodes[i].Some? && nodes[i].value.slot == TopSlot(nodes);
      }
    }
  }

  /** No node trails another by more than the limit. */
  ghost predicate Together(nodes: Nodes, maxLag: nat) {
    forall i, j | 0 <= i < |nodes| && 0 <= j < |nodes| && nodes[i].Some? && nodes[j].Some? ::
      nodes[i].value.slot <= nodes[j].value.slot + maxLag
  }

  lemma NoneLagging(nodes: Nodes, maxLag: nat)
    ensures LaggingOf(nodes, maxLag) == {} <==> Together(nodes, maxLag)
  {
    TopIsNewest(nodes);
    if LaggingOf(nodes, maxLag) == {} {
      forall j | 0 <= j < |nodes| && nodes[j].Some? ensures TopSlot(nodes) <= nodes[j].value.slot + maxLag {
        assert j !in LaggingOf(nodes, maxLag);
      }
    }
  }

  /** Nodes without hashes report one height for one slot. */
  ghost predicate OneHeight(nodes: Nodes) {
    forall i, j | 0 <= i < |nodes| && 0 <= j < |nodes| && ByHeight(nodes[i]) && ByHeight(nodes[j])
      && nodes[i].value.slot == nodes[j].value.slot :: nodes[i].value.height == nodes[j].value.height
  }

  lemma NoneSplit(nodes: Nodes)
    ensures SplitSlots(nodes) == {} <==> OneHeight(nodes)
  {
    if SplitSlots(nodes) == {} {
      forall i, j | 0 <= i < |nodes| && 0 <= j < |nodes| && ByHeight(nodes[i]) && ByHeight(nodes[j])
          && nodes[i].value.slot == nodes[j].value.slot
        ensures nodes[i].value.height == nodes[j].value.height
      {
        var hs := HeightsAt(nodes, nodes[i].value.slot);
        assert nodes[i].value.slot !in SplitSlots(nodes);
        assert nodes[i].value.height.value in hs && nodes[j].value.height.value in hs;
        Singleton(hs, nodes[i].value.height.value, nodes[j].value.height.value);
      }
    } else {
      var slot :| slot in SplitSlots(nodes);
      var hs := HeightsAt(nodes, slot);
      var x :| x in hs;
      assert hs != {x};
      var y :| y in hs && y != x;
    }
  }

  function BlocksOf(t: Blocks, heads: seq<Hash>, hops: nat): seq<Option<Hash>>
    requires forall h | h in heads :: h in t
  {
    if heads == [] then [] else Aligned(t, heads, hops)
  }

  /** A sample is good exactly when there are nodes, all are up and close together, those that can
      be walked hold one chain up to the common slot, and the others one height for a slot. */
  lemma SampleOkIff(t: Blocks, nodes: Nodes, heads: seq<Hash>, hops: nat, maxLag: nat)
    requires Tree(t) && forall h | h in heads :: h in t
    ensures JudgeSample(nodes, BlocksOf(t, heads, hops), maxLag).ok <==>
              && nodes != [] && None !in nodes && Together(nodes, maxLag) && OneHeight(nodes)
              && (heads != [] ==> OneChain(t, heads, hops))
  {
    var blocks := BlocksOf(t, heads, hops);
    NoneLagging(nodes, maxLag);
    NoneSplit(nodes);
    if heads != [] {
      OneHeadIffAgree(t, heads, hops);
    } else {
      assert Hashes(blocks) == {};
    }
    NoneMissing(nodes);
    NoneMissing(blocks);
  }

  lemma NoneMissing<T>(q: seq<Option<T>>)
    ensures Missing(q) == {} <==> None !in q
  {
    if None in q {
      var i :| 0 <= i < |q| && q[i] == None;
      assert i in Missing(q);
    }
    if Missing(q) != {} {
      var i :| i in Missing(q);
      assert q[i] in q;
    }
  }
}

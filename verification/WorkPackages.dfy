/** The work-package codec of the Gray Paper (0.8.0, section 14.3 and appendix C). Each reader
    succeeds exactly on what the matching writer writes, at any offset. */
module WorkPackages {
  import opened Sequences
  import opened NatCodec

  /** A read that failed, or its value and the offset after it. */
  datatype Read<+T> = Fail | Done(value: T, next: nat) {
    predicate IsFailure() { Fail? }
    function PropagateFailure<U>(): Read<U>
      requires Fail?
    {
      Fail
    }
    function Extract(): (T, nat)
      requires Done?
    {
      (value, next)
    }
  }

  type Reader<T> = (Bytes, nat) -> Read<T>

  // ---- the primitive readers ----

  function Take(buf: Bytes, i: nat, n: nat): Read<Bytes> {
    if i + n > |buf| then Fail else Done(buf[i..i + n], i + n)
  }

  function ReadU(buf: Bytes, i: nat, n: nat): Read<int> {
    var (bs, j) :- Take(buf, i, n);
    Done(FromLE(bs), j)
  }

  function ReadNat(buf: Bytes, i: nat): Read<nat> {
    match DecNat(buf, i)
    case Bad => Fail
    case Nat(x, j) => Done(x, j)
  }

  function ReadBlob(buf: Bytes, i: nat): Read<Bytes> {
    var (n, j) :- ReadNat(buf, i);
    Take(buf, j, n)
  }

  function ReadMany<T>(rd: Reader<T>, buf: Bytes, i: nat, n: nat): Read<seq<T>>
    decreases n
  {
    if n == 0 then Done([], i)
    else
      var (x, j) :- rd(buf, i);
      var (xs, k) :- ReadMany(rd, buf, j, n - 1);
      Done([x] + xs, k)
  }

  /** Items read earlier, then the rest. */
  function Onto<T>(xs: seq<T>, r: Read<seq<T>>): Read<seq<T>> {
    if r.Fail? then Fail else Done(xs + r.value, r.next)
  }

  /** With `xs` in hand and `left` items to read at `i`, the read is to end as `goal`. */
  ghost predicate Pending<T>(rd: Reader<T>, buf: Bytes, i: nat, left: nat, xs: seq<T>, goal: Read<seq<T>>) {
    Onto(xs, ReadMany(rd, buf, i, left)) == goal
  }

  lemma PendingAll<T>(rd: Reader<T>, buf: Bytes, i: nat, n: nat)
    ensures Pending(rd, buf, i, n, [], ReadMany(rd, buf, i, n))
  {
    var r := ReadMany(rd, buf, i, n);
    if r.Done? {
      assert [] + r.value == r.value;
    }
  }

  lemma PendingNone<T>(rd: Reader<T>, buf: Bytes, i: nat, xs: seq<T>, goal: Read<seq<T>>)
    requires Pending(rd, buf, i, 0, xs, goal)
    ensures goal == Done(xs, i)
  {
    assert xs + [] == xs;
  }

  lemma PendingNext<T>(rd: Reader<T>, buf: Bytes, i: nat, left: nat, xs: seq<T>, goal: Read<seq<T>>)
    requires left > 0 && Pending(rd, buf, i, left, xs, goal)
    ensures var x := rd(buf, i);
            if x.Fail? then goal.Fail? else Pending(rd, buf, x.next, left - 1, xs + [x.value], goal)
  {
    var x := rd(buf, i);
    if x.Done? {
      var t := ReadMany(rd, buf, x.next, left - 1);
      if t.Done? {
        assert xs + ([x.value] + t.value) == xs + [x.value] + t.value;
      }
    }
  }

  function ReadSeq<T>(rd: Reader<T>, buf: Bytes, i: nat): Read<seq<T>> {
    var (n, j) :- ReadNat(buf, i);
    ReadMany(rd, buf, j, n)
  }

  // ---- their writers, and the law that ties the two ----

  function Var(b: Bytes): Bytes
    requires |b| < LIMIT
  {
    Enc(|b|) + b
  }

  function WriteAll<T>(wr: T -> Bytes, xs: seq<T>): Bytes {
    if xs == [] then [] else wr(xs[0]) + WriteAll(wr, xs[1..])
  }

  function WriteSeq<T>(wr: T -> Bytes, xs: seq<T>): Bytes
    requires |xs| < LIMIT
  {
    Enc(|xs|) + WriteAll(wr, xs)
  }

  /** The reader accepts exactly the valid values' encodings. */
  ghost predicate Law<T(!new)>(rd: Reader<T>, wr: T -> Bytes, ok: T -> bool) {
    forall buf: Bytes, i: nat, x, j: nat | i <= |buf| ::
      rd(buf, i) == Done(x, j) <==> ok(x) && At(buf, i, wr(x)) && j == i + |wr(x)|
  }

  lemma LawAt<T(!new)>(rd: Reader<T>, wr: T -> Bytes, ok: T -> bool, buf: Bytes, i: nat, x: T, j: nat)
    requires Law(rd, wr, ok) && i <= |buf|
    ensures rd(buf, i) == Done(x, j) <==> ok(x) && At(buf, i, wr(x)) && j == i + |wr(x)|
  {
  }

  lemma TakeLaw(buf: Bytes, i: nat, n: nat, x: Bytes, j: nat)
    ensures Take(buf, i, n) == Done(x, j) <==> |x| == n && At(buf, i, x) && j == i + n
  {
  }

  predicate Fits(x: int, n: nat) { 0 <= x < Pow256(n) }

  lemma ULaw(buf: Bytes, i: nat, n: nat, x: int, j: nat)
    ensures ReadU(buf, i, n) == Done(x, j) <==> Fits(x, n) && At(buf, i, ToLE(x, n)) && j == i + n
  {
    if i + n <= |buf| {
      ToFromLE(buf[i..i + n]);
    }
    if Fits(x, n) {
      FromToLE(x, n);
    }
  }

  lemma NatLaw(buf: Bytes, i: nat, x: nat, j: nat)
    ensures ReadNat(buf, i) == Done(x, j) <==> x < LIMIT && At(buf, i, Enc(x)) && j == i + |Enc(x)|
  {
    DecIffEnc(buf, i, x, j);
  }

  lemma BlobLaw(buf: Bytes, i: nat, x: Bytes, j: nat)
    ensures ReadBlob(buf, i) == Done(x, j) <==> |x| < LIMIT && At(buf, i, Var(x)) && j == i + |Var(x)|
  {
    if |x| < LIMIT {
      NatLaw(buf, i, |x|, i + |Enc(|x|)|);
      AtConcat(buf, i, Enc(|x|), x);
      TakeLaw(buf, i + |Enc(|x|)|, |x|, x, j);
    }
    if ReadBlob(buf, i).Done? {
      var n := ReadNat(buf, i);
      NatLaw(buf, i, n.value, n.next);
    }
  }

  lemma {:induction false} ManyLaw<T(!new)>(rd: Reader<T>, wr: T -> Bytes, ok: T -> bool, buf: Bytes, i: nat, n: nat,
                                            xs: seq<T>, j: nat)
    requires Law(rd, wr, ok) && i <= |buf|
    ensures ReadMany(rd, buf, i, n) == Done(xs, j) <==>
              |xs| == n && (forall x | x in xs :: ok(x)) && At(buf, i, WriteAll(wr, xs)) && j == i + |WriteAll(wr, xs)|
    decreases n
  {
    if n == 0 {
    } else {
      if xs != [] {
        var k := i + |wr(xs[0])|;
        AtConcat(buf, i, wr(xs[0]), WriteAll(wr, xs[1..]));
        assert rd(buf, i) == Done(xs[0], k) <==> ok(xs[0]) && At(buf, i, wr(xs[0]));
        if k <= |buf| {
          ManyLaw(rd, wr, ok, buf, k, n - 1, xs[1..], j);
        }
        assert forall x :: x in xs <==> x == xs[0] || x in xs[1..];
      }
      ManyStep(rd, wr, ok, buf, i, n, xs, j);
    }
  }

  /** A successful read of several items begins with a read of the first. */
  lemma ManyStep<T(!new)>(rd: Reader<T>, wr: T -> Bytes, ok: T -> bool, buf: Bytes, i: nat, n: nat, xs: seq<T>, j: nat)
    requires Law(rd, wr, ok) && n > 0 && i <= |buf|
    ensures ReadMany(rd, buf, i, n) == Done(xs, j) <==>
              && xs != [] && rd(buf, i) == Done(xs[0], i + |wr(xs[0])|)
              && ReadMany(rd, buf, i + |wr(xs[0])|, n - 1) == Done(xs[1..], j)
  {
    if xs != [] {
      assert xs == [xs[0]] + xs[1..];
    }
    if rd(buf, i).Done? {
      var x, k := rd(buf, i).value, rd(buf, i).next;
      assert rd(buf, i) == Done(x, k);
      if ReadMany(rd, buf, k, n - 1).Done? {
        var ys := ReadMany(rd, buf, k, n - 1).value;
        assert ([x] + ys)[0] == x && ([x] + ys)[1..] == ys;
      }
    }
  }

  lemma SeqLaw<T(!new)>(rd: Reader<T>, wr: T -> Bytes, ok: T -> bool, buf: Bytes, i: nat, xs: seq<T>, j: nat)
    requires Law(rd, wr, ok)
    ensures ReadSeq(rd, buf, i) == Done(xs, j) <==>
              |xs| < LIMIT && (forall x | x in xs :: ok(x)) && At(buf, i, WriteSeq(wr, xs))
                && j == i + |WriteSeq(wr, xs)|
  {
    if |xs| < LIMIT {
      var k := i + |Enc(|xs|)|;
      NatLaw(buf, i, |xs|, k);
      AtConcat(buf, i, Enc(|xs|), WriteAll(wr, xs));
      if k <= |buf| {
        ManyLaw(rd, wr, ok, buf, k, |xs|, xs, j);
      }
    }
    if ReadSeq(rd, buf, i).Done? {
      var n := ReadNat(buf, i);
      NatLaw(buf, i, n.value, n.next);
      ManyLaw(rd, wr, ok, buf, n.next, n.value, ReadSeq(rd, buf, i).value, ReadSeq(rd, buf, i).next);
    }
  }

  // ---- readers as values, and how they combine ----

  type Writer<!T> = T -> Bytes
  type Check<!T> = T -> bool

  function HashR(): Reader<Bytes> { (buf: Bytes, i: nat) => Take(buf, i, 32) }
  function HashW(): Writer<Bytes> { (h: Bytes) => h }
  function HashOk(): Check<Bytes> { (h: Bytes) => |h| == 32 }

  lemma HashLaw()
    ensures Law(HashR(), HashW(), HashOk())
  {
  }

  function UR(n: nat): Reader<int> { (buf: Bytes, i: nat) => ReadU(buf, i, n) }
  function UW(n: nat): Writer<int> { (x: int) => if Fits(x, n) then ToLE(x, n) else [] }
  function UOk(n: nat): Check<int> { (x: int) => Fits(x, n) }

  lemma URLaw(n: nat)
    ensures Law(UR(n), UW(n), UOk(n))
  {
    forall buf: Bytes, i: nat, x, j: nat | i <= |buf|
      ensures UR(n)(buf, i) == Done(x, j) <==> UOk(n)(x) && At(buf, i, UW(n)(x)) && j == i + |UW(n)(x)|
    {
      ULaw(buf, i, n, x, j);
    }
  }

  function BlobR(): Reader<Bytes> { (buf: Bytes, i: nat) => ReadBlob(buf, i) }
  function BlobW(): Writer<Bytes> { (b: Bytes) => if |b| < LIMIT then Var(b) else [] }
  function BlobOk(): Check<Bytes> { (b: Bytes) => |b| < LIMIT }

  lemma BlobRLaw()
    ensures Law(BlobR(), BlobW(), BlobOk())
  {
    forall buf: Bytes, i: nat, x, j: nat | i <= |buf|
      ensures BlobR()(buf, i) == Done(x, j) <==> BlobOk()(x) && At(buf, i, BlobW()(x)) && j == i + |BlobW()(x)|
    {
      BlobLaw(buf, i, x, j);
    }
  }

  function SeqR<T>(rd: Reader<T>): Reader<seq<T>> { (buf: Bytes, i: nat) => ReadSeq(rd, buf, i) }
  function SeqW<T>(wr: Writer<T>): Writer<seq<T>> { (xs: seq<T>) => if |xs| < LIMIT then WriteSeq(wr, xs) else [] }
  function SeqOk<T>(ok: Check<T>): Check<seq<T>> {
    (xs: seq<T>) => |xs| < LIMIT && forall k | 0 <= k < |xs| :: ok(xs[k])
  }

  lemma SeqRLaw<T(!new)>(rd: Reader<T>, wr: Writer<T>, ok: Check<T>)
    requires Law(rd, wr, ok)
    ensures Law(SeqR(rd), SeqW(wr), SeqOk(ok))
  {
    forall buf: Bytes, i: nat, x, j: nat | i <= |buf|
      ensures SeqR(rd)(buf, i) == Done(x, j) <==> SeqOk(ok)(x) && At(buf, i, SeqW(wr)(x)) && j == i + |SeqW(wr)(x)|
    {
      SeqLaw(rd, wr, ok, buf, i, x, j);
    }
  }

  function PairR<A, B>(ra: Reader<A>, rb: Reader<B>): Reader<(A, B)> {
    (buf: Bytes, i: nat) =>
      var (a, i) :- ra(buf, i);
      var (b, i) :- rb(buf, i);
      Done((a, b), i)
  }
  function PairW<A, B>(wa: Writer<A>, wb: Writer<B>): Writer<(A, B)> { (p: (A, B)) => wa(p.0) + wb(p.1) }
  function PairOk<A, B>(oka: Check<A>, okb: Check<B>): Check<(A, B)> { (p: (A, B)) => oka(p.0) && okb(p.1) }

  /** Two readers in a row accept exactly one encoding after the other. */
  lemma PairLaw<A(!new), B(!new)>(ra: Reader<A>, wa: Writer<A>, oka: Check<A>,
                                  rb: Reader<B>, wb: Writer<B>, okb: Check<B>)
    requires Law(ra, wa, oka) && Law(rb, wb, okb)
    ensures Law(PairR(ra, rb), PairW(wa, wb), PairOk(oka, okb))
  {
    var rd, wr, ok := PairR(ra, rb), PairW(wa, wb), PairOk(oka, okb);
    forall buf: Bytes, i: nat, x, j: nat | i <= |buf|
      ensures rd(buf, i) == Done(x, j) <==> ok(x) && At(buf, i, wr(x)) && j == i + |wr(x)|
    {
      var k := i + |wa(x.0)|;
      AtConcat(buf, i, wa(x.0), wb(x.1));
      assert ra(buf, i) == Done(x.0, k) <==> oka(x.0) && At(buf, i, wa(x.0));
      if ra(buf, i).Done? {
        var a := ra(buf, i);
        assert ra(buf, i) == Done(a.value, a.next);
      }
      if k <= |buf| {
        assert rb(buf, k) == Done(x.1, j) <==> okb(x.1) && At(buf, k, wb(x.1)) && j == k + |wb(x.1)|;
      }
    }
  }

  /** Reading two fields and the rest. */
  lemma TwoAt<A, B, C>(ra: Reader<A>, rb: Reader<B>, rc: Reader<C>, buf: Bytes, i: nat)
    ensures PairR(ra, PairR(rb, rc))(buf, i) ==
              var a := ra(buf, i);
              if a.Fail? then Fail
              else
                var b := rb(buf, a.next);
                if b.Fail? then Fail
                else
                  var c := rc(buf, b.next);
                  if c.Fail? then Fail else Done((a.value, (b.value, c.value)), c.next)
  {
  }

  function MapR<A, B>(rd: Reader<A>, f: A -> B): Reader<B> {
    (buf: Bytes, i: nat) =>
      var (a, i) :- rd(buf, i);
      Done(f(a), i)
  }

  lemma MapAt<A, B>(rd: Reader<A>, f: A -> B, buf: Bytes, i: nat)
    ensures MapR(rd, f)(buf, i) == var a := rd(buf, i); if a.Fail? then Fail else Done(f(a.value), a.next)
  {
  }

  /** A record read as its fields: `f` builds it, `g` takes it apart. */
  lemma RecordLaw<A(!new), B(!new)>(rd: Reader<A>, wr: Writer<A>, ok: Check<A>, f: A -> B,
                                    g: B -> A, wr': Writer<B>, ok': Check<B>)
    requires Law(rd, wr, ok)
    requires forall a | ok(a) :: ok'(f(a)) && g(f(a)) == a
    requires forall b | ok'(b) :: ok(g(b)) && f(g(b)) == b && wr'(b) == wr(g(b))
    ensures Law(MapR(rd, f), wr', ok')
  {
    forall buf: Bytes, i: nat, b, j: nat | i <= |buf|
      ensures MapR(rd, f)(buf, i) == Done(b, j) <==> ok'(b) && At(buf, i, wr'(b)) && j == i + |wr'(b)|
    {
      assert rd(buf, i) == Done(g(b), j) <==> ok(g(b)) && At(buf, i, wr(g(b))) && j == i + |wr(g(b))|;
      if rd(buf, i).Done? {
        var r := rd(buf, i);
        assert rd(buf, i) == Done(r.value, r.next);
      }
    }
  }

  // ---- the refinement context ----

  datatype Context = Context(anchor: Bytes, anchorSlot: int, stateRoot: Bytes, beefyRoot: Bytes,
                             lookup: Bytes, lookupSlot: int, lookupRoot: Bytes, prerequisites: seq<Bytes>)

  type ContextFields = (Bytes, (int, (Bytes, (Bytes, (Bytes, (int, (Bytes, seq<Bytes>)))))))

  function ContextOf(): ContextFields -> Context {
    (t: ContextFields) =>
      Context(t.0, t.1.0, t.1.1.0, t.1.1.1.0, t.1.1.1.1.0, t.1.1.1.1.1.0, t.1.1.1.1.1.1.0, t.1.1.1.1.1.1.1)
  }
  function FieldsOfContext(): Context -> ContextFields {
    (c: Context) => (c.anchor,
                     (c.anchorSlot,
                      (c.stateRoot, (c.beefyRoot, (c.lookup, (c.lookupSlot, (c.lookupRoot, c.prerequisites)))))))
  }

  function ContextFieldsR(): Reader<ContextFields> {
    PairR(HashR(),
          PairR(UR(4), PairR(HashR(), PairR(HashR(), PairR(HashR(), PairR(UR(4), PairR(HashR(), SeqR(HashR()))))))))
  }
  function ContextFieldsW(): Writer<ContextFields> {
    PairW(HashW(),
          PairW(UW(4), PairW(HashW(), PairW(HashW(), PairW(HashW(), PairW(UW(4), PairW(HashW(), SeqW(HashW()))))))))
  }
  function ContextFieldsOk(): Check<ContextFields> {
    PairOk(HashOk(), PairOk(UOk(4), PairOk(HashOk(), PairOk(HashOk(),
    PairOk(HashOk(), PairOk(UOk(4), PairOk(HashOk(), SeqOk(HashOk()))))))))
  }

  lemma ContextFieldsLaw()
    ensures Law(ContextFieldsR(), ContextFieldsW(), ContextFieldsOk())
  {
    HashLaw();
    URLaw(4);
    SeqRLaw(HashR(), HashW(), HashOk());
    var r1, w1, k1 := PairR(HashR(), SeqR(HashR())), PairW(HashW(), SeqW(HashW())), PairOk(HashOk(), SeqOk(HashOk()));
    PairLaw(HashR(), HashW(), HashOk(), SeqR(HashR()), SeqW(HashW()), SeqOk(HashOk()));
    var r2, w2, k2 := PairR(UR(4), r1), PairW(UW(4), w1), PairOk(UOk(4), k1);
    PairLaw(UR(4), UW(4), UOk(4), r1, w1, k1);
    var r3, w3, k3 := PairR(HashR(), r2), PairW(HashW(), w2), PairOk(HashOk(), k2);
    PairLaw(HashR(), HashW(), HashOk(), r2, w2, k2);
    var r4, w4, k4 := PairR(HashR(), r3), PairW(HashW(), w3), PairOk(HashOk(), k3);
    PairLaw(HashR(), HashW(), HashOk(), r3, w3, k3);
    var r5, w5, k5 := PairR(HashR(), r4), PairW(HashW(), w4), PairOk(HashOk(), k4);
    PairLaw(HashR(), HashW(), HashOk(), r4, w4, k4);
    PairLaw(UR(4), UW(4), UOk(4), r5, w5, k5);
    PairLaw(HashR(), HashW(), HashOk(), PairR(UR(4), r5), PairW(UW(4), w5), PairOk(UOk(4), k5));
  }

  function ContextOk(): Check<Context> {
    (c: Context) =>
      && |c.anchor| == 32 && Fits(c.anchorSlot, 4) && |c.stateRoot| == 32 && |c.beefyRoot| == 32
      && |c.lookup| == 32 && Fits(c.lookupSlot, 4) && |c.lookupRoot| == 32
      && |c.prerequisites| < LIMIT && (forall k | 0 <= k < |c.prerequisites| :: |c.prerequisites[k]| == 32)
  }

  /** The context with its prerequisites in the order they stand. */
  function ContextW(): Writer<Context> {
    (c: Context) =>
      if !ContextOk()(c) then []
      else
        c.anchor + (ToLE(c.anchorSlot, 4) + (c.stateRoot + (c.beefyRoot + (c.lookup + (ToLE(c.lookupSlot, 4) +
        (c.lookupRoot + WriteSeq(HashW(), c.prerequisites)))))))
  }

  function ContextR(): Reader<Context> { MapR(ContextFieldsR(), ContextOf()) }

  lemma ContextWrites(c: Context)
    ensures ContextOk()(c) == ContextFieldsOk()(FieldsOfContext()(c))
    ensures ContextOk()(c) ==> ContextW()(c) == ContextFieldsW()(FieldsOfContext()(c))
  {
  }

  lemma ContextLaw()
    ensures Law(ContextR(), ContextW(), ContextOk())
  {
    ContextFieldsLaw();
    forall c
      ensures ContextOk()(c) == ContextFieldsOk()(FieldsOfContext()(c))
      ensures ContextOk()(c) ==> ContextW()(c) == ContextFieldsW()(FieldsOfContext()(c))
    {
      ContextWrites(c);
    }
    RecordLaw(ContextFieldsR(), ContextFieldsW(), ContextFieldsOk(), ContextOf(), FieldsOfContext(), ContextW(),
              ContextOk());
  }

  // ---- imports and extrinsics ----

  /** An imported segment; bit 15 of the index says that the root is a package's hash. */
  datatype ImportRef = ImportRef(root: Bytes, index: int, byPackage: bool)

  const IMPORTS: nat := 0x8000

  function ImportOk(): Check<ImportRef> { (r: ImportRef) => |r.root| == 32 && 0 <= r.index < IMPORTS }

  function Tagged(r: ImportRef): int { r.index + if r.byPackage then IMPORTS else 0 }

  function ImportW(): Writer<ImportRef> {
    (r: ImportRef) => if !ImportOk()(r) then [] else r.root + ToLE(Tagged(r), 2)
  }

  function ImportOf(): ((Bytes, int)) -> ImportRef {
    (t: (Bytes, int)) => ImportRef(t.0, t.1 % IMPORTS, t.1 / IMPORTS != 0)
  }
  function FieldsOfImport(): ImportRef -> (Bytes, int) { (r: ImportRef) => (r.root, Tagged(r)) }

  function ImportR(): Reader<ImportRef> { MapR(PairR(HashR(), UR(2)), ImportOf()) }

  lemma ImportLaw()
    ensures Law(ImportR(), ImportW(), ImportOk())
  {
    HashLaw();
    URLaw(2);
    PairLaw(HashR(), HashW(), HashOk(), UR(2), UW(2), UOk(2));
    Powers();
    var rd, wr, ok := PairR(HashR(), UR(2)), PairW(HashW(), UW(2)), PairOk(HashOk(), UOk(2));
    forall a | ok(a) ensures ImportOk()(ImportOf()(a)) && FieldsOfImport()(ImportOf()(a)) == a {
      assert a == (a.0, a.1);
    }
    RecordLaw(rd, wr, ok, ImportOf(), FieldsOfImport(), ImportW(), ImportOk());
  }

  datatype Extrinsic = Extrinsic(hash: Bytes, length: int)

  function ExtrinsicOk(): Check<Extrinsic> { (e: Extrinsic) => |e.hash| == 32 && Fits(e.length, 4) }

  function ExtrinsicW(): Writer<Extrinsic> {
    (e: Extrinsic) => if !ExtrinsicOk()(e) then [] else e.hash + ToLE(e.length, 4)
  }

  function ExtrinsicOf(): ((Bytes, int)) -> Extrinsic { (t: (Bytes, int)) => Extrinsic(t.0, t.1) }
  function FieldsOfExtrinsic(): Extrinsic -> (Bytes, int) { (e: Extrinsic) => (e.hash, e.length) }

  function ExtrinsicR(): Reader<Extrinsic> { MapR(PairR(HashR(), UR(4)), ExtrinsicOf()) }

  lemma ExtrinsicLaw()
    ensures Law(ExtrinsicR(), ExtrinsicW(), ExtrinsicOk())
  {
    HashLaw();
    URLaw(4);
    PairLaw(HashR(), HashW(), HashOk(), UR(4), UW(4), UOk(4));
    RecordLaw(PairR(HashR(), UR(4)), PairW(HashW(), UW(4)), PairOk(HashOk(), UOk(4)),
              ExtrinsicOf(), FieldsOfExtrinsic(), ExtrinsicW(), ExtrinsicOk());
  }

  // ---- work-items ----

  datatype Item = Item(service: int, codeHash: Bytes, payload: Bytes, refineGas: int, accumulateGas: int,
                       exportCount: int, imports: seq<ImportRef>, extrinsics: seq<Extrinsic>)

  type ItemFields = (int, (Bytes, (int, (int, (int, (Bytes, (seq<ImportRef>, seq<Extrinsic>)))))))

  function ItemOf(): ItemFields -> Item {
    (t: ItemFields) =>
      Item(t.0, t.1.0, t.1.1.1.1.1.0, t.1.1.0, t.1.1.1.0, t.1.1.1.1.0, t.1.1.1.1.1.1.0, t.1.1.1.1.1.1.1)
  }
  function FieldsOfItem(): Item -> ItemFields {
    (w: Item) => (w.service,
                  (w.codeHash,
                   (w.refineGas, (w.accumulateGas, (w.exportCount, (w.payload, (w.imports, w.extrinsics)))))))
  }

  function ItemFieldsR(): Reader<ItemFields> {
    PairR(UR(4),
          PairR(HashR(),
                PairR(UR(8), PairR(UR(8), PairR(UR(2), PairR(BlobR(), PairR(SeqR(ImportR()), SeqR(ExtrinsicR()))))))))
  }
  function ItemFieldsW(): Writer<ItemFields> {
    PairW(UW(4),
          PairW(HashW(),
                PairW(UW(8), PairW(UW(8), PairW(UW(2), PairW(BlobW(), PairW(SeqW(ImportW()), SeqW(ExtrinsicW()))))))))
  }
  function ItemFieldsOk(): Check<ItemFields> {
    PairOk(UOk(4), PairOk(HashOk(), PairOk(UOk(8), PairOk(UOk(8),
    PairOk(UOk(2), PairOk(BlobOk(), PairOk(SeqOk(ImportOk()), SeqOk(ExtrinsicOk()))))))))
  }

  lemma ItemFieldsLaw()
    ensures Law(ItemFieldsR(), ItemFieldsW(), ItemFieldsOk())
  {
    HashLaw();
    URLaw(4);
    URLaw(8);
    URLaw(2);
    BlobRLaw();
    ImportLaw();
    ExtrinsicLaw();
    SeqRLaw(ImportR(), ImportW(), ImportOk());
    SeqRLaw(ExtrinsicR(), ExtrinsicW(), ExtrinsicOk());
    PairLaw(SeqR(ImportR()), SeqW(ImportW()), SeqOk(ImportOk()), SeqR(ExtrinsicR()), SeqW(ExtrinsicW()),
            SeqOk(ExtrinsicOk()));
    var r1, w1, k1 := PairR(SeqR(ImportR()), SeqR(ExtrinsicR())), PairW(SeqW(ImportW()), SeqW(ExtrinsicW())),
                      PairOk(SeqOk(ImportOk()), SeqOk(ExtrinsicOk()));
    PairLaw(BlobR(), BlobW(), BlobOk(), r1, w1, k1);
    var r2, w2, k2 := PairR(BlobR(), r1), PairW(BlobW(), w1), PairOk(BlobOk(), k1);
    PairLaw(UR(2), UW(2), UOk(2), r2, w2, k2);
    var r3, w3, k3 := PairR(UR(2), r2), PairW(UW(2), w2), PairOk(UOk(2), k2);
    PairLaw(UR(8), UW(8), UOk(8), r3, w3, k3);
    var r4, w4, k4 := PairR(UR(8), r3), PairW(UW(8), w3), PairOk(UOk(8), k3);
    PairLaw(UR(8), UW(8), UOk(8), r4, w4, k4);
    var r5, w5, k5 := PairR(UR(8), r4), PairW(UW(8), w4), PairOk(UOk(8), k4);
    PairLaw(HashR(), HashW(), HashOk(), r5, w5, k5);
    PairLaw(UR(4), UW(4), UOk(4), PairR(HashR(), r5), PairW(HashW(), w5), PairOk(HashOk(), k5));
  }

  function ItemOk(): Check<Item> {
    (w: Item) =>
      && Fits(w.service, 4) && |w.codeHash| == 32 && Fits(w.refineGas, 8) && Fits(w.accumulateGas, 8)
      && Fits(w.exportCount, 2)
      && |w.payload| < LIMIT
      && |w.imports| < LIMIT && (forall k | 0 <= k < |w.imports| :: ImportOk()(w.imports[k]))
      && |w.extrinsics| < LIMIT && (forall k | 0 <= k < |w.extrinsics| :: ExtrinsicOk()(w.extrinsics[k]))
  }

  /** On the wire the gas limits and the export count come before the payload. */
  function ItemW(): Writer<Item> {
    (w: Item) =>
      if !ItemOk()(w) then []
      else
        ToLE(w.service, 4) + (w.codeHash + (ToLE(w.refineGas, 8) + (ToLE(w.accumulateGas, 8) + (ToLE(w.exportCount, 2) +
        (Var(w.payload) + (WriteSeq(ImportW(), w.imports) + WriteSeq(ExtrinsicW(), w.extrinsics)))))))
  }

  function ItemR(): Reader<Item> { MapR(ItemFieldsR(), ItemOf()) }

  lemma ItemWrites(w: Item)
    ensures ItemOk()(w) == ItemFieldsOk()(FieldsOfItem()(w))
    ensures ItemOk()(w) ==> ItemW()(w) == ItemFieldsW()(FieldsOfItem()(w))
  {
  }

  lemma ItemLaw()
    ensures Law(ItemR(), ItemW(), ItemOk())
  {
    ItemFieldsLaw();
    forall w
      ensures ItemOk()(w) == ItemFieldsOk()(FieldsOfItem()(w))
      ensures ItemOk()(w) ==> ItemW()(w) == ItemFieldsW()(FieldsOfItem()(w))
    {
      ItemWrites(w);
    }
    RecordLaw(ItemFieldsR(), ItemFieldsW(), ItemFieldsOk(), ItemOf(), FieldsOfItem(), ItemW(), ItemOk());
  }

  // ---- packages ----

  datatype Package = Package(host: int, codeHash: Bytes, context: Context, items: seq<Item>, token: Bytes,
                             config: Bytes)

  type PackageFields = (int, (Bytes, (Context, (Bytes, (Bytes, seq<Item>)))))

  function PackageOf(): PackageFields -> Package {
    (t: PackageFields) => Package(t.0, t.1.0, t.1.1.0, t.1.1.1.1.1, t.1.1.1.0, t.1.1.1.1.0)
  }
  function FieldsOfPackage(): Package -> PackageFields {
    (p: Package) => (p.host, (p.codeHash, (p.context, (p.token, (p.config, p.items)))))
  }

  function PackageFieldsR(): Reader<PackageFields> {
    PairR(UR(4), PairR(HashR(), PairR(ContextR(), PairR(BlobR(), PairR(BlobR(), SeqR(ItemR()))))))
  }
  function PackageFieldsW(): Writer<PackageFields> {
    PairW(UW(4), PairW(HashW(), PairW(ContextW(), PairW(BlobW(), PairW(BlobW(), SeqW(ItemW()))))))
  }
  function PackageFieldsOk(): Check<PackageFields> {
    PairOk(UOk(4), PairOk(HashOk(), PairOk(ContextOk(), PairOk(BlobOk(), PairOk(BlobOk(), SeqOk(ItemOk()))))))
  }

  lemma PackageFieldsLaw()
    ensures Law(PackageFieldsR(), PackageFieldsW(), PackageFieldsOk())
  {
    HashLaw();
    URLaw(4);
    BlobRLaw();
    ContextLaw();
    ItemLaw();
    SeqRLaw(ItemR(), ItemW(), ItemOk());
    PairLaw(BlobR(), BlobW(), BlobOk(), SeqR(ItemR()), SeqW(ItemW()), SeqOk(ItemOk()));
    var r1, w1, k1 := PairR(BlobR(), SeqR(ItemR())), PairW(BlobW(), SeqW(ItemW())), PairOk(BlobOk(), SeqOk(ItemOk()));
    PairLaw(BlobR(), BlobW(), BlobOk(), r1, w1, k1);
    var r2, w2, k2 := PairR(BlobR(), r1), PairW(BlobW(), w1), PairOk(BlobOk(), k1);
    PairLaw(ContextR(), ContextW(), ContextOk(), r2, w2, k2);
    var r3, w3, k3 := PairR(ContextR(), r2), PairW(ContextW(), w2), PairOk(ContextOk(), k2);
    PairLaw(HashR(), HashW(), HashOk(), r3, w3, k3);
    PairLaw(UR(4), UW(4), UOk(4), PairR(HashR(), r3), PairW(HashW(), w3), PairOk(HashOk(), k3));
  }

  function PackageOk(): Check<Package> {
    (p: Package) =>
      && Fits(p.host, 4) && |p.codeHash| == 32 && ContextOk()(p.context) && |p.token| < LIMIT && |p.config| < LIMIT
      && |p.items| < LIMIT && (forall k | 0 <= k < |p.items| :: ItemOk()(p.items[k]))
  }

  /** The package with its prerequisites in the order they stand, and any number of items. */
  function PackageW(): Writer<Package> {
    (p: Package) =>
      if !PackageOk()(p) then []
      else
        assert Fits(p.host, 4);
        ToLE(p.host, 4) +
          (p.codeHash + (ContextW()(p.context) + (Var(p.token) + (Var(p.config) + WriteSeq(ItemW(), p.items)))))
  }

  function PackageR(): Reader<Package> { MapR(PackageFieldsR(), PackageOf()) }

  lemma PackageWrites(p: Package)
    ensures PackageOk()(p) == PackageFieldsOk()(FieldsOfPackage()(p))
    ensures PackageOk()(p) ==> PackageW()(p) == PackageFieldsW()(FieldsOfPackage()(p))
  {
  }

  lemma PackageLaw()
    ensures Law(PackageR(), PackageW(), PackageOk())
  {
    PackageFieldsLaw();
    forall p
      ensures PackageOk()(p) == PackageFieldsOk()(FieldsOfPackage()(p))
      ensures PackageOk()(p) ==> PackageW()(p) == PackageFieldsW()(FieldsOfPackage()(p))
    {
      PackageWrites(p);
    }
    RecordLaw(PackageFieldsR(), PackageFieldsW(), PackageFieldsOk(), PackageOf(), FieldsOfPackage(), PackageW(),
              PackageOk());
  }

  // ---- the order of prerequisites ----

  /** Octet strings compare lexicographically. */
  predicate LexLe(a: Bytes, b: Bytes) {
    if a == [] then true
    else if b == [] then false
    else a[0] < b[0] || (a[0] == b[0] && LexLe(a[1..], b[1..]))
  }

  function ByOctets(): (Bytes, Bytes) -> bool { (a: Bytes, b: Bytes) => LexLe(a, b) }

  lemma {:induction false} LexTotal(a: Bytes, b: Bytes)
    ensures LexLe(a, b) || LexLe(b, a)
    ensures LexLe(a, b) && LexLe(b, a) ==> a == b
    decreases |a|
  {
    if a != [] && b != [] {
      LexTotal(a[1..], b[1..]);
      assert a == [a[0]] + a[1..] && b == [b[0]] + b[1..];
    }
  }

  lemma {:induction false} LexTransitive(a: Bytes, b: Bytes, c: Bytes)
    requires LexLe(a, b) && LexLe(b, c)
    ensures LexLe(a, c)
    decreases |a|
  {
    if a != [] && b != [] && c != [] && a[0] == b[0] == c[0] {
      LexTransitive(a[1..], b[1..], c[1..]);
    }
  }

  lemma ByOctetsOrders()
    ensures TotalPreorder(ByOctets())
    ensures forall a, b :: ByOctets()(a, b) && ByOctets()(b, a) ==> a == b
  {
    forall a, b
      ensures ByOctets()(a, b) || ByOctets()(b, a)
      ensures ByOctets()(a, b) && ByOctets()(b, a) ==> a == b
    {
      LexTotal(a, b);
    }
    forall a, b, c ensures ByOctets()(a, b) && ByOctets()(b, c) ==> ByOctets()(a, c) {
      if LexLe(a, b) && LexLe(b, c) {
        LexTransitive(a, b, c);
      }
    }
  }

  ghost predicate Ordered(p: Package) { SortedBy(p.context.prerequisites, ByOctets()) }

  /** The prerequisites are a set: they are written in octet order. */
  function Arranged(p: Package): Package {
    p.(context := p.context.(prerequisites := Sort(p.context.prerequisites, ByOctets())))
  }

  lemma ArrangedOk(p: Package)
    ensures PackageOk()(Arranged(p)) == PackageOk()(p)
  {
    var a, b := p.context.prerequisites, Sort(p.context.prerequisites, ByOctets());
    forall x ensures x in a <==> x in b {
      SortMember(a, ByOctets(), x);
    }
    assert (forall k | 0 <= k < |a| :: |a[k]| == 32) <==> (forall x | x in a :: |x| == 32);
    assert (forall k | 0 <= k < |b| :: |b[k]| == 32) <==> (forall x | x in b :: |x| == 32);
    assert ContextOk()(Arranged(p).context) == ContextOk()(p.context);
  }

  lemma OrderedIffArranged(p: Package)
    ensures Ordered(p) <==> Arranged(p) == p
  {
    var a := p.context.prerequisites;
    ByOctetsOrders();
    SortSorted(a, ByOctets());
    if Ordered(p) {
      SortedUnique(a, Sort(a, ByOctets()), ByOctets());
    }
  }

  // ---- encoding and decoding ----

  /** A package without items, or with a field out of range, is refused. */
  function Encode(p: Package): Option<Bytes> {
    if p.items == [] || !PackageOk()(p) then None else Some(PackageW()(Arranged(p)))
  }

  function Decode(b: Bytes): Option<Package> {
    var r := PackageR()(b, 0);
    if r.Done? && r.next == |b| then Some(r.value) else None
  }

  /** The decoder accepts exactly what some well-formed package writes, and names that package. */
  lemma DecodeIffWrites(b: Bytes, p: Package)
    ensures Decode(b) == Some(p) <==> PackageOk()(p) && b == PackageW()(p)
  {
    var r := PackageR()(b, 0);
    DecodesAt(b, p, |b|);
    assert b[0..|b|] == b;
    if At(b, 0, PackageW()(p)) && |b| == |PackageW()(p)| {
      assert b[0..|PackageW()(p)|] == b;
    }
  }

  lemma DecodesAt(b: Bytes, p: Package, j: nat)
    ensures PackageR()(b, 0) == Done(p, j) <==> PackageOk()(p) && At(b, 0, PackageW()(p)) && j == |PackageW()(p)|
  {
    PackageLaw();
    LawAt(PackageR(), PackageW(), PackageOk(), b, 0, p, j);
  }

  /** What is encoded decodes to the same package with its prerequisites in order: to itself,
      exactly when they were. */
  lemma EncodedDecodes(p: Package, b: Bytes)
    requires Encode(p) == Some(b)
    ensures Decode(b) == Some(Arranged(p))
    ensures Decode(b) == Some(p) <==> Ordered(p)
  {
    ArrangedOk(p);
    DecodeIffWrites(b, Arranged(p));
    OrderedIffArranged(p);
  }

  /** What decodes encodes to the same octets, exactly when it has an item and its prerequisites
      are in order. */
  lemma DecodedEncodes(b: Bytes, p: Package)
    requires Decode(b) == Some(p)
    ensures Encode(p) == Some(b) <==> p.items != [] && Ordered(p)
  {
    DecodeIffWrites(b, p);
    ArrangedOk(p);
    DecodeIffWrites(b, Arranged(p));
    OrderedIffArranged(p);
  }

  // ---- prerequisites out of order ----

  function Hash32(b: Byte): Bytes { seq(32, i => b) }

  /** A package whose two prerequisites stand in the wrong order, with the given items. */
  function Unsorted(items: seq<Item>): Package {
    var h := Hash32(0);
    Package(0, h, Context(h, 0, h, h, h, 0, h, [Hash32(1), Hash32(0)]), items, [], [])
  }

  lemma UnsortedIs(items: seq<Item>)
    ensures !Ordered(Unsorted(items))
  {
    var q := Unsorted(items).context.prerequisites;
    assert !LexLe(q[0], q[1]);
    assert !ByOctets()(q[0], q[1]);
  }

  /** Neither round trip holds of it: its encoding decodes to something else, and the octets
      written in its own order decode to it but encode differently. */
  lemma UnsortedBreaks(item: Item)
    requires ItemOk()(item)
    ensures var p := Unsorted([item]);
            && Encode(p).Some? && Decode(Encode(p).value) != Some(p)
            && Decode(PackageW()(p)) == Some(p) && Encode(p) != Some(PackageW()(p))
  {
    var p := Unsorted([item]);
    UnsortedIs([item]);
    assert ContextOk()(p.context);
    assert PackageOk()(p);
    EncodedDecodes(p, Encode(p).value);
    DecodeIffWrites(PackageW()(p), p);
    DecodedEncodes(PackageW()(p), p);
  }

  /** Nor does the second of a package without items: it decodes, and is refused by the encoder. */
  lemma EmptyBreaks()
    ensures var p := Arranged(Unsorted([])); Decode(PackageW()(p)) == Some(p) && Encode(p) == None
  {
    var p := Unsorted([]);
    assert ContextOk()(p.context);
    assert PackageOk()(p);
    ArrangedOk(p);
    DecodeIffWrites(PackageW()(Arranged(p)), Arranged(p));
  }
}

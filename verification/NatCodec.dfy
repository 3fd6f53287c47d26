/** Octet strings and the general natural serialization of the Gray Paper (0.8.0, appendix C):
    1 to 9 octets for every natural below 2^64. */
module NatCodec {
  import opened Sequences

  type Byte = x: int | 0 <= x < 256
  type Bytes = seq<Byte>

  // ---- little-endian numbers ----

  function Pow256(n: nat): (p: nat)
    ensures p > 0
  {
    if n == 0 then 1 else 256 * Pow256(n - 1)
  }

  function FromLE(bs: Bytes): nat { if bs == [] then 0 else bs[0] + 256 * FromLE(bs[1..]) }

  function ToLE(x: nat, n: nat): (bs: Bytes)
    ensures |bs| == n
  {
    if n == 0 then [] else [x % 256] + ToLE(x / 256, n - 1)
  }

  lemma {:induction false} FromToLE(x: nat, n: nat)
    requires x < Pow256(n)
    ensures FromLE(ToLE(x, n)) == x
  {
    if n == 0 {
    } else {
      FromToLE(x / 256, n - 1);
    }
  }

  lemma LowOctet(b: Byte, v: nat)
    ensures (b + 256 * v) % 256 == b && (b + 256 * v) / 256 == v
  {
  }

  lemma {:induction false} ToFromLE(bs: Bytes)
    ensures FromLE(bs) < Pow256(|bs|) && ToLE(FromLE(bs), |bs|) == bs
  {
    if bs == [] {
    } else {
      ToFromLE(bs[1..]);
      LowOctet(bs[0], FromLE(bs[1..]));
      assert bs == [bs[0]] + bs[1..];
    }
  }

  // ---- finding an encoding in a buffer ----

  /** The octets `bs` stand at offset `i` of the buffer. */
  predicate At(buf: Bytes, i: nat, bs: Bytes) { i + |bs| <= |buf| && buf[i..i + |bs|] == bs }

  lemma AtConcat(buf: Bytes, i: nat, a: Bytes, b: Bytes)
    ensures At(buf, i, a + b) <==> At(buf, i, a) && At(buf, i + |a|, b)
  {
    if i + |a| + |b| <= |buf| {
      var whole := buf[i..i + |a| + |b|];
      assert whole[..|a|] == buf[i..i + |a|] && whole[|a|..] == buf[i + |a|..i + |a| + |b|];
      assert whole == whole[..|a|] + whole[|a|..];
      assert (a + b)[..|a|] == a && (a + b)[|a|..] == b;
    }
  }

  // ---- naturals ----

  const LIMIT: nat := 0x1_0000_0000_0000_0000

  /** How many octets follow the first. */
  function Octets(x: nat): (l: nat)
    ensures l <= 8
  {
    if x < 0x80 then 0 else if x < 0x4000 then 1 else if x < 0x20_0000 then 2 else if x < 0x1000_0000 then 3
    else if x < 0x8_0000_0000 then 4 else if x < 0x400_0000_0000 then 5 else if x < 0x2_0000_0000_0000 then 6
    else if x < 0x100_0000_0000_0000 then 7 else 8
  }

  function Pow2(n: nat): (p: nat)
    ensures p > 0
  {
    if n == 0 then 1 else 2 * Pow2(n - 1)
  }

  /** The first octet's length prefix: `l` ones, then a zero. */
  function Lead(l: nat): nat
    requires l <= 8
  {
    Powers();
    if l == 8 then 255 else 256 - Pow2(8 - l)
  }

  lemma Powers()
    ensures Pow2(0) == 1 && Pow2(1) == 2 && Pow2(2) == 4 && Pow2(3) == 8 && Pow2(4) == 16
    ensures Pow2(5) == 32 && Pow2(6) == 64 && Pow2(7) == 128 && Pow2(8) == 256
    ensures Pow256(0) == 1 && Pow256(1) == 0x100 && Pow256(2) == 0x1_0000 && Pow256(3) == 0x100_0000
    ensures Pow256(4) == 0x1_0000_0000 && Pow256(5) == 0x100_0000_0000 && Pow256(6) == 0x1_0000_0000_0000
    ensures Pow256(7) == 0x100_0000_0000_0000 && Pow256(8) == LIMIT
  {
    assert Pow2(4) == 16 && Pow256(4) == 0x1_0000_0000;
  }

  lemma LeadFits(x: nat)
    requires x < LIMIT
    ensures var l := Octets(x); l < 8 ==> 0 <= x / Pow256(l) < Pow2(7 - l) && Lead(l) + x / Pow256(l) < 256
  {
    Powers();
  }

  /** The encoding of a natural in range. */
  function Enc(x: nat): (bs: Bytes)
    requires x < LIMIT
    ensures |bs| == Octets(x) + 1
  {
    var l := Octets(x);
    if l == 8 then [255] + ToLE(x, 8)
    else
      LeadFits(x);
      [Lead(l) + x / Pow256(l)] + ToLE(x % Pow256(l), l)
  }

  /** Leading one bits of an octet. */
  function Ones(b: Byte): (l: nat)
    ensures l <= 8
  {
    if b < 128 then 0 else if b < 192 then 1 else if b < 224 then 2 else if b < 240 then 3
    else if b < 248 then 4 else if b < 252 then 5 else if b < 254 then 6 else if b < 255 then 7 else 8
  }

  datatype Nat = Bad | Nat(x: nat, next: nat)

  /** The number the octets at `i` stand for, canonical or not. */
  function Value(buf: Bytes, i: nat): nat
    requires i < |buf| && i + 1 + Ones(buf[i]) <= |buf|
  {
    var l := Ones(buf[i]);
    FromLE(buf[i + 1..i + 1 + l]) + HighPart(buf[i], l)
  }

  /** What the first octet adds above the `l` octets that follow it. */
  function HighPart(b: Byte, l: nat): nat
    requires l <= 8
  {
    if l == 8 then 0 else (b % Pow2(7 - l)) * Pow256(l)
  }

  lemma ValueFits(buf: Bytes, i: nat)
    requires i < |buf| && i + 1 + Ones(buf[i]) <= |buf|
    ensures Value(buf, i) < LIMIT
  {
    var l := Ones(buf[i]);
    ToFromLE(buf[i + 1..i + 1 + l]);
    Powers();
  }

  /** Decode at offset `i`: refuses a truncated or a non-canonical natural. */
  function DecNat(buf: Bytes, i: nat): Nat {
    if i >= |buf| then Bad
    else
      var l := Ones(buf[i]);
      if i + 1 + l > |buf| then Bad
      else
        ValueFits(buf, i);
        var x := Value(buf, i);
        if Enc(x) != buf[i..i + 1 + l] then Bad else Nat(x, i + 1 + l)
  }

  // ---- the round trip ----

  lemma OnesOfLead(l: nat, h: nat)
    requires l < 8 && h < Pow2(7 - l)
    ensures Lead(l) + h < 256 && Ones(Lead(l) + h) == l && (Lead(l) + h) % Pow2(7 - l) == h
  {
    Powers();
  }

  /** The octets of an encoding: its length is told by the first, its number by all. */
  lemma EncReads(x: nat)
    requires x < LIMIT
    ensures var l, e := Octets(x), Enc(x);
            Ones(e[0]) == l && x == FromLE(e[1..]) + HighPart(e[0], l)
  {
    var l, e := Octets(x), Enc(x);
    if l == 8 {
      Powers();
      assert e[1..] == ToLE(x, 8);
      FromToLE(x, 8);
    } else {
      LeadFits(x);
      assert e[1..] == ToLE(x % Pow256(l), l);
      OnesOfLead(l, x / Pow256(l));
      FromToLE(x % Pow256(l), l);
      QuotientBack(x, Pow256(l));
    }
  }

  lemma QuotientBack(x: nat, w: nat)
    requires w > 0
    ensures x == x % w + (x / w) * w
  {
  }

  /** An encoding in the buffer decodes to its number and the offset after it. */
  lemma DecOfEnc(buf: Bytes, i: nat, x: nat)
    requires x < LIMIT && At(buf, i, Enc(x))
    ensures DecNat(buf, i) == Nat(x, i + |Enc(x)|)
  {
    var l, e := Octets(x), Enc(x);
    EncReads(x);
    assert buf[i] == buf[i..i + 1 + l][0] == e[0];
    assert buf[i + 1..i + 1 + l] == buf[i..i + 1 + l][1..] == e[1..];
    assert Value(buf, i) == x;
  }

  /** The decoder accepts exactly the canonical encodings, at any offset. */
  lemma DecIffEnc(buf: Bytes, i: nat, x: nat, j: nat)
    ensures DecNat(buf, i) == Nat(x, j) <==> x < LIMIT && At(buf, i, Enc(x)) && j == i + |Enc(x)|
  {
    if x < LIMIT && At(buf, i, Enc(x)) {
      DecOfEnc(buf, i, x);
    }
    if DecNat(buf, i) == Nat(x, j) {
      ValueFits(buf, i);
    }
  }

  /** No encoding is the beginning of another. */
  lemma PrefixFree(x: nat, y: nat)
    requires x < LIMIT && y < LIMIT && Enc(x) <= Enc(y)
    ensures x == y
  {
    assert At(Enc(y), 0, Enc(x)) && At(Enc(y), 0, Enc(y));
    DecOfEnc(Enc(y), 0, x);
    DecOfEnc(Enc(y), 0, y);
  }

  /** The encoding as it is computed: the first length that fits. */
  method EncNat(x: int) returns (r: Option<Bytes>)
    ensures r == if 0 <= x < LIMIT then Some(Enc(x)) else None
  {
    if x < 0 || x >= LIMIT {
      return None;
    }
    Powers();
    var l := 0;
    while l < 8
      invariant 0 <= l <= 8 && l <= Octets(x)
    {
      Thresholds(x, l);
      if x < Pow2(7 * (l + 1)) {
        LeadFits(x);
        return Some([256 - Pow2(8 - l) + x / Pow256(l)] + ToLE(x % Pow256(l), l));
      }
      l := l + 1;
    }
    r := Some([255] + ToLE(x, 8));
  }

  lemma Thresholds(x: nat, l: nat)
    requires l < 8
    ensures x < Pow2(7 * (l + 1)) <==> Octets(x) <= l
  {
    SevenBits(l);
  }

  lemma SevenMore(n: nat)
    ensures Pow2(n + 7) == 0x80 * Pow2(n)
  {
    assert Pow2(n + 7) == 2 * Pow2(n + 6) == 4 * Pow2(n + 5) == 8 * Pow2(n + 4) == 16 * Pow2(n + 3) ==
      32 * Pow2(n + 2) == 64 * Pow2(n + 1);
  }

  lemma SevenBits(l: nat)
    requires l < 8
    ensures Pow2(7 * (l + 1)) == [0x80, 0x4000, 0x20_0000, 0x1000_0000, 0x8_0000_0000, 0x400_0000_0000,
                                  0x2_0000_0000_0000, 0x100_0000_0000_0000][l]
  {
    SevenMore(7 * l);
    if l == 0 {
    } else {
      SevenBits(l - 1);
    }
  }

  /** Bit `n` of an octet, the highest first. */
  predicate Bit(b: Byte, n: nat)
    requires n < 8
  {
    (b / Pow2(7 - n)) % 2 == 1
  }

  lemma OnesByBits(b: Byte, n: nat)
    requires n < 8 && n <= Ones(b)
    ensures Bit(b, n) <==> Ones(b) > n
  {
    Powers();
  }

  method CountOnes(b: Byte) returns (l: nat)
    ensures l == Ones(b)
  {
    l := 0;
    while l < 8 && Bit(b, l)
      invariant l <= 8 && l <= Ones(b)
    {
      OnesByBits(b, l);
      l := l + 1;
    }
    if l < 8 {
      OnesByBits(b, l);
    }
  }

  /** The decoder as it runs: count the leading ones, read, then check by encoding again. */
  method Decode(buf: Bytes, i: nat) returns (r: Nat)
    ensures r == DecNat(buf, i)
  {
    if i >= |buf| {
      return Bad;
    }
    var b := buf[i];
    var l := CountOnes(b);
    if i + 1 + l > |buf| {
      return Bad;
    }
    var x := FromLE(buf[i + 1..i + 1 + l]) + HighPart(b, l);
    ValueFits(buf, i);
    var again := EncNat(x);
    if again != Some(buf[i..i + 1 + l]) {
      return Bad;
    }
    r := Nat(x, i + 1 + l);
  }

  // ---- the network watcher's own decoder ----

  function BitLength(v: nat): nat { if v == 0 then 0 else 1 + BitLength(v / 2) }

  /** It neither asks for a canonical encoding nor, after eight ones, for all eight octets. */
  function DecodeNat(buf: Bytes, i: nat): Nat {
    if i >= |buf| then Bad
    else
      var n := 8 - BitLength(255 - buf[i]);
      if n == 8 then Nat(FromLE(buf[i + 1..Min(i + 9, |buf|)]), i + 9)
      else if n < 0 || i + 1 + n > |buf| then Bad
      else Nat(HighPart(buf[i], n) + FromLE(buf[i + 1..i + 1 + n]), i + 1 + n)
  }

  lemma OnesByLength(b: Byte)
    ensures 8 - BitLength(255 - b) == Ones(b)
  {
    Powers();
    LengthIs(255 - b, 8 - Ones(b));
  }

  lemma {:induction false} LengthIs(v: nat, k: nat)
    requires if k == 0 then v == 0 else Pow2(k - 1) <= v < Pow2(k)
    ensures BitLength(v) == k
  {
    if k == 0 {
    } else {
      LengthIs(v / 2, k - 1);
    }
  }

  /** The two decoders agree wherever the strict one succeeds. */
  lemma StrictImpliesLenient(buf: Bytes, i: nat)
    requires DecNat(buf, i) != Bad
    ensures DecodeNat(buf, i) == DecNat(buf, i)
  {
    OnesByLength(buf[i]);
    ValueFits(buf, i);
  }

  /** The lenient decoder's answer is the strict one's exactly when its octets are all there and
      canonical; otherwise the strict one refuses them. */
  lemma DecodersAgree(buf: Bytes, i: nat)
    requires DecodeNat(buf, i) != Bad
    ensures var d := DecodeNat(buf, i);
            DecNat(buf, i) == if d.next <= |buf| && d.x < LIMIT && Enc(d.x) == buf[i..d.next] then d else Bad
  {
    var d := DecodeNat(buf, i);
    if d.next <= |buf| && d.x < LIMIT && Enc(d.x) == buf[i..d.next] {
      OnesByLength(buf[i]);
      DecOfEnc(buf, i, d.x);
    } else if DecNat(buf, i) != Bad {
      StrictImpliesLenient(buf, i);
      DecIffEnc(buf, i, d.x, d.next);
    }
  }

  /** Where they differ: a padded zero, and eight ones with nothing behind them. */
  lemma DecodersDiffer()
    ensures DecNat([0x80, 0x00], 0) == Bad && DecodeNat([0x80, 0x00], 0) == Nat(0, 2)
    ensures DecNat([0xFF], 0) == Bad && DecodeNat([0xFF], 0) == Nat(0, 9)
  {
    LenientZero();
    DecodersAgree([0x80, 0x00], 0);
    DecodersAgree([0xFF], 0);
  }

  lemma LenientZero()
    ensures DecodeNat([0x80, 0x00], 0) == Nat(0, 2) && DecodeNat([0xFF], 0) == Nat(0, 9)
  {
    OnesByLength(0x80);
    OnesByLength(0xFF);
    Powers();
    assert [0x80, 0x00][1..2] == [0x00];
    assert FromLE([0x00]) == 0 && FromLE([]) == 0;
  }
}

/** WebSocket frames on the wire (sections 5.2 to 5.5 of RFC 6455), and the masking of payloads. */
module Frames {
  import opened Sequences
  import opened NatCodec

  // ---- big-endian numbers ----

  function FromBE(bs: Bytes): nat { if bs == [] then 0 else 256 * FromBE(bs[..|bs|-1]) + bs[|bs|-1] }

  function ToBE(x: nat, n: nat): (bs: Bytes)
    ensures |bs| == n
  {
    if n == 0 then [] else ToBE(x / 256, n - 1) + [x % 256]
  }

  lemma {:induction false} FromToBE(x: nat, n: nat)
    requires x < Pow256(n)
    ensures FromBE(ToBE(x, n)) == x
  {
    if n == 0 {
    } else {
      FromToBE(x / 256, n - 1);
      assert ToBE(x, n)[..n-1] == ToBE(x / 256, n - 1);
    }
  }

  lemma {:induction false} ToFromBE(bs: Bytes)
    ensures FromBE(bs) < Pow256(|bs|) && ToBE(FromBE(bs), |bs|) == bs
  {
    if bs == [] {
    } else {
      var front := bs[..|bs|-1];
      ToFromBE(front);
      LowOctet(bs[|bs|-1], FromBE(front));
      assert bs == front + [bs[|bs|-1]];
    }
  }

  // ---- exclusive or ----

  /** Exclusive or of two numbers, bit by bit. */
  function Xor(a: nat, b: nat): nat {
    if a == 0 && b == 0 then 0 else (a + b) % 2 + 2 * Xor(a / 2, b / 2)
  }

  lemma XorStep(a: nat, b: nat)
    ensures Xor(a, b) == (a + b) % 2 + 2 * Xor(a / 2, b / 2)
  {
  }

  lemma {:induction false} XorBound(a: nat, b: nat, k: nat)
    requires a < Pow2(k) && b < Pow2(k)
    ensures Xor(a, b) < Pow2(k)
  {
    if k == 0 {
    } else {
      XorBound(a / 2, b / 2, k - 1);
      XorStep(a, b);
    }
  }

  /** The last bit of an exclusive or, and the rest of it. */
  lemma XorHalves(a: nat, b: nat)
    ensures Xor(a, b) % 2 == (a + b) % 2 && Xor(a, b) / 2 == Xor(a / 2, b / 2)
  {
    XorStep(a, b);
    LastBit(Xor(a, b), (a + b) % 2, Xor(a / 2, b / 2));
  }

  lemma LastBit(c: nat, d: nat, x: nat)
    requires d < 2 && c == d + 2 * x
    ensures c % 2 == d && c / 2 == x
  {
  }

  lemma Parity(a: nat, b: nat, c: nat)
    requires c % 2 == (a + b) % 2
    ensures (c + b) % 2 == a % 2
  {
  }

  lemma {:induction false} XorUndone(a: nat, b: nat)
    ensures Xor(Xor(a, b), b) == a
    decreases a + b
  {
    if a == 0 && b == 0 {
    } else {
      var c := Xor(a, b);
      XorUndone(a / 2, b / 2);
      XorHalves(a, b);
      XorHalves(c, b);
      Parity(a, b, c);
    }
  }

  lemma Halved(m: nat, a: nat)
    ensures (2 * m + a) / 2 == m + a / 2 && (2 * m + a) % 2 == a % 2
  {
  }

  lemma SameParity(p: nat, q: nat, a: nat, b: nat)
    requires p % 2 == a % 2 && q % 2 == b % 2
    ensures (p + q) % 2 == (a + b) % 2
  {
    Halved(p / 2 + q / 2, p % 2 + q % 2);
    Halved(a / 2 + b / 2, a % 2 + b % 2);
  }

  /** The last bits of two numbers, and what is left of them. */
  lemma XorLast(p: nat, q: nat, a: nat, b: nat, r: nat)
    requires Xor(p / 2, q / 2) == r + Xor(a / 2, b / 2) && p % 2 == a % 2 && q % 2 == b % 2
    ensures Xor(p, q) == 2 * r + Xor(a, b)
  {
    XorStep(p, q);
    XorStep(a, b);
    SameParity(p, q, a, b);
  }

  /** `x` with `k` more bits on its right. */
  function Shift(x: nat, k: nat): nat { if k == 0 then x else 2 * Shift(x, k - 1) }

  /** Numbers side by side are combined side by side. */
  lemma {:induction false} XorParts(x: nat, a: nat, y: nat, b: nat, k: nat)
    requires a < Pow2(k) && b < Pow2(k)
    ensures Xor(Shift(x, k) + a, Shift(y, k) + b) == Shift(Xor(x, y), k) + Xor(a, b)
  {
    if k == 0 {
      assert a == 0 && b == 0;
    } else {
      var m, n, r := Shift(x, k - 1), Shift(y, k - 1), Shift(Xor(x, y), k - 1);
      XorParts(x, a / 2, y, b / 2, k - 1);
      Halved(m, a);
      Halved(n, b);
      XorLast(2 * m + a, 2 * n + b, a, b, r);
    }
  }

  lemma ShiftOctet(x: nat)
    ensures Shift(x, 8) == 256 * x
  {
    assert Shift(x, 1) == 2 * x;
    assert Shift(x, 3) == 8 * x;
    assert Shift(x, 5) == 32 * x;
    assert Shift(x, 7) == 128 * x;
  }

  lemma XorOctets(x: nat, a: nat, y: nat, b: nat)
    requires a < 256 && b < 256
    ensures Xor(256 * x + a, 256 * y + b) == 256 * Xor(x, y) + Xor(a, b)
  {
    Powers();
    XorParts(x, a, y, b, 8);
    ShiftOctet(x);
    ShiftOctet(y);
    ShiftOctet(Xor(x, y));
  }

  // ---- masking ----

  function XorByte(a: Byte, b: Byte): Byte {
    Powers();
    XorBound(a, b, 8);
    Xor(a, b)
  }

  /** Each octet of the payload meets the octet of the mask at its position modulo four. */
  function Masked(data: Bytes, mask: Bytes): (r: Bytes)
    requires |mask| == 4
    ensures |r| == |data|
  {
    seq(|data|, i requires 0 <= i < |data| => XorByte(data[i], mask[i % 4]))
  }

  /** Unmasking is masking again. */
  lemma MaskedTwice(data: Bytes, mask: Bytes)
    requires |mask| == 4
    ensures Masked(Masked(data, mask), mask) == data
  {
    forall i | 0 <= i < |data| ensures Masked(Masked(data, mask), mask)[i] == data[i] {
      XorUndone(data[i], mask[i % 4]);
    }
  }

  function Repeat(bs: Bytes, n: nat): Bytes { if n == 0 then [] else Repeat(bs, n - 1) + bs }

  lemma {:induction false} RepeatAt(mask: Bytes, n: nat)
    requires |mask| == 4
    ensures |Repeat(mask, n)| == 4 * n
    ensures forall i | 0 <= i < 4 * n :: Repeat(mask, n)[i] == mask[i % 4]
  {
    if n == 0 {
    } else {
      RepeatAt(mask, n - 1);
    }
  }

  function Bytewise(a: Bytes, b: Bytes): (r: Bytes)
    requires |a| == |b|
    ensures |r| == |a|
  {
    seq(|a|, i requires 0 <= i < |a| => XorByte(a[i], b[i]))
  }

  /** One exclusive or of two whole strings read as numbers is the octetwise one. */
  lemma {:induction false} XorStrings(a: Bytes, b: Bytes)
    requires |a| == |b|
    ensures Xor(FromBE(a), FromBE(b)) == FromBE(Bytewise(a, b))
  {
    if a == [] {
    } else {
      var n := |a| - 1;
      XorStrings(a[..n], b[..n]);
      XorOctets(FromBE(a[..n]), a[n], FromBE(b[..n]), b[n]);
      assert Bytewise(a, b)[..n] == Bytewise(a[..n], b[..n]);
    }
  }

  /** The mask as it is applied: two big numbers, one exclusive or, and back. */
  function MaskedFast(data: Bytes, mask: Bytes): Bytes
    requires |mask| == 4
  {
    var n := |data|;
    if n == 0 then []
    else
      RepeatAt(mask, n / 4 + 1);
      ToBE(Xor(FromBE(data), FromBE(Repeat(mask, n / 4 + 1)[..n])), n)
  }

  /** The fast mask is the octetwise one. */
  lemma FastIsMasked(data: Bytes, mask: Bytes)
    requires |mask| == 4
    ensures MaskedFast(data, mask) == Masked(data, mask)
  {
    if data != [] {
      RepeatAt(mask, |data| / 4 + 1);
      var tiled := Repeat(mask, |data| / 4 + 1)[..|data|];
      XorStrings(data, tiled);
      assert Bytewise(data, tiled) == Masked(data, mask);
      ToFromBE(Masked(data, mask));
    }
  }

  // ---- frames ----

  const MAX_MESSAGE: nat := 0x400_0000

  datatype Frame = Frame(fin: bool, opcode: nat, payload: Bytes)

  /** How the length is written: in the second octet, in two more, or in eight more. */
  datatype Form = Short | Medium | Long

  /** A frame as some peer may write it. */
  datatype Wired = Wired(frame: Frame, mask: Option<Bytes>, form: Form)

  /** Its length fits the form it is written in. */
  predicate Wireable(w: Wired) {
    var n := |w.frame.payload|;
    && w.frame.opcode < 16 && n < LIMIT
    && (w.mask.Some? ==> |w.mask.value| == 4)
    && (w.form.Short? ==> n < 126) && (w.form.Medium? ==> n < 0x1_0000)
  }

  /** And it is within the size a reader takes. */
  predicate WiredOk(w: Wired) { Wireable(w) && |w.frame.payload| <= MAX_MESSAGE }

  function Flag(on: bool): nat { if on then 128 else 0 }

  function LengthCode(form: Form, n: nat): nat { if form.Short? then n else if form.Medium? then 126 else 127 }

  function LengthBytes(form: Form, n: nat): Bytes {
    if form.Short? then [] else if form.Medium? then ToBE(n, 2) else ToBE(n, 8)
  }

  function First(w: Wired): Byte
    requires Wireable(w)
  {
    Flag(w.frame.fin) + w.frame.opcode
  }

  function Second(w: Wired): Byte
    requires Wireable(w)
  {
    Flag(w.mask.Some?) + LengthCode(w.form, |w.frame.payload|)
  }

  function Body(w: Wired): Bytes
    requires Wireable(w)
  {
    if w.mask.Some? then w.mask.value + Masked(w.frame.payload, w.mask.value) else w.frame.payload
  }

  function Wire(w: Wired): Bytes
    requires Wireable(w)
  {
    [First(w), Second(w)] + (LengthBytes(w.form, |w.frame.payload|) + Body(w))
  }

  /** One final frame, its length in the shortest form. */
  function EncodeFrame(opcode: nat, payload: Bytes, mask: Option<Bytes>): Bytes
    requires opcode < 16 && |payload| < LIMIT && (mask.Some? ==> |mask.value| == 4)
  {
    var n := |payload|;
    var head := if n < 126 then [128 + opcode, Flag(mask.Some?) + n]
                else if n < 0x1_0000 then [128 + opcode, Flag(mask.Some?) + 126] + ToBE(n, 2)
                else [128 + opcode, Flag(mask.Some?) + 127] + ToBE(n, 8);
    head + if mask.Some? then mask.value + MaskedFast(payload, mask.value) else payload
  }

  function FormOf(n: nat): Form { if n < 126 then Short else if n < 0x1_0000 then Medium else Long }

  lemma EncodeIsWire(opcode: nat, payload: Bytes, mask: Option<Bytes>)
    requires opcode < 16 && |payload| < LIMIT && (mask.Some? ==> |mask.value| == 4)
    ensures var w := Wired(Frame(true, opcode, payload), mask, FormOf(|payload|));
            Wireable(w) && EncodeFrame(opcode, payload, mask) == Wire(w)
  {
    if mask.Some? {
      FastIsMasked(payload, mask.value);
    }
  }

  // ---- reading a frame ----

  /** What a read of one frame makes of the octets to come: the stream ends too soon, the frame
      is refused, or a frame and what follows it. */
  datatype Reading = Ended | Refused | Got(frame: Frame, rest: Bytes)

  /** The length of the payload and what follows it, or None if the stream ends. */
  function ReadLength(code: nat, s: Bytes): Option<(nat, Bytes)> {
    if code == 126 then (if |s| < 2 then None else Some((FromBE(s[..2]), s[2..])))
    else if code == 127 then (if |s| < 8 then None else Some((FromBE(s[..8]), s[8..])))
    else Some((code, s))
  }

  function ReadPayload(fin: bool, opcode: nat, masked: bool, n: nat, s: Bytes): Reading {
    var k := if masked then 4 else 0;
    if |s| < k + n then Ended
    else
      var data := s[k..k + n];
      Got(Frame(fin, opcode, if masked then MaskedFast(data, s[..4]) else data), s[k + n..])
  }

  function ReadAfter(b0: Byte, b1: Byte, s: Bytes): Reading {
    if (b0 / 16) % 8 != 0 then Refused
    else
      match ReadLength(b1 % 128, s)
      case None => Ended
      case Some((n, t)) =>
        if n > MAX_MESSAGE then Refused else ReadPayload(b0 >= 128, b0 % 16, b1 >= 128, n, t)
  }

  function ReadFrame(s: Bytes): Reading {
    if |s| < 2 then Ended else ReadAfter(s[0], s[1], s[2..])
  }

  lemma Front(a: Bytes, b: Bytes)
    ensures (a + b)[..|a|] == a && (a + b)[|a|..] == b
  {
  }

  lemma ReadLengthOf(form: Form, n: nat, rest: Bytes)
    requires (form.Short? ==> n < 126) && (form.Medium? ==> n < 0x1_0000) && n < LIMIT
    ensures ReadLength(LengthCode(form, n), LengthBytes(form, n) + rest) == Some((n, rest))
  {
    Powers();
    Front(LengthBytes(form, n), rest);
    if form.Medium? {
      FromToBE(n, 2);
    } else if form.Long? {
      FromToBE(n, 8);
    }
  }

  lemma ReadPayloadOf(w: Wired, rest: Bytes)
    requires WiredOk(w)
    ensures ReadPayload(w.frame.fin, w.frame.opcode, w.mask.Some?, |w.frame.payload|, Body(w) + rest) ==
            Got(w.frame, rest)
  {
    var n := |w.frame.payload|;
    if w.mask.Some? {
      var m, d := w.mask.value, Masked(w.frame.payload, w.mask.value);
      var s := m + d + rest;
      assert s[..4] == m && s[4..4 + n] == d && s[4 + n..] == rest;
      FastIsMasked(d, m);
      MaskedTwice(w.frame.payload, m);
    } else {
      Front(w.frame.payload, rest);
    }
  }

  /** The bits of the first two octets. */
  lemma HeadBits(w: Wired)
    requires Wireable(w)
    ensures (First(w) / 16) % 8 == 0 && (First(w) >= 128 <==> w.frame.fin) && First(w) % 16 == w.frame.opcode
    ensures Second(w) % 128 == LengthCode(w.form, |w.frame.payload|) && (Second(w) >= 128 <==> w.mask.Some?)
  {
  }

  lemma HeadOctets(b0: Byte, b1: Byte)
    requires (b0 / 16) % 8 == 0
    ensures b0 == Flag(b0 >= 128) + b0 % 16 && b1 == Flag(b1 >= 128) + b1 % 128
  {
  }

  lemma ReadAfterOf(w: Wired, rest: Bytes)
    requires WiredOk(w)
    ensures ReadAfter(First(w), Second(w), LengthBytes(w.form, |w.frame.payload|) + (Body(w) + rest)) ==
            Got(w.frame, rest)
  {
    HeadBits(w);
    ReadLengthOf(w.form, |w.frame.payload|, Body(w) + rest);
    ReadPayloadOf(w, rest);
  }

  lemma Assoc(a: Bytes, b: Bytes, c: Bytes, d: Bytes)
    ensures (a + (b + c)) + d == a + (b + (c + d))
  {
  }

  /** A frame is read back from its octets, whatever its mask and however its length is written. */
  lemma ReadWire(w: Wired, rest: Bytes)
    requires WiredOk(w)
    ensures ReadFrame(Wire(w) + rest) == Got(w.frame, rest)
  {
    var head, len := [First(w), Second(w)], LengthBytes(w.form, |w.frame.payload|);
    Assoc(head, len, Body(w), rest);
    Front(head, len + (Body(w) + rest));
    ReadAfterOf(w, rest);
  }

  /** A frame above the size limit is refused as soon as its length is read. */
  lemma OversizeRefused(w: Wired, rest: Bytes)
    requires Wireable(w) && |w.frame.payload| > MAX_MESSAGE
    ensures ReadFrame(Wire(w) + rest) == Refused
  {
    var head, len := [First(w), Second(w)], LengthBytes(w.form, |w.frame.payload|);
    Assoc(head, len, Body(w), rest);
    Front(head, len + (Body(w) + rest));
    HeadBits(w);
    ReadLengthOf(w.form, |w.frame.payload|, Body(w) + rest);
  }

  /** What is encoded is read back, unless its payload is above the size limit. */
  lemma EncodedRead(opcode: nat, payload: Bytes, mask: Option<Bytes>, rest: Bytes)
    requires opcode < 16 && |payload| < LIMIT && (mask.Some? ==> |mask.value| == 4)
    ensures ReadFrame(EncodeFrame(opcode, payload, mask) + rest) ==
              if |payload| <= MAX_MESSAGE then Got(Frame(true, opcode, payload), rest) else Refused
  {
    var w := Wired(Frame(true, opcode, payload), mask, FormOf(|payload|));
    EncodeIsWire(opcode, payload, mask);
    if |payload| <= MAX_MESSAGE {
      ReadWire(w, rest);
    } else {
      OversizeRefused(w, rest);
    }
  }

  /** The payload that was read, masked again, is what stood on the wire. */
  lemma ReadBody(masked: bool, n: nat, t: Bytes, f: Frame, rest: Bytes)
    requires ReadPayload(f.fin, f.opcode, masked, n, t) == Got(f, rest)
    ensures |f.payload| == n && (masked ==> |t| >= 4)
    ensures t == (if masked then t[..4] + Masked(f.payload, t[..4]) else f.payload) + rest
  {
    var k := if masked then 4 else 0;
    var data := t[k..k + n];
    if masked {
      FastIsMasked(data, t[..4]);
      MaskedTwice(data, t[..4]);
      assert t == t[..4] + data + rest;
    } else {
      assert t == data + rest;
    }
  }

  lemma AfterIsWire(b0: Byte, b1: Byte, s: Bytes) returns (w: Wired)
    requires ReadAfter(b0, b1, s).Got?
    ensures WiredOk(w) && w.frame == ReadAfter(b0, b1, s).frame && First(w) == b0 && Second(w) == b1
    ensures s == LengthBytes(w.form, |w.frame.payload|) + (Body(w) + ReadAfter(b0, b1, s).rest)
  {
    var code, masked := b1 % 128, b1 >= 128;
    var form := if code == 126 then Medium else if code == 127 then Long else Short;
    var l := ReadLength(code, s).value;
    var f, rest := ReadAfter(b0, b1, s).frame, ReadAfter(b0, b1, s).rest;
    LengthIs(code, s);
    assert f.fin == (b0 >= 128) && f.opcode == b0 % 16;
    ReadBody(masked, l.0, l.1, f, rest);
    HeadOctets(b0, b1);
    w := Wired(f, if masked then Some(l.1[..4]) else None, form);
    assert Body(w) + rest == l.1;
  }

  /** Whatever is read as a frame is some wire form of it. */
  lemma ReadIsWire(s: Bytes) returns (w: Wired)
    requires ReadFrame(s).Got?
    ensures WiredOk(w) && w.frame == ReadFrame(s).frame && s == Wire(w) + ReadFrame(s).rest
  {
    w := AfterIsWire(s[0], s[1], s[2..]);
    Assoc([First(w), Second(w)], LengthBytes(w.form, |w.frame.payload|), Body(w), ReadFrame(s).rest);
    assert s == [s[0], s[1]] + s[2..];
  }

  lemma LengthIs(code: nat, s: Bytes)
    requires code < 128 && ReadLength(code, s).Some?
    ensures var form := if code == 126 then Medium else if code == 127 then Long else Short;
            var l := ReadLength(code, s).value;
            && LengthCode(form, l.0) == code && s == LengthBytes(form, l.0) + l.1
            && (form.Short? ==> l.0 < 126) && (form.Medium? ==> l.0 < 0x1_0000)
  {
    Powers();
    if code == 126 {
      ToFromBE(s[..2]);
      assert s == s[..2] + s[2..];
    } else if code == 127 {
      ToFromBE(s[..8]);
      assert s == s[..8] + s[8..];
    }
  }
}

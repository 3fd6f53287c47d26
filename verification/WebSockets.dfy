/** Receiving messages over a WebSocket: fragments are joined, pings answered, and the stream is
    read the same however it arrives. */
module WebSockets {
  import opened Sequences
  import opened NatCodec
  import opened Frames

  const OP_CONT: nat := 0
  const OP_TEXT: nat := 1
  const OP_BIN: nat := 2
  const OP_CLOSE: nat := 8
  const OP_PING: nat := 9
  const OP_PONG: nat := 10

  datatype Sent = Sent(opcode: nat, payload: Bytes)

  datatype Why = StreamEnded | FrameRefused | NestedMessage | OrphanFragment | UnknownOpcode | TooLong

  datatype Result = Message(kind: nat, data: Bytes) | ClosedByPeer(code: Option<nat>) | Failed(why: Why)

  /** How a receive ends, the octets it leaves unread, and the frames it sends meanwhile. */
  datatype Outcome = Outcome(result: Result, rest: Bytes, sent: seq<Sent>)

  type FrameReader = Bytes -> Reading

  /** Reading a frame uses up some of the stream. */
  ghost predicate Shrinks(read: FrameReader) { forall s | read(s).Got? :: |read(s).rest| < |s| }

  predicate IsControl(opcode: nat) { opcode == OP_PING || opcode == OP_PONG }

  /** What a data frame breaks, given the message under way. */
  function Violation(f: Frame, got: nat, kind: Option<nat>): Option<Why> {
    if (f.opcode == OP_TEXT || f.opcode == OP_BIN) && kind.Some? then Some(NestedMessage)
    else if f.opcode == OP_CONT && kind.None? then Some(OrphanFragment)
    else if f.opcode != OP_TEXT && f.opcode != OP_BIN && f.opcode != OP_CONT then Some(UnknownOpcode)
    else if got + |f.payload| > MAX_MESSAGE then Some(TooLong)
    else None
  }

  function CloseCode(payload: Bytes): Option<nat> { if |payload| >= 2 then Some(FromBE(payload[..2])) else None }

  /** What one frame does to a message under way: it ends the receive, or leaves more to read. */
  datatype Move = Stop(result: Result) | More(got: Bytes, kind: Option<nat>)

  function Judge(f: Frame, got: Bytes, kind: Option<nat>): Move {
    if IsControl(f.opcode) then More(got, kind)
    else if f.opcode == OP_CLOSE then Stop(ClosedByPeer(CloseCode(f.payload)))
    else if Violation(f, |got|, kind).Some? then Stop(Failed(Violation(f, |got|, kind).value))
    else
      var kind' := if f.opcode == OP_CONT then kind else Some(f.opcode);
      if f.fin then Stop(Message(kind'.value, got + f.payload)) else More(got + f.payload, kind')
  }

  /** What is sent in answer to a frame: a pong to a ping, the close code to a close. */
  function Reply(f: Frame): seq<Sent> {
    if f.opcode == OP_PING then [Sent(OP_PONG, f.payload)]
    else if f.opcode == OP_CLOSE then [Sent(OP_CLOSE, f.payload[..Min(2, |f.payload|)])]
    else []
  }

  /** Read on, with the fragments `got` of a message of this kind already in hand. */
  function Receive(read: FrameReader, s: Bytes, got: Bytes, kind: Option<nat>): Outcome
    requires Shrinks(read)
    decreases |s|
  {
    match read(s)
    case Ended => Outcome(Failed(StreamEnded), s, [])
    case Refused => Outcome(Failed(FrameRefused), s, [])
    case Got(f, rest) =>
      match Judge(f, got, kind)
      case Stop(result) => Outcome(result, rest, Reply(f))
      case More(got', kind') =>
        var o := Receive(read, rest, got', kind');
        o.(sent := Reply(f) + o.sent)
  }

  // ---- messages on the wire ----

  type FrameWriter = Wired -> Bytes

  function WireAll(wire: FrameWriter, ws: seq<Wired>): Bytes {
    if ws == [] then [] else wire(ws[0]) + WireAll(wire, ws[1..])
  }

  /** The reader reads back what the writer writes. */
  ghost predicate ReadsBack(read: FrameReader, wire: FrameWriter) {
    forall w, rest | WiredOk(w) :: read(wire(w) + rest) == Got(w.frame, rest)
  }

  /** The reader reads nothing but what the writer writes. */
  ghost predicate ReadsOnly(read: FrameReader, wire: FrameWriter) {
    forall s | read(s).Got? :: exists w :: Writes(wire, w, s, read(s))
  }

  ghost predicate Writes(wire: FrameWriter, w: Wired, s: Bytes, r: Reading)
    requires r.Got?
  {
    WiredOk(w) && w.frame == r.frame && s == wire(w) + r.rest
  }

  /** The rest of one message: data frames up to a final one, with pings and pongs between them,
      `got` octets of it already in hand. */
  ghost predicate Fragments(ws: seq<Wired>, got: nat, kind: Option<nat>) {
    && ws != [] && WiredOk(ws[0])
    && var f := ws[0].frame;
       if IsControl(f.opcode) then Fragments(ws[1..], got, kind)
       else
         && (if kind.None? then f.opcode == OP_TEXT || f.opcode == OP_BIN else f.opcode == OP_CONT)
         && got + |f.payload| <= MAX_MESSAGE
         && if f.fin then |ws| == 1
            else Fragments(ws[1..], got + |f.payload|, if kind.None? then Some(f.opcode) else kind)
  }

  function Data(ws: seq<Wired>): Bytes {
    if ws == [] then [] else (if IsControl(ws[0].frame.opcode) then [] else ws[0].frame.payload) + Data(ws[1..])
  }

  function KindOf(ws: seq<Wired>, kind: Option<nat>): nat {
    if kind.Some? then kind.value
    else if ws == [] then OP_TEXT
    else if IsControl(ws[0].frame.opcode) then KindOf(ws[1..], None)
    else ws[0].frame.opcode
  }

  /** One pong for each ping, with its payload, in order. */
  function Pongs(ws: seq<Wired>): seq<Sent> {
    if ws == [] then []
    else (if ws[0].frame.opcode == OP_PING then [Sent(OP_PONG, ws[0].frame.payload)] else []) + Pongs(ws[1..])
  }

  /** The outcome of reading the whole of one message. */
  function Whole(ws: seq<Wired>, rest: Bytes, got: Bytes, kind: Option<nat>): Outcome {
    Outcome(Message(KindOf(ws, kind), got + Data(ws)), rest, Pongs(ws))
  }

  lemma ReadHead(read: FrameReader, wire: FrameWriter, ws: seq<Wired>, rest: Bytes)
    requires ReadsBack(read, wire) && ws != [] && WiredOk(ws[0])
    ensures read(WireAll(wire, ws) + rest) == Got(ws[0].frame, WireAll(wire, ws[1..]) + rest)
  {
    assert WireAll(wire, ws) + rest == wire(ws[0]) + (WireAll(wire, ws[1..]) + rest);
  }

  /** A ping or a pong between fragments. */
  lemma ReceiveControl(read: FrameReader, s: Bytes, f: Frame, rest: Bytes, got: Bytes, kind: Option<nat>)
    requires Shrinks(read) && read(s) == Got(f, rest) && IsControl(f.opcode)
    ensures var o := Receive(read, rest, got, kind);
            Receive(read, s, got, kind) ==
              o.(sent := (if f.opcode == OP_PING then [Sent(OP_PONG, f.payload)] else []) + o.sent)
  {
  }

  ghost predicate InSequence(f: Frame, got: nat, kind: Option<nat>) {
    && (if kind.None? then f.opcode == OP_TEXT || f.opcode == OP_BIN else f.opcode == OP_CONT)
    && got + |f.payload| <= MAX_MESSAGE
  }

  function Started(f: Frame, kind: Option<nat>): Option<nat> { if kind.None? then Some(f.opcode) else kind }

  /** A data frame in sequence is the last, or the message goes on. */
  lemma ReceiveData(read: FrameReader, s: Bytes, f: Frame, rest: Bytes, got: Bytes, kind: Option<nat>)
    requires Shrinks(read) && read(s) == Got(f, rest) && InSequence(f, |got|, kind)
    ensures Receive(read, s, got, kind) ==
              if f.fin then Outcome(Message(Started(f, kind).value, got + f.payload), rest, [])
              else Receive(read, rest, got + f.payload, Started(f, kind))
  {
    var o := Receive(read, rest, got + f.payload, Started(f, kind));
    assert [] + o.sent == o.sent;
  }

  /** Any other frame ends the receive without a message. */
  lemma ReceiveOther(read: FrameReader, s: Bytes, got: Bytes, kind: Option<nat>)
    requires Shrinks(read) && Receive(read, s, got, kind).result.Message?
    ensures read(s).Got? && var f := read(s).frame; IsControl(f.opcode) || InSequence(f, |got|, kind)
  {
  }

  lemma WholeControl(ws: seq<Wired>, rest: Bytes, got: Bytes, kind: Option<nat>)
    requires ws != [] && IsControl(ws[0].frame.opcode)
    ensures var f, o := ws[0].frame, Whole(ws[1..], rest, got, kind);
            Whole(ws, rest, got, kind) ==
              o.(sent := (if f.opcode == OP_PING then [Sent(OP_PONG, f.payload)] else []) + o.sent)
  {
    assert [] + Data(ws[1..]) == Data(ws[1..]);
  }

  lemma WholeData(ws: seq<Wired>, rest: Bytes, got: Bytes, kind: Option<nat>)
    requires ws != [] && !IsControl(ws[0].frame.opcode)
    ensures var f := ws[0].frame; Whole(ws, rest, got, kind) == Whole(ws[1..], rest, got + f.payload, Started(f, kind))
  {
    var f := ws[0].frame;
    assert got + (f.payload + Data(ws[1..])) == got + f.payload + Data(ws[1..]);
    assert [] + Pongs(ws[1..]) == Pongs(ws[1..]);
  }

  lemma LastReceived(read: FrameReader, wire: FrameWriter, w: Wired, rest: Bytes, got: Bytes, kind: Option<nat>)
    requires Shrinks(read) && ReadsBack(read, wire) && WiredOk(w) && InSequence(w.frame, |got|, kind) && w.frame.fin
    ensures Receive(read, WireAll(wire, [w]) + rest, got, kind) == Whole([w], rest, got, kind)
  {
    ReadHead(read, wire, [w], rest);
    assert WireAll(wire, []) + rest == rest;
    ReceiveData(read, WireAll(wire, [w]) + rest, w.frame, rest, got, kind);
    WholeData([w], rest, got, kind);
    assert got + w.frame.payload + Data([]) == got + w.frame.payload;
  }

  lemma OneFragment(ws: seq<Wired>, got: nat, kind: Option<nat>)
    requires Fragments(ws, got, kind) && !IsControl(ws[0].frame.opcode) && ws[0].frame.fin
    ensures ws == [ws[0]] && WiredOk(ws[0]) && InSequence(ws[0].frame, got, kind)
  {
  }

  lemma {:induction false} FragmentsReceived(read: FrameReader, wire: FrameWriter, ws: seq<Wired>, rest: Bytes,
                                             got: Bytes, kind: Option<nat>)
    requires Shrinks(read) && ReadsBack(read, wire) && Fragments(ws, |got|, kind)
    ensures Receive(read, WireAll(wire, ws) + rest, got, kind) == Whole(ws, rest, got, kind)
    decreases |ws|
  {
    var f, s, t := ws[0].frame, WireAll(wire, ws) + rest, WireAll(wire, ws[1..]) + rest;
    ReadHead(read, wire, ws, rest);
    if IsControl(f.opcode) {
      ReceiveControl(read, s, f, t, got, kind);
      FragmentsReceived(read, wire, ws[1..], rest, got, kind);
      WholeControl(ws, rest, got, kind);
    } else if f.fin {
      OneFragment(ws, |got|, kind);
      LastReceived(read, wire, ws[0], rest, got, kind);
    } else {
      ReceiveData(read, s, f, t, got, kind);
      WholeData(ws, rest, got, kind);
      FragmentsReceived(read, wire, ws[1..], rest, got + f.payload, Started(f, kind));
    }
  }

  lemma {:induction false} OnlyFragments(read: FrameReader, wire: FrameWriter, s: Bytes, got: Bytes, kind: Option<nat>)
    returns (ws: seq<Wired>)
    requires Shrinks(read) && ReadsOnly(read, wire) && Receive(read, s, got, kind).result.Message?
    ensures Fragments(ws, |got|, kind) && s == WireAll(wire, ws) + Receive(read, s, got, kind).rest
    decreases |s|
  {
    var r := read(s);
    ReceiveOther(read, s, got, kind);
    var w :| Writes(wire, w, s, r);
    var tail: seq<Wired> := [];
    if IsControl(w.frame.opcode) {
      ReceiveControl(read, s, w.frame, r.rest, got, kind);
      tail := OnlyFragments(read, wire, r.rest, got, kind);
    } else {
      ReceiveData(read, s, w.frame, r.rest, got, kind);
      if !w.frame.fin {
        tail := OnlyFragments(read, wire, r.rest, got + w.frame.payload, Started(w.frame, kind));
      }
    }
    ws := [w] + tail;
    WireCons(wire, w, tail, Receive(read, s, got, kind).rest);
  }

  lemma WireCons(wire: FrameWriter, w: Wired, tail: seq<Wired>, rest: Bytes)
    ensures ([w] + tail)[0] == w && ([w] + tail)[1..] == tail
    ensures WireAll(wire, [w] + tail) + rest == wire(w) + (WireAll(wire, tail) + rest)
  {
    var ws := [w] + tail;
    assert ws[1..] == tail;
  }

  // ---- with the frames of RFC 6455 ----

  function FrameRead(): FrameReader { (s: Bytes) => ReadFrame(s) }
  function FrameWritten(): FrameWriter { (w: Wired) => if WiredOk(w) then Wire(w) else [] }

  lemma FramesAgree()
    ensures Shrinks(FrameRead()) && ReadsBack(FrameRead(), FrameWritten()) && ReadsOnly(FrameRead(), FrameWritten())
  {
    forall w, rest | WiredOk(w) ensures FrameRead()(FrameWritten()(w) + rest) == Got(w.frame, rest) {
      ReadWire(w, rest);
    }
    forall s | FrameRead()(s).Got?
      ensures |FrameRead()(s).rest| < |s| && exists w :: Writes(FrameWritten(), w, s, FrameRead()(s))
    {
      var w := ReadIsWire(s);
      assert Writes(FrameWritten(), w, s, FrameRead()(s));
    }
  }

  /** The next message of the stream `s`. */
  function Recv(s: Bytes): Outcome {
    FramesAgree();
    Receive(FrameRead(), s, [], None)
  }

  /** A well-formed fragmented message, whatever its masks and length forms and whatever pings
      and pongs stand between its fragments: it is returned joined, each ping is answered once
      and in order, and reading stops exactly where it ends. */
  lemma MessageReceived(ws: seq<Wired>, rest: Bytes)
    requires Fragments(ws, 0, None)
    ensures Recv(WireAll(FrameWritten(), ws) + rest) == Outcome(Message(KindOf(ws, None), Data(ws)), rest, Pongs(ws))
  {
    FramesAgree();
    FragmentsReceived(FrameRead(), FrameWritten(), ws, rest, [], None);
    assert [] + Data(ws) == Data(ws);
  }

  /** And nothing but such a message is ever returned. */
  lemma OnlyMessagesReceived(s: Bytes) returns (ws: seq<Wired>)
    requires Recv(s).result.Message?
    ensures Fragments(ws, 0, None) && s == WireAll(FrameWritten(), ws) + Recv(s).rest
    ensures Recv(s) == Outcome(Message(KindOf(ws, None), Data(ws)), Recv(s).rest, Pongs(ws))
  {
    FramesAgree();
    ws := OnlyFragments(FrameRead(), FrameWritten(), s, [], None);
    MessageReceived(ws, Recv(s).rest);
  }

  // ---- the connection ----

  /** What the socket will deliver: chunk after chunk, until an empty one or none. */
  function Arriving(chunks: seq<Bytes>): Bytes {
    if chunks == [] || chunks[0] == [] then [] else chunks[0] + Arriving(chunks[1..])
  }

  /** What is still owed of a receive that is to end as `goal`, having sent `before` at its start. */
  ghost predicate Owed(read: FrameReader, s: Bytes, got: Bytes, kind: Option<nat>, goal: Outcome, before: seq<Sent>,
                       sent: seq<Sent>) {
    && Shrinks(read)
    && var o := Receive(read, s, got, kind);
       goal.result == o.result && goal.rest == o.rest && before + goal.sent == sent + o.sent
  }

  lemma OwedNothing(read: FrameReader, s: Bytes, got: Bytes, kind: Option<nat>, goal: Outcome, before: seq<Sent>,
                    sent: seq<Sent>)
    requires Owed(read, s, got, kind, goal, before, sent) && !read(s).Got?
    ensures goal.result == Failed(if read(s).Ended? then StreamEnded else FrameRefused) && before + goal.sent == sent
  {
    assert sent + [] == sent;
  }

  lemma OwedNext(read: FrameReader, s: Bytes, f: Frame, rest: Bytes, got: Bytes, kind: Option<nat>, goal: Outcome,
                 before: seq<Sent>, sent: seq<Sent>)
    requires Owed(read, s, got, kind, goal, before, sent) && read(s) == Got(f, rest)
    ensures |rest| < |s|
    ensures match Judge(f, got, kind)
            case Stop(result) => goal.result == result && goal.rest == rest && before + goal.sent == sent + Reply(f)
            case More(got', kind') => Owed(read, rest, got', kind', goal, before, sent + Reply(f))
  {
    match Judge(f, got, kind)
    case Stop(result) =>
    case More(got', kind') =>
      var o := Receive(read, rest, got', kind');
      assert sent + (Reply(f) + o.sent) == sent + Reply(f) + o.sent;
  }

  lemma ReadStep(s: Bytes)
    ensures FrameRead()(s) == ReadFrame(s)
  {
  }

  class Connection {
    var buf: Bytes
    var chunks: seq<Bytes>
    var sent: seq<Sent>

    ghost function Stream(): Bytes
      reads this
    {
      buf + Arriving(chunks)
    }

    method Fill() returns (ok: bool)
      modifies `buf, `chunks
      ensures Stream() == old(Stream())
      ensures if ok then |chunks| < |old(chunks)| else Arriving(chunks) == [] && buf == old(buf)
    {
      if chunks == [] || chunks[0] == [] {
        return false;
      }
      assert buf + (chunks[0] + Arriving(chunks[1..])) == buf + chunks[0] + Arriving(chunks[1..]);
      buf, chunks := buf + chunks[0], chunks[1..];
      ok := true;
    }

    /** The next `n` octets, however they arrive. */
    method Take(n: nat) returns (r: Option<Bytes>)
      modifies `buf, `chunks
      ensures r.Some? <==> n <= |old(Stream())|
      ensures r.Some? ==> r.value == old(Stream())[..n] && Stream() == old(Stream())[n..]
    {
      while |buf| < n
        invariant Stream() == old(Stream())
        decreases |chunks|
      {
        var ok := Fill();
        if !ok {
          return None;
        }
      }
      assert Stream()[..n] == buf[..n] && Stream()[n..] == buf[n..] + Arriving(chunks);
      r := Some(buf[..n]);
      buf := buf[n..];
    }

    method TakeLength(code: nat) returns (r: Option<nat>)
      modifies `buf, `chunks
      ensures var l := ReadLength(code, old(Stream()));
              if l.None? then r.None? else r == Some(l.value.0) && Stream() == l.value.1
    {
      if code == 126 {
        var bs := Take(2);
        r := if bs.None? then None else Some(FromBE(bs.value));
      } else if code == 127 {
        var bs := Take(8);
        r := if bs.None? then None else Some(FromBE(bs.value));
      } else {
        r := Some(code);
      }
    }

    method TakePayload(masked: bool, n: nat) returns (r: Option<Bytes>)
      modifies `buf, `chunks
      ensures var p := ReadPayload(true, 0, masked, n, old(Stream()));
              if p.Got? then r == Some(p.frame.payload) && Stream() == p.rest else r.None?
    {
      ghost var s := Stream();
      var mask: Bytes := [];
      if masked {
        var m := Take(4);
        if m.None? {
          return None;
        }
        mask := m.value;
      }
      ghost var k := if masked then 4 else 0;
      assert Stream() == s[k..];
      var data := Take(n);
      if data.None? {
        return None;
      }
      assert s[k..][..n] == s[k..k + n] && s[k..][n..] == s[k + n..];
      r := Some(if masked then MaskedFast(data.value, mask) else data.value);
    }

    /** The next frame, or why there is none. */
    method NextFrame() returns (r: Option<Frame>, why: Why)
      modifies `buf, `chunks
      ensures match ReadFrame(old(Stream()))
              case Ended => r.None? && why == StreamEnded
              case Refused => r.None? && why == FrameRefused
              case Got(f, rest) => r == Some(f) && Stream() == rest
    {
      ghost var s := Stream();
      r, why := None, StreamEnded;
      var head := Take(2);
      if head.None? {
        return;
      }
      var b0, b1 := head.value[0], head.value[1];
      if (b0 / 16) % 8 != 0 {
        why := FrameRefused;
        return;
      }
      var n := TakeLength(b1 % 128);
      if n.None? {
        return;
      }
      if n.value > MAX_MESSAGE {
        why := FrameRefused;
        return;
      }
      var payload := TakePayload(b1 >= 128, n.value);
      if payload.Some? {
        r := Some(Frame(b0 >= 128, b0 % 16, payload.value));
      }
    }

    /** What one frame does to the message under way. */
    method Handle(f: Frame, parts: Bytes, kind: Option<nat>) returns (m: Move)
      modifies `sent
      ensures m == Judge(f, parts, kind) && sent == old(sent) + Reply(f)
    {
      var opcode, payload := f.opcode, f.payload;
      if opcode == OP_PING {
        sent := sent + [Sent(OP_PONG, payload)];
        m := More(parts, kind);
      } else if opcode == OP_PONG {
        m := More(parts, kind);
      } else if opcode == OP_CLOSE {
        sent := sent + [Sent(OP_CLOSE, payload[..Min(2, |payload|)])];
        m := Stop(ClosedByPeer(CloseCode(payload)));
      } else if (opcode == OP_TEXT || opcode == OP_BIN) && kind.Some? {
        m := Stop(Failed(NestedMessage));
      } else if opcode == OP_CONT && kind.None? {
        m := Stop(Failed(OrphanFragment));
      } else if opcode != OP_TEXT && opcode != OP_BIN && opcode != OP_CONT {
        m := Stop(Failed(UnknownOpcode));
      } else if |parts| + |payload| > MAX_MESSAGE {
        m := Stop(Failed(TooLong));
      } else {
        var kind' := if opcode == OP_CONT then kind else Some(opcode);
        m := if f.fin then Stop(Message(kind'.value, parts + payload)) else More(parts + payload, kind');
      }
    }

    /** The next complete message: pings are answered on the way, a close is answered and ends it. */
    method NextMessage() returns (r: Result)
      modifies this
      ensures r == Recv(old(Stream())).result && sent == old(sent) + Recv(old(Stream())).sent
      ensures r.Message? || r.ClosedByPeer? ==> Stream() == Recv(old(Stream())).rest
    {
      var parts: Bytes, kind: Option<nat> := [], None;
      FramesAgree();
      ghost var goal, before := Recv(Stream()), sent;
      while true
        invariant Owed(FrameRead(), Stream(), parts, kind, goal, before, sent)
        decreases |Stream()|
      {
        ghost var s := Stream();
        var f, why := NextFrame();
        ReadStep(s);
        if f.None? {
          OwedNothing(FrameRead(), s, parts, kind, goal, before, sent);
          return Failed(why);
        }
        OwedNext(FrameRead(), s, f.value, Stream(), parts, kind, goal, before, sent);
        var m := Handle(f.value, parts, kind);
        if m.Stop? {
          return m.result;
        }
        parts, kind := m.got, m.kind;
      }
    }
  }
}

/**
  The two ends over a socket that hands its bytes over in pieces of any size: the server reads
  exactly what it needs, the client reads ahead into a buffer.
 */
module WebSocketEnds {
  import opened Wrappers
  import opened Bytes
  import opened WebSocket

  type Mask = m: seq<byte> | |m| == 4 witness [0, 0, 0, 0]

  // ---------- Streams of frames ----------

  function ClientStream(fs: seq<Frame>, masks: seq<Mask>): seq<byte>
    requires |masks| == |fs|
  {
    if fs == [] then [] else ClientBytes(fs[0], masks[0]) + ClientStream(fs[1..], masks[1..])
  }

  function ServerStream(fs: seq<Frame>): seq<byte> {
    if fs == [] then [] else ServerBytes(fs[0]) + ServerStream(fs[1..])
  }

  predicate Fit(fs: seq<Frame>) {
    forall i :: 0 <= i < |fs| ==> |fs[i].payload| <= MAX_PAYLOAD
  }

  /** The frames read one after another, or None if a read fails. */
  function ReadAll(stream: seq<byte>, count: nat, asServer: bool): Option<(seq<Frame>, seq<byte>)> {
    if count == 0 then Some(([], stream))
    else
      var t := if asServer then ServerRead(stream) else ClientRead(stream);
      if t.result.Err? then None
      else
        var more := ReadAll(t.rest, count - 1, asServer);
        if more == None then None else Some(([t.result.value] + more.value.0, more.value.1))
  }

  lemma BelowRange(f: Frame)
    requires |f.payload| <= MAX_PAYLOAD
    ensures |f.payload| < Range(8)
  {
    Ranges();
  }

  /** The server reads exactly the client's frames, in order, and leaves what follows. */
  lemma {:induction false} ServerReadsAll(fs: seq<Frame>, masks: seq<Mask>, more: seq<byte>)
    requires Fit(fs) && |masks| == |fs|
    ensures ReadAll(ClientStream(fs, masks) + more, |fs|, true) == Some((fs, more))
  {
    hide ClientBytes, ServerRead, Range;
    if fs == [] {
      assert ClientStream(fs, masks) + more == more;
    } else {
      var rest := ClientStream(fs[1..], masks[1..]) + more;
      assert ClientStream(fs, masks) + more == ClientBytes(fs[0], masks[0]) + rest;
      BelowRange(fs[0]);
      ServerReadsClient(fs[0], masks[0], rest);
      ServerReadsAll(fs[1..], masks[1..], more);
      assert [fs[0]] + fs[1..] == fs;
    }
  }

  /** The client reads exactly the server's frames, in order, and leaves what follows. */
  lemma {:induction false} ClientReadsAll(fs: seq<Frame>, more: seq<byte>)
    requires forall i :: 0 <= i < |fs| ==> |fs[i].payload| < Range(8)
    ensures ReadAll(ServerStream(fs) + more, |fs|, false) == Some((fs, more))
  {
    hide ServerBytes, ClientRead, Range;
    if fs == [] {
      assert ServerStream(fs) + more == more;
    } else {
      var rest := ServerStream(fs[1..]) + more;
      assert ServerStream(fs) + more == ServerBytes(fs[0]) + rest;
      ClientReadsServer(fs[0], rest);
      ClientReadsAll(fs[1..], more);
      assert [fs[0]] + fs[1..] == fs;
    }
  }

  // ---------- The server's message loop ----------

  /** What a read of the next message leaves: its text, the stream, the bytes sent in reply. */
  datatype Outcome = Outcome(text: Option<seq<byte>>, rest: seq<byte>, replies: seq<byte>, closed: bool)

  const CLOSE_FRAME := Frame(OP_CLOSE, [])

  /** Pings are answered, other frames and undecodable texts skipped, a close answered and final. */
  function NextText(stream: seq<byte>, isObject: seq<byte> -> bool): Outcome
    decreases |stream|
  {
    var t := ServerRead(stream);
    if t.result.Err? then Outcome(None, t.rest, [], true)
    else
      var f := t.result.value;
      if f.op == OP_CLOSE then Outcome(None, t.rest, ServerBytes(CLOSE_FRAME), true)
      else if f.op == OP_PING then
        var o := NextText(t.rest, isObject);
        o.(replies := ServerBytes(Frame(OP_PONG, f.payload)) + o.replies)
      else if f.op == OP_TEXT && isObject(f.payload) then Outcome(Some(f.payload), t.rest, [], false)
      else NextText(t.rest, isObject)
  }

  /** The same loop over the frames themselves: how many are consumed, and the frames sent back. */
  datatype Served = Served(text: Option<seq<byte>>, consumed: nat, replies: seq<Frame>, closed: bool)

  function FirstText(fs: seq<Frame>, isObject: seq<byte> -> bool): (s: Served)
    ensures s.consumed <= |fs|
  {
    if fs == [] then Served(None, 0, [], true)
    else if fs[0].op == OP_CLOSE then Served(None, 1, [CLOSE_FRAME], true)
    else if fs[0].op == OP_TEXT && isObject(fs[0].payload) then Served(Some(fs[0].payload), 1, [], false)
    else
      var s := FirstText(fs[1..], isObject);
      s.(consumed := s.consumed + 1, replies := (if fs[0].op == OP_PING then [Frame(OP_PONG, fs[0].payload)] else []) + s.replies)
  }

  /** One turn of the loop, once the next frame is read. */
  function Turn(f: Frame, after: seq<byte>, isObject: seq<byte> -> bool, further: Outcome): Outcome {
    if f.op == OP_CLOSE then Outcome(None, after, ServerBytes(CLOSE_FRAME), true)
    else if f.op == OP_PING then further.(replies := ServerBytes(Frame(OP_PONG, f.payload)) + further.replies)
    else if f.op == OP_TEXT && isObject(f.payload) then Outcome(Some(f.payload), after, [], false)
    else further
  }

  lemma NextTextTurn(stream: seq<byte>, isObject: seq<byte> -> bool)
    ensures var t := ServerRead(stream);
            NextText(stream, isObject) == if t.result.Err? then Outcome(None, t.rest, [], true)
                                          else Turn(t.result.value, t.rest, isObject, NextText(t.rest, isObject))
  {
    hide ServerBytes;
  }

  lemma ServerStreamAppends(f: Frame, fs: seq<Frame>)
    ensures ServerStream([f] + fs) == ServerBytes(f) + ServerStream(fs)
  {
    assert ([f] + fs)[1..] == fs;
  }

  lemma OneReply(f: Frame)
    ensures ServerStream([f]) == ServerBytes(f)
  {
    assert ServerBytes(f) + [] == ServerBytes(f);
  }

  /** Over the client's bytes the loop does what it does over the client's frames. */
  lemma {:induction false} ServerServesFrames(fs: seq<Frame>, masks: seq<Mask>, isObject: seq<byte> -> bool)
    requires Fit(fs) && |masks| == |fs|
    ensures var s := FirstText(fs, isObject);
            NextText(ClientStream(fs, masks), isObject)
            == Outcome(s.text, ClientStream(fs[s.consumed..], masks[s.consumed..]), ServerStream(s.replies), s.closed)
  {
    hide ClientBytes, ServerBytes, Range, NextText;
    NextTextTurn(ClientStream(fs, masks), isObject);
    if fs != [] {
      hide ServerRead, ServerStream;
      var f, rest := fs[0], ClientStream(fs[1..], masks[1..]);
      BelowRange(f);
      ServerReadsClient(f, masks[0], rest);
      ServerServesFrames(fs[1..], masks[1..], isObject);
      var s := FirstText(fs[1..], isObject);
      assert fs[1..][s.consumed..] == fs[s.consumed + 1..] && masks[1..][s.consumed..] == masks[s.consumed + 1..];
      OneReply(CLOSE_FRAME);
      NoReply();
      ServerStreamAppends(Frame(OP_PONG, f.payload), s.replies);
      assert [] + s.replies == s.replies;
    }
  }

  lemma NoReply()
    ensures ServerStream([]) == []
  {
  }

  // ---------- The ends ----------

  /** A socket: the bytes still to arrive, and the bytes sent. */
  class ByteSocket {
    var rest: seq<byte>
    var sent: seq<byte>

    constructor (rest: seq<byte>)
      ensures this.rest == rest && sent == []
    {
      this.rest, sent := rest, [];
    }

    /** Some bytes, at least one and at most `most`, or none at the end of the stream. */
    method Recv(most: nat) returns (chunk: seq<byte>)
      requires most > 0
      modifies `rest
      ensures old(rest) == chunk + rest && |chunk| <= most
      ensures chunk == [] <==> old(rest) == []
    {
      if rest == [] {
        return [];
      }
      var n: nat :| 1 <= n <= most && n <= |rest|;
      chunk := rest[..n];
      rest := rest[n..];
    }

    method SendAll(data: seq<byte>)
      modifies `sent
      ensures sent == old(sent) + data
    {
      sent := sent + data;
    }
  }

  class WsConnection {
    const sock: ByteSocket
    var closed: bool

    constructor (sock: ByteSocket)
      ensures this.sock == sock && !closed
    {
      this.sock, closed := sock, false;
    }

    /** Refused on a closed connection, but for the close frame itself. */
    method SendFrame(f: Frame) returns (refused: bool)
      modifies sock`sent
      ensures refused <==> closed && f.op != OP_CLOSE
      ensures sock.sent == if refused then old(sock.sent) else old(sock.sent) + ServerBytes(f)
    {
      var length := |f.payload|;
      var header: seq<byte>;
      if length < 126 {
        header := [0x80 + f.op, length];
      } else if length < 65536 {
        header := [0x80 + f.op, 126] + Be(2, length);
      } else {
        header := [0x80 + f.op, 127] + Be(8, length);
      }
      if closed && f.op != OP_CLOSE {
        return true;
      }
      sock.SendAll(header + f.payload);
      assert header == [0x80 + f.op] + LengthField(length, 0);
      return false;
    }

    method Close()
      modifies this, sock`sent
      ensures closed && sock.sent == if old(closed) then old(sock.sent) else old(sock.sent) + ServerBytes(CLOSE_FRAME)
    {
      if closed {
        return;
      }
      closed := true;
      var _ := SendFrame(CLOSE_FRAME);
    }

    method RecvExact(count: nat) returns (r: Result<seq<byte>, Failure>)
      modifies sock`rest
      ensures Taken(r, sock.rest) == Take(old(sock.rest), count)
    {
      var buf: seq<byte> := [];
      while |buf| < count
        invariant |buf| <= count && buf + sock.rest == old(sock.rest)
        decreases count - |buf|
      {
        var chunk := sock.Recv(count - |buf|);
        if chunk == [] {
          assert sock.rest == [] && |old(sock.rest)| < count;
          return Err(Closed);
        }
        buf := buf + chunk;
      }
      TakeFront(buf, sock.rest);
      return Ok(buf);
    }

    method ReadHeader() returns (r: Result<Header, Failure>)
      modifies sock`rest
      ensures Taken(r, sock.rest) == WebSocket.ReadHeader(old(sock.rest))
    {
      hide Take;
      var head := RecvExact(2);
      if head.Err? {
        return Err(Closed);
      }
      var b0, b1 := head.value[0], head.value[1];
      var length: nat := b1 % 0x80;
      if length == 126 {
        var field := RecvExact(2);
        if field.Err? {
          return Err(Closed);
        }
        length := FromBe(field.value);
      } else if length == 127 {
        var field := RecvExact(8);
        if field.Err? {
          return Err(Closed);
        }
        length := FromBe(field.value);
      } else {
        TakeNothing(sock.rest);
      }
      return Ok(Header(b0 >= 0x80, b0 % 16, b1 >= 0x80, length));
    }

    method ReadFrame() returns (r: Result<Frame, Failure>)
      modifies sock`rest
      ensures Taken(r, sock.rest) == ServerRead(old(sock.rest))
    {
      hide Take, Xor;
      var head := ReadHeader();
      if head.Err? {
        return Err(Closed);
      }
      var h := head.value;
      if !h.fin || h.length > MAX_PAYLOAD || !h.masked {
        return Err(Closed);
      }
      var mask := RecvExact(4);
      if mask.Err? {
        return Err(Closed);
      }
      var body: Result<seq<byte>, Failure> := Ok([]);
      if h.length > 0 {
        body := RecvExact(h.length);
      } else {
        TakeNothing(sock.rest);
      }
      if body.Err? {
        return Err(Closed);
      }
      return Ok(Frame(h.op, Masked(body.value, mask.value)));
    }

    /** The next text frame that decodes to an object, or None on close. */
    method ReadJson(isObject: seq<byte> -> bool) returns (text: Option<seq<byte>>)
      modifies this, sock
      ensures old(closed) ==> text == None && closed && sock.rest == old(sock.rest) && sock.sent == old(sock.sent)
      ensures !old(closed) ==>
                var o := NextText(old(sock.rest), isObject);
                text == o.text && closed == o.closed && sock.rest == o.rest && sock.sent == old(sock.sent) + o.replies
    {
      hide ServerRead, ServerBytes, NextText;
      ghost var goal := NextText(sock.rest, isObject);
      ghost var start := sock.sent;
      ghost var replied: seq<byte> := [];
      while !closed
        invariant old(closed) ==> closed && sock.rest == old(sock.rest) && sock.sent == old(sock.sent)
        invariant !old(closed) ==> sock.sent == start + replied
        invariant !old(closed) && !closed ==> Continues(goal, NextText(sock.rest, isObject), replied)
        invariant !old(closed) && closed ==> goal == Outcome(None, sock.rest, replied, true)
        decreases !closed, |sock.rest|
      {
        NextTextTurn(sock.rest, isObject);
        var frame := ReadFrame();
        if frame.Err? {
          closed := true;
          assert replied + [] == replied;
          return None;
        }
        var f := frame.value;
        if f.op == OP_CLOSE {
          Close();
          replied := replied + ServerBytes(CLOSE_FRAME);
          return None;
        }
        if f.op == OP_PING {
          var _ := SendFrame(Frame(OP_PONG, f.payload));
          ContinuesOn(goal, NextText(sock.rest, isObject), replied, ServerBytes(Frame(OP_PONG, f.payload)));
          replied := replied + ServerBytes(Frame(OP_PONG, f.payload));
        } else if f.op == OP_TEXT && isObject(f.payload) {
          assert replied + [] == replied;
          return Some(f.payload);
        }
      }
      return None;
    }
  }

  ghost predicate Continues(goal: Outcome, next: Outcome, replied: seq<byte>) {
    goal == next.(replies := replied + next.replies)
  }

  lemma ContinuesOn(goal: Outcome, next: Outcome, replied: seq<byte>, reply: seq<byte>)
    requires Continues(goal, next.(replies := reply + next.replies), replied)
    ensures Continues(goal, next, replied + reply)
  {
    assert replied + (reply + next.replies) == (replied + reply) + next.replies;
  }

  lemma TakeNothing(stream: seq<byte>)
    ensures Take(stream, 0) == Taken(Ok([]), stream)
  {
  }

  class WsClient {
    const sock: ByteSocket
    var buf: seq<byte>

    constructor (sock: ByteSocket, leftover: seq<byte>)
      ensures this.sock == sock && buf == leftover
    {
      this.sock, buf := sock, leftover;
    }

    /** The bytes not yet consumed: those read ahead, then those still to arrive. */
    function Stream(): seq<byte>
      reads this, sock
    {
      buf + sock.rest
    }

    method SendFrame(f: Frame, mask: Mask)
      modifies sock`sent
      ensures sock.sent == old(sock.sent) + ClientBytes(f, mask)
    {
      var length := |f.payload|;
      var header: seq<byte>;
      if length < 126 {
        header := [0x80 + f.op, 0x80 + length];
      } else if length < 65536 {
        header := [0x80 + f.op, 0x80 + 126] + Be(2, length);
      } else {
        header := [0x80 + f.op, 0x80 + 127] + Be(8, length);
      }
      var masked := Masked(f.payload, mask);
      sock.SendAll(header + mask + masked);
      assert header == [0x80 + f.op] + LengthField(length, 0x80);
      assert header + mask + masked == [0x80 + f.op] + LengthField(length, 0x80) + (mask + masked);
    }

    method ReadAtLeast(count: nat) returns (ended: bool)
      modifies this`buf, sock`rest
      ensures Stream() == old(Stream())
      ensures if ended then sock.rest == [] && |buf| < count else |buf| >= count
    {
      while |buf| < count
        invariant Stream() == old(Stream())
        decreases |sock.rest|
      {
        var chunk := sock.Recv(4096);
        if chunk == [] {
          return true;
        }
        buf := buf + chunk;
      }
      return false;
    }

    /** A stream that ends first raises, and leaves its last bytes in the buffer. */
    method Take(count: nat) returns (r: Result<seq<byte>, Failure>)
      modifies this`buf, sock`rest
      ensures r == WebSocket.Take(old(Stream()), count).result
      ensures Stream() == if r.Ok? then WebSocket.Take(old(Stream()), count).rest else old(Stream())
    {
      var ended := ReadAtLeast(count);
      if ended {
        return Err(Closed);
      }
      var data := buf[..count];
      assert buf + sock.rest == data + (buf[count..] + sock.rest);
      TakeFront(data, buf[count..] + sock.rest);
      buf := buf[count..];
      return Ok(data);
    }

    method ReadHeader() returns (r: Result<Header, Failure>)
      modifies this`buf, sock`rest
      ensures r == WebSocket.ReadHeader(old(Stream())).result
      ensures r.Ok? ==> Stream() == WebSocket.ReadHeader(old(Stream())).rest
    {
      hide WebSocket.Take;
      var head := Take(2);
      if head.Err? {
        return Err(Closed);
      }
      var b0, b1 := head.value[0], head.value[1];
      var length: nat := b1 % 0x80;
      if length == 126 {
        var field := Take(2);
        if field.Err? {
          return Err(Closed);
        }
        length := FromBe(field.value);
      } else if length == 127 {
        var field := Take(8);
        if field.Err? {
          return Err(Closed);
        }
        length := FromBe(field.value);
      } else {
        TakeNothing(Stream());
      }
      return Ok(Header(b0 >= 0x80, b0 % 16, b1 >= 0x80, length));
    }

    method ReadFrame() returns (r: Result<Frame, Failure>)
      modifies this`buf, sock`rest
      ensures r == ClientRead(old(Stream())).result
      ensures r.Ok? ==> Stream() == ClientRead(old(Stream())).rest
    {
      hide WebSocket.Take, Xor;
      var head := ReadHeader();
      if head.Err? {
        return Err(Closed);
      }
      var h := head.value;
      var mask: Result<seq<byte>, Failure> := Ok([]);
      if h.masked {
        mask := Take(4);
      } else {
        TakeNothing(Stream());
      }
      if mask.Err? {
        return Err(Closed);
      }
      var body: Result<seq<byte>, Failure> := Ok([]);
      if h.length > 0 {
        body := Take(h.length);
      } else {
        TakeNothing(Stream());
      }
      if body.Err? {
        return Err(Closed);
      }
      return Ok(Frame(h.op, if h.masked then Masked(body.value, mask.value) else body.value));
    }
  }
}

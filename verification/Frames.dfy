/** Length-prefixed frames of void-net/src/socket.rs over a byte stream that hands
    out its bytes in arbitrary portions. Sockets and their errors are left out. */
module Frames {
  import opened Options
  import opened VarInt
  import opened Sequences

  const FRAME_HEADER_BYTES := 5

  datatype FrameError =
    | PeerClosed
    | TruncatedLengthPrefix(read: nat)
    | InvalidLengthVarInt
    | NegativeLength(length: int)
    | EmptyFrame
    | FrameTooLarge(requested: nat, limit: nat)
    | OutboundLengthOverflow(requested: nat)
    | TruncatedFrame(expected: nat, received: nat)

  // ---- what is written --------------------------------------------------------------

  /** What a body is refused for, if anything. */
  function Refusal(limit: nat, body: bytes): Option<FrameError> {
    if |body| > limit then Some(FrameTooLarge(|body|, limit))
    else if |body| > I32_MAX then Some(OutboundLengthOverflow(|body|))
    else None
  }

  function Header(n: nat): bytes {
    Encoded(n)
  }

  function FrameOf(body: bytes): bytes {
    Header(|body|) + body
  }

  function Written(limit: nat, body: bytes): bytes {
    if Refusal(limit, body).Some? then [] else FrameOf(body)
  }

  class Writer {
    const limit: nat
    const retained: nat
    var stream: bytes
    var frame: bytes

    constructor (limit: nat)
      ensures this.limit == limit && stream == []
    {
      this.limit, retained := limit, limit / 8;
      stream, frame := [], [];
    }

    /** The body is built behind five reserved bytes; the header is put in front of it
        without a gap. */
    method Send(body: bytes) returns (refused: Option<FrameError>)
      modifies this
      ensures refused == Refusal(limit, body)
      ensures stream == old(stream) + Written(limit, body)
    {
      frame := [0, 0, 0, 0, 0];
      frame := frame + body;
      refused := WriteFrame(|frame| - FRAME_HEADER_BYTES);
      if |frame| > retained {
        frame := [];
      }
    }

    method WriteFrame(bodyLen: nat) returns (refused: Option<FrameError>)
      requires |frame| == FRAME_HEADER_BYTES + bodyLen
      modifies this
      ensures var body := old(frame)[FRAME_HEADER_BYTES..];
              refused == Refusal(limit, body) && stream == old(stream) + Written(limit, body)
      ensures |frame| == |old(frame)|
    {
      ghost var body := frame[FRAME_HEADER_BYTES..];
      if bodyLen > limit {
        return Some(FrameTooLarge(bodyLen, limit));
      }
      if bodyLen > I32_MAX {
        return Some(OutboundLengthOverflow(bodyLen));
      }
      hide Header;
      var header, written := BuildHeader(bodyLen);
      var start := FRAME_HEADER_BYTES - written;
      var front := frame[..start] + header[..written];
      frame := front + frame[FRAME_HEADER_BYTES..];
      assert frame[start..] == Header(bodyLen) + body;
      stream := stream + frame[start..];
      return None;
    }
  }

  /** The header's bytes at the front of a buffer of the reserved size. */
  method BuildHeader(n: nat) returns (header: array<byte>, written: nat)
    requires n <= I32_MAX
    ensures fresh(header) && header.Length == FRAME_HEADER_BYTES
    ensures written <= FRAME_HEADER_BYTES && header[..written] == Header(n)
  {
    HeaderFits(n);
    header := new byte[FRAME_HEADER_BYTES](_ => 0);
    var value := n;
    written := 0;
    while true
      invariant written < FRAME_HEADER_BYTES && written + |Encoded(value)| == |Header(n)|
      invariant Header(n) == header[..written] + Encoded(value)
      decreases value
    {
      hide Encoded;
      EncodedNext(value);
      ghost var done := header[..written];
      var b := value % 128;
      value := value / 128;
      if value != 0 {
        b := b + 128;
      }
      header[written] := b;
      written := written + 1;
      assert header[..written] == done + [b];
      if value == 0 {
        return;
      }
      Regroup(done, [b], Encoded(value));
    }
  }

  lemma EncodedNext(value: nat)
    ensures value / 128 == 0 ==> Encoded(value) == [value % 128]
    ensures value / 128 != 0 ==> Encoded(value) == [value % 128 + 128] + Encoded(value / 128)
    ensures |Encoded(value)| > 0
  {}

  lemma HeaderFits(n: nat)
    requires n <= I32_MAX
    ensures |Header(n)| <= FRAME_HEADER_BYTES && Header(n) == EncodeVar(W32, n)
  {
    RoundTrip(W32, n, []);
  }

  // ---- what is read ------------------------------------------------------------------

  datatype Prefix = Closed(read: nat) | TooLong | Complete(read: nat)

  /** The bytes up to one without a continuation bit, at most five. */
  function ScanPrefix(input: bytes, i: nat): (p: Prefix)
    requires i < FRAME_HEADER_BYTES && i <= |input|
    ensures p.Complete? ==> i < p.read <= FRAME_HEADER_BYTES && p.read <= |input|
    decreases FRAME_HEADER_BYTES - i
  {
    if i == |input| then Closed(i)
    else if input[i] < 128 then Complete(i + 1)
    else if i + 1 == FRAME_HEADER_BYTES then TooLong
    else ScanPrefix(input, i + 1)
  }

  lemma ScanUnfolds(input: bytes, i: nat)
    requires i < FRAME_HEADER_BYTES && i <= |input|
    ensures ScanPrefix(input, i) ==
            if i == |input| then Closed(i)
            else if input[i] < 128 then Complete(i + 1)
            else if i + 1 == FRAME_HEADER_BYTES then TooLong
            else ScanPrefix(input, i + 1)
  {}

  datatype Reception = Packet(body: bytes, rest: bytes) | Failed(error: FrameError)

  function Length(prefix: bytes): Option<int> {
    match ReadVar(W32, prefix)
    case Value(value, _) => if value < W32.Modulus() then Some(W32.FromPattern(value)) else None
    case _ => None
  }

  /** One frame off the front of the input. */
  function Receive(limit: nat, input: bytes): (r: Reception)
    ensures r.Packet? ==> |r.rest| < |input|
  {
    match ScanPrefix(input, 0)
    case Closed(read) => Failed(if read == 0 then PeerClosed else TruncatedLengthPrefix(read))
    case TooLong => Failed(InvalidLengthVarInt)
    case Complete(read) =>
      var length := Length(input[..read]);
      if length.None? then Failed(InvalidLengthVarInt)
      else if length.value < 0 then Failed(NegativeLength(length.value))
      else if length.value == 0 then Failed(EmptyFrame)
      else if length.value > limit then Failed(FrameTooLarge(length.value, limit))
      else
        var rest := input[read..];
        if |rest| < length.value then Failed(TruncatedFrame(length.value, |rest|))
        else Packet(rest[..length.value], rest[length.value..])
  }

  class Reader {
    const limit: nat
    var input: bytes

    constructor (limit: nat, input: bytes)
      ensures this.limit == limit && this.input == input
    {
      this.limit, this.input := limit, input;
    }

    /** A read returns some bytes that are there, as many as it likes, or none at the end. */
    method Read(most: nat) returns (chunk: bytes)
      requires most > 0
      modifies this
      ensures |chunk| <= most && chunk + input == old(input)
      ensures chunk == [] <==> old(input) == []
    {
      if input == [] {
        return [];
      }
      var n: nat :| 1 <= n <= most && n <= |input|;
      chunk := input[..n];
      input := input[n..];
    }

    static lemma OneMore(whole: bytes, before: bytes, rest: bytes, chunk: bytes, left: bytes)
      requires whole == before + rest && rest == chunk + left && |chunk| == 1
      ensures |before| < |whole| && whole[|before|] == chunk[0] && whole == before + chunk + left
    {
      Regroup(before, chunk, left);
    }

    /** One byte at a time up to the end of the prefix. */
    method ReadPrefix() returns (p: Prefix, prefix: bytes)
      modifies this
      ensures p == ScanPrefix(old(input), 0)
      ensures p.Complete? ==> |prefix| == p.read && old(input) == prefix + input
    {
      hide ScanPrefix;
      ghost var whole := input;
      prefix := [];
      assert whole == prefix + input;
      while true
        invariant |prefix| < FRAME_HEADER_BYTES && whole == prefix + input
        invariant ScanPrefix(whole, 0) == ScanPrefix(whole, |prefix|)
        decreases FRAME_HEADER_BYTES - |prefix|
      {
        ScanUnfolds(whole, |prefix|);
        ghost var (before, rest) := (prefix, input);
        var chunk := Read(1);
        if chunk == [] {
          return Closed(|prefix|), prefix;
        }
        OneMore(whole, before, rest, chunk, input);
        prefix := prefix + chunk;
        if chunk[0] < 128 {
          return Complete(|prefix|), prefix;
        }
        if |prefix| == FRAME_HEADER_BYTES {
          return TooLong, prefix;
        }
      }
    }

    /** As many reads as it takes to fill the body. */
    method ReadBody(len: nat) returns (body: bytes)
      modifies this
      ensures if |old(input)| < len then body == old(input)
              else body == old(input)[..len] && input == old(input)[len..]
    {
      ghost var rest := input;
      body := [];
      while |body| < len
        invariant |body| <= len && rest == body + input
      {
        var chunk := Read(len - |body|);
        if chunk == [] {
          return;
        }
        body := body + chunk;
      }
    }

    method ReceiveFrame() returns (r: Reception)
      modifies this
      ensures var spec := Receive(limit, old(input));
              if spec.Packet? then r.Packet? && r.body == spec.body && input == spec.rest else r == spec
    {
      hide ScanPrefix, Length;
      ghost var whole := input;
      var p, prefix := ReadPrefix();
      if p.Closed? {
        return Failed(if p.read == 0 then PeerClosed else TruncatedLengthPrefix(p.read));
      }
      if p.TooLong? {
        return Failed(InvalidLengthVarInt);
      }
      assert whole[..p.read] == prefix && whole[p.read..] == input;
      var length := Length(prefix);
      if length.None? {
        return Failed(InvalidLengthVarInt);
      }
      var len := length.value;
      if len < 0 {
        return Failed(NegativeLength(len));
      }
      if len == 0 {
        return Failed(EmptyFrame);
      }
      if len > limit {
        return Failed(FrameTooLarge(len, limit));
      }
      var body := ReadBody(len);
      if |body| < len {
        return Failed(TruncatedFrame(len, |body|));
      }
      r := Packet(body, []);
    }
  }

  // ---- what is sent is what is received ------------------------------------------------

  lemma {:induction false} PrefixOfEncoded(before: bytes, value: nat, more: bytes)
    requires |before| + |Encoded(value)| <= FRAME_HEADER_BYTES
    ensures ScanPrefix(before + Encoded(value) + more, |before|) == Complete(|before| + |Encoded(value)|)
    decreases value
  {
    var input := before + Encoded(value) + more;
    assert input[|before|] == Encoded(value)[0];
    if value >= 128 {
      var b := value % 128 + 128;
      assert input == (before + [b]) + Encoded(value / 128) + more;
      PrefixOfEncoded(before + [b], value / 128, more);
    }
  }

  lemma LengthOfHeader(n: nat)
    requires n <= I32_MAX
    ensures Length(Header(n)) == Some(n)
  {
    RoundTrip(W32, n, []);
    assert Encoded(n) + [] == Encoded(n);
  }

  /** A frame at the front of the input is received whole, or refused for its length. */
  lemma ReceiveWritten(limit: nat, body: bytes, more: bytes)
    requires |body| <= I32_MAX
    ensures Receive(limit, FrameOf(body) + more)
            == if body == [] then Failed(EmptyFrame)
               else if |body| > limit then Failed(FrameTooLarge(|body|, limit))
               else Packet(body, more)
  {
    var (h, input) := (Header(|body|), FrameOf(body) + more);
    HeaderFits(|body|);
    PrefixOfEncoded([], |body|, body + more);
    assert input == [] + h + (body + more);
    assert input[..|h|] == h && input[|h|..] == body + more;
    assert (body + more)[..|body|] == body && (body + more)[|body|..] == more;
    LengthOfHeader(|body|);
    hide Length;
  }

  /** The sender refuses exactly the bodies over the limit, and those are the ones that a
      receiver with the same limit would refuse for their size. */
  lemma RefusedAtBothEnds(limit: nat, body: bytes, more: bytes)
    requires |body| <= I32_MAX
    ensures Refusal(limit, body) == if |body| > limit then Some(FrameTooLarge(|body|, limit)) else None
    ensures Refusal(limit, body).Some? <==> Receive(limit, FrameOf(body) + more) == Failed(FrameTooLarge(|body|, limit))
  {
    ReceiveWritten(limit, body, more);
    hide Receive, FrameOf;
  }

  lemma {:induction false} ScanCut(before: bytes, value: nat, m: nat)
    requires m < |Encoded(value)| && |before| + |Encoded(value)| <= FRAME_HEADER_BYTES
    ensures ScanPrefix(before + Encoded(value)[..m], |before|) == Closed(|before| + m)
    decreases value
  {
    var input := before + Encoded(value)[..m];
    if m > 0 {
      var b := value % 128 + 128;
      assert Encoded(value) == [b] + Encoded(value / 128);
      assert input[|before|] == b;
      assert input == (before + [b]) + Encoded(value / 128)[..m - 1];
      ScanCut(before + [b], value / 128, m - 1);
    }
  }

  /** Cut short after n bytes, a frame is told from a closed connection, and the error says how
      much of the prefix or of the body has come. */
  lemma FrameCutShort(limit: nat, body: bytes, n: nat)
    requires 0 < |body| <= limit && |body| <= I32_MAX && n < |FrameOf(body)|
    ensures var h := |Header(|body|)|;
            Receive(limit, FrameOf(body)[..n]) ==
              Failed(if n == 0 then PeerClosed else if n < h then TruncatedLengthPrefix(n) else TruncatedFrame(|body|, n - h))
  {
    var (h, input) := (Header(|body|), FrameOf(body)[..n]);
    HeaderFits(|body|);
    if n < |h| {
      ScanCut([], |body|, n);
      assert input == [] + h[..n];
    } else {
      var rest := body[..n - |h|];
      PrefixOfEncoded([], |body|, rest);
      assert input == [] + h + rest;
      assert input[..|h|] == h && input[|h|..] == rest;
      LengthOfHeader(|body|);
    }
    hide Length, ScanPrefix, Encoded;
  }

  /** The header is the shortest prefix any reader accepts for the length. */
  lemma HeaderIsMinimal(prefix: bytes, n: nat)
    requires n <= I32_MAX && ReadVar(W32, prefix) == Value(n, |prefix|)
    ensures |Header(n)| <= |prefix| && (|Header(n)| == |prefix| ==> prefix == Header(n))
  {
    EncoderIsCanonical(W32, prefix);
    assert prefix[..|prefix|] == prefix;
  }

  function Accepted(limit: nat, bodies: seq<bytes>): seq<bytes> {
    if bodies == [] then []
    else (if Refusal(limit, bodies[0]).None? then [bodies[0]] else []) + Accepted(limit, bodies[1..])
  }

  function Stream(bodies: seq<bytes>): bytes {
    if bodies == [] then [] else FrameOf(bodies[0]) + Stream(bodies[1..])
  }

  /** Everything received until the first failure. */
  function Drain(limit: nat, input: bytes): (seq<bytes>, FrameError)
    decreases |input|
  {
    match Receive(limit, input)
    case Failed(e) => ([], e)
    case Packet(body, rest) =>
      var (bodies, e) := Drain(limit, rest);
      ([body] + bodies, e)
  }

  predicate Deliverable(limit: nat, body: bytes) {
    0 < |body| <= limit
  }

  ghost predicate AllDeliverable(limit: nat, bodies: seq<bytes>) {
    forall i :: 0 <= i < |bodies| ==> Deliverable(limit, bodies[i])
  }

  lemma DrainNext(limit: nat, head: bytes, tail: seq<bytes>)
    requires |head| <= I32_MAX
    ensures var (d, rest) := (Drain(limit, Stream([head] + tail)), Drain(limit, Stream(tail)));
            if Deliverable(limit, head) then d == ([head] + rest.0, rest.1) else d.0 == [] && d.1 != PeerClosed
  {
    assert ([head] + tail)[1..] == tail;
    ReceiveWritten(limit, head, Stream(tail));
    hide Receive, FrameOf;
  }

  lemma DeliverableNext(limit: nat, head: bytes, tail: seq<bytes>)
    ensures AllDeliverable(limit, [head] + tail) <==> Deliverable(limit, head) && AllDeliverable(limit, tail)
  {
    var all := [head] + tail;
    assert all[0] == head && forall i :: 0 <= i < |tail| ==> all[i + 1] == tail[i];
    hide Deliverable;
  }

  lemma NothingDrained(limit: nat)
    ensures Drain(limit, Stream([])) == ([], PeerClosed) && AllDeliverable(limit, [])
  {}

  lemma {:induction false} DrainStream(limit: nat, bodies: seq<bytes>)
    requires forall i :: 0 <= i < |bodies| ==> |bodies[i]| <= I32_MAX
    ensures Drain(limit, Stream(bodies)) == (bodies, PeerClosed) <==> AllDeliverable(limit, bodies)
    ensures Drain(limit, Stream(bodies)).0 <= bodies
  {
    hide Drain, Stream, AllDeliverable, Deliverable;
    if bodies == [] {
      NothingDrained(limit);
    } else {
      var (head, tail) := (bodies[0], bodies[1..]);
      assert bodies == [head] + tail;
      DrainNext(limit, head, tail);
      DeliverableNext(limit, head, tail);
      DrainStream(limit, tail);
    }
  }

  lemma {:induction false} AcceptedAreShort(limit: nat, bodies: seq<bytes>)
    ensures forall i :: 0 <= i < |Accepted(limit, bodies)| ==> |Accepted(limit, bodies)[i]| <= I32_MAX
  {
    if bodies != [] {
      AcceptedAreShort(limit, bodies[1..]);
    }
  }

  lemma {:induction false} StreamAppend(a: seq<bytes>, b: seq<bytes>)
    ensures Stream(a + b) == Stream(a) + Stream(b)
  {
    if a == [] {
      assert a + b == b;
    } else {
      hide FrameOf;
      StreamAppend(a[1..], b);
      assert (a + b)[0] == a[0] && (a + b)[1..] == a[1..] + b;
      Regroup(FrameOf(a[0]), Stream(a[1..]), Stream(b));
    }
  }

  lemma {:induction false} AcceptedAppend(limit: nat, a: seq<bytes>, b: seq<bytes>)
    ensures Accepted(limit, a + b) == Accepted(limit, a) + Accepted(limit, b)
  {
    if a == [] {
      assert a + b == b;
    } else {
      hide Refusal;
      AcceptedAppend(limit, a[1..], b);
      assert (a + b)[0] == a[0] && (a + b)[1..] == a[1..] + b;
      Regroup(if Refusal(limit, a[0]).None? then [a[0]] else [], Accepted(limit, a[1..]), Accepted(limit, b));
    }
  }

  /** Sends in order; the refused ones leave no trace on the stream. */
  method SendAll(w: Writer, bodies: seq<bytes>)
    modifies w
    ensures w.stream == old(w.stream) + Stream(Accepted(w.limit, bodies))
  {
    hide Stream, Accepted, Written, Refusal;
    assert Stream(Accepted(w.limit, bodies[..0])) == [] by { NothingSent(w.limit); }
    for i := 0 to |bodies|
      invariant w.stream == old(w.stream) + Stream(Accepted(w.limit, bodies[..i]))
    {
      var _ := w.Send(bodies[i]);
      assert bodies[..i + 1] == bodies[..i] + [bodies[i]];
      SentOne(w.limit, bodies[..i], bodies[i]);
    }
    assert bodies[..|bodies|] == bodies;
  }

  lemma NothingSent(limit: nat)
    ensures Stream(Accepted(limit, [])) == []
  {}

  lemma SentOne(limit: nat, before: seq<bytes>, body: bytes)
    ensures Stream(Accepted(limit, before + [body])) == Stream(Accepted(limit, before)) + Written(limit, body)
  {
    AcceptedAppend(limit, before, [body]);
    var one := Accepted(limit, [body]);
    assert one == if Refusal(limit, body).None? then [body] else [];
    StreamAppend(Accepted(limit, before), one);
    assert Stream([body]) == FrameOf(body) + Stream([]);
    hide FrameOf, Refusal;
  }

  /** Receives until the first failure, however the stream portions its bytes. */
  method ReceiveAll(r: Reader) returns (bodies: seq<bytes>, end: FrameError)
    modifies r
    ensures (bodies, end) == Drain(r.limit, old(r.input))
  {
    hide Receive;
    bodies := [];
    ghost var whole := r.input;
    while true
      invariant var rest := Drain(r.limit, r.input);
                Drain(r.limit, whole).0 == bodies + rest.0 && Drain(r.limit, whole).1 == rest.1
      decreases |r.input|
    {
      ghost var before := r.input;
      var one := r.ReceiveFrame();
      if one.Failed? {
        assert Drain(r.limit, before) == ([], one.error);
        assert bodies + [] == bodies;
        return bodies, one.error;
      }
      ghost var rest := Drain(r.limit, r.input);
      assert bodies + ([one.body] + rest.0) == (bodies + [one.body]) + rest.0;
      bodies := bodies + [one.body];
    }
  }

  /** The bytes written for any sends arrive as exactly the accepted bodies, in order
      and then a clean end, if and only if each of those is non-empty and within the
      reader's limit; what arrives is otherwise a prefix of them. */
  lemma ReceivedAsSent(outbound: nat, inbound: nat, bodies: seq<bytes>)
    ensures var accepted := Accepted(outbound, bodies);
            && (Drain(inbound, Stream(accepted)) == (accepted, PeerClosed) <==> AllDeliverable(inbound, accepted))
            && Drain(inbound, Stream(accepted)).0 <= accepted
  {
    AcceptedAreShort(outbound, bodies);
    DrainStream(inbound, Accepted(outbound, bodies));
  }
}

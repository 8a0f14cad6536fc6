/** Length-prefixed frames over a byte stream that hands out its bytes in arbitrary chunks (protocol.py). */
module Frames {
  import opened Wrappers
  import opened Wire

  const MAX_FRAME_BYTES: nat := 1_048_576

  /** The reading end of a socket: `rest` has yet to arrive, and `cuts` says how large the next chunks are. */
  class Stream {
    var rest: seq<Byte>
    var cuts: seq<nat>

    constructor (bytes: seq<Byte>, cuts: seq<nat>)
      ensures rest == bytes && this.cuts == cuts
    {
      rest, this.cuts := bytes, cuts;
    }

    /** recv(n): some of the bytes that are left, at most n, and none only at the end. */
    method Recv(n: nat) returns (chunk: seq<Byte>)
      requires n > 0
      modifies this
      ensures old(rest) == chunk + rest && |chunk| <= n
      ensures chunk == [] <==> old(rest) == []
    {
      var size := if cuts == [] || cuts[0] == 0 then 1 else cuts[0];
      cuts := if cuts == [] then [] else cuts[1..];
      size := if size < n then size else n;
      size := if size < |rest| then size else |rest|;
      chunk := rest[..size];
      rest := rest[size..];
    }
  }

  datatype Received = Bytes(bytes: seq<Byte>) | CleanEnd | Truncated

  /** _recv_exact: the next bytes whatever the chunks, a clean end only before the first of them. */
  method RecvExact(stream: Stream, count: nat, allowCleanEof: bool) returns (r: Received)
    modifies stream
    ensures |old(stream.rest)| >= count ==> r == Bytes(old(stream.rest)[..count]) && stream.rest == old(stream.rest)[count..]
    ensures |old(stream.rest)| < count ==>
      stream.rest == [] && r == if allowCleanEof && old(stream.rest) == [] then CleanEnd else Truncated
  {
    var got: seq<Byte> := [];
    var remaining := count;
    while remaining > 0
      invariant 0 <= remaining && remaining + |got| == count && old(stream.rest) == got + stream.rest
    {
      var chunk := stream.Recv(remaining);
      if chunk == [] {
        return if allowCleanEof && got == [] then CleanEnd else Truncated;
      }
      got := got + chunk;
      remaining := remaining - |chunk|;
    }
    assert (got + stream.rest)[..count] == got && (got + stream.rest)[count..] == stream.rest;
    return Bytes(got);
  }

  // ---- Frames ----------------------------------------------------------------------------

  /** n.to_bytes(4, "big") */
  function Header(n: nat): seq<Byte>
    requires n <= MAX_FRAME_BYTES
  {
    [n / 16777216, n / 65536 % 256, n / 256 % 256, n % 256]
  }

  /** int.from_bytes(header, "big") */
  function Length(h: seq<Byte>): nat
    requires |h| == 4
  {
    var a: int, b: int, c: int, d: int := h[0], h[1], h[2], h[3];
    ((a * 256 + b) * 256 + c) * 256 + d
  }

  lemma HeaderRoundTrip(n: nat)
    requires n <= MAX_FRAME_BYTES
    ensures Length(Header(n)) == n
  {
    assert n / 65536 == n / 256 / 256 && n / 16777216 == n / 65536 / 256;
  }

  /** encode_message for an encoded message: refused when empty or over the limit. */
  function Frame(payload: seq<Byte>): Option<seq<Byte>> {
    if payload == [] || |payload| > MAX_FRAME_BYTES then None else Some(Header(|payload|) + payload)
  }

  datatype Message = Message(payload: seq<Byte>) | Closed | Invalid

  /** What recv_message finds at the front of a stream, and what it leaves. */
  function Front(bytes: seq<Byte>): (Message, seq<Byte>) {
    if bytes == [] then (Closed, [])
    else if |bytes| < 4 then (Invalid, [])
    else
      var n := Length(bytes[..4]);
      if n == 0 || n > MAX_FRAME_BYTES then (Invalid, bytes[4..])
      else if |bytes| < 4 + n then (Invalid, [])
      else (Message(bytes[4..4 + n]), bytes[4 + n..])
  }

  /** recv_message up to the text of the message, for every chunking. */
  method RecvMessage(stream: Stream) returns (r: Message)
    modifies stream
    ensures (r, stream.rest) == Front(old(stream.rest))
  {
    ghost var all := stream.rest;
    var header := RecvExact(stream, 4, true);
    if header.CleanEnd? {
      return Closed;
    }
    if header.Truncated? {
      return Invalid;
    }
    var n := Length(header.bytes);
    if n == 0 || n > MAX_FRAME_BYTES {
      return Invalid;
    }
    var payload := RecvExact(stream, n, false);
    if !payload.Bytes? {
      return Invalid;
    }
    assert all[4..][..n] == all[4..4 + n] && all[4..][n..] == all[4 + n..];
    return Message(payload.bytes);
  }

  /** The first frame reads back, whatever follows it. */
  lemma FrontOfFrame(payload: seq<Byte>, tail: seq<Byte>)
    requires Frame(payload).Some?
    ensures Front(Frame(payload).value + tail) == (Message(payload), tail)
  {
    var bytes, n := Frame(payload).value + tail, |payload|;
    HeaderRoundTrip(n);
    assert bytes[..4] == Header(n);
    assert bytes[4..4 + n] == payload;
    assert bytes[4 + n..] == tail;
  }

  predicate AllFrame(payloads: seq<seq<Byte>>) { forall i :: 0 <= i < |payloads| ==> Frame(payloads[i]).Some? }

  function Joined(payloads: seq<seq<Byte>>): seq<Byte>
    requires AllFrame(payloads)
  {
    if payloads == [] then [] else Frame(payloads[0]).value + Joined(payloads[1..])
  }

  /** A reader's loop: messages until the peer closes between frames. */
  method ReadAll(stream: Stream) returns (messages: seq<seq<Byte>>, clean: bool)
    modifies stream
    ensures (messages, clean) == Messages(old(stream.rest))
  {
    messages := [];
    ghost var all := stream.rest;
    assert [] + Messages(all).0 == Messages(all).0;
    while true
      invariant Messages(all).0 == messages + Messages(stream.rest).0 && Messages(all).1 == Messages(stream.rest).1
      decreases |stream.rest|
    {
      ghost var before := stream.rest;
      var m := RecvMessage(stream);
      FrontShrinks(before);
      if !m.Message? {
        assert messages + [] == messages;
        return messages, m.Closed?;
      }
      assert messages + ([m.payload] + Messages(stream.rest).0) == messages + [m.payload] + Messages(stream.rest).0;
      messages := messages + [m.payload];
    }
  }

  lemma FrontShrinks(bytes: seq<Byte>)
    ensures Front(bytes).0.Message? ==> |Front(bytes).1| < |bytes|
  {
  }

  /** Every message of a stream, and whether it ended between frames. */
  function Messages(bytes: seq<Byte>): (seq<seq<Byte>>, bool)
    decreases |bytes|
  {
    var (m, rest) := Front(bytes);
    if !m.Message? then ([], m.Closed?)
    else
      FrontShrinks(bytes);
      var (more, clean) := Messages(rest);
      ([m.payload] + more, clean)
  }

  /** Frames read back in order and in full. */
  lemma {:induction false} FramesRoundTrip(payloads: seq<seq<Byte>>)
    requires AllFrame(payloads)
    ensures Messages(Joined(payloads)) == (payloads, true)
  {
    if payloads != [] {
      FrontOfFrame(payloads[0], Joined(payloads[1..]));
      FramesRoundTrip(payloads[1..]);
      assert payloads == [payloads[0]] + payloads[1..];
    }
  }

  lemma CutFrame(last: seq<Byte>, n: nat)
    requires Frame(last).Some? && 0 < n < |Frame(last).value|
    ensures Messages(Frame(last).value[..n]) == ([], false)
  {
    var cut := Frame(last).value[..n];
    HeaderRoundTrip(|last|);
    if n >= 4 {
      assert cut[..4] == Header(|last|);
    }
  }

  /** A stream cut short anywhere inside its last frame yields the earlier messages and is not a clean end. */
  lemma {:induction false} TruncationSeen(payloads: seq<seq<Byte>>, last: seq<Byte>, n: nat)
    requires AllFrame(payloads) && Frame(last).Some? && 0 < n < |Frame(last).value|
    ensures Messages(Joined(payloads) + Frame(last).value[..n]) == (payloads, false)
  {
    hide Frame, Front;
    var cut := Frame(last).value[..n];
    if payloads == [] {
      assert Joined(payloads) + cut == cut;
      CutFrame(last, n);
    } else {
      FrontOfFrame(payloads[0], Joined(payloads[1..]) + cut);
      assert Joined(payloads) + cut == Frame(payloads[0]).value + (Joined(payloads[1..]) + cut);
      TruncationSeen(payloads[1..], last, n);
      assert payloads == [payloads[0]] + payloads[1..];
    }
  }

  /** Four bytes are the header of the number they spell. */
  lemma LengthRoundTrip(h: seq<Byte>)
    requires |h| == 4 && Length(h) <= MAX_FRAME_BYTES
    ensures Header(Length(h)) == h
  {
    var a: int, b: int, c: int, d: int := h[0], h[1], h[2], h[3];
    Digits256((a * 256 + b) * 256 + c, d);
    Digits256(a * 256 + b, c);
    Digits256(a, b);
    HighDigits(Length(h));
  }

  lemma Digits256(q: int, r: int)
    requires 0 <= q && 0 <= r < 256
    ensures (q * 256 + r) / 256 == q && (q * 256 + r) % 256 == r
  {
  }

  lemma HighDigits(n: nat)
    ensures n / 65536 == n / 256 / 256 && n / 16777216 == n / 256 / 256 / 256
  {
  }

  /** What is read as a message is its frame. */
  lemma FrontIsFrame(bytes: seq<Byte>)
    requires Front(bytes).0.Message?
    ensures Frame(Front(bytes).0.payload).Some? && bytes == Frame(Front(bytes).0.payload).value + Front(bytes).1
  {
    hide Header, Length;
    var n := Length(bytes[..4]);
    LengthRoundTrip(bytes[..4]);
    assert bytes == bytes[..4] + bytes[4..4 + n] + bytes[4 + n..];
  }

  /** A stream that ends cleanly is nothing but the frames of the messages read from it. */
  lemma {:induction false} CleanOnlyFrames(bytes: seq<Byte>)
    requires Messages(bytes).1
    ensures AllFrame(Messages(bytes).0) && bytes == Joined(Messages(bytes).0)
    decreases |bytes|
  {
    hide Front, Frame;
    FrontClosed(bytes);
    var (m, rest) := Front(bytes);
    if m.Message? {
      FrontShrinks(bytes);
      FrontIsFrame(bytes);
      CleanOnlyFrames(rest);
      assert Messages(bytes).0[1..] == Messages(rest).0;
    }
  }

  lemma FrontClosed(bytes: seq<Byte>)
    ensures Front(bytes).0.Closed? <==> bytes == []
  {
  }
}

/**
 The stream decoder between the desktop shell and its host process: bytes arrive in arbitrary
 chunks, lines end in a newline, and a line carries a message behind a fixed prefix. A line over
 the limit clears the buffer and fails the call, with the messages it had already found.

 Decoding a payload is a parameter; a payload that does not decode is skipped.
 */
module HostFrames {
  import opened Options

  newtype Byte = b: int | 0 <= b < 256

  type Bytes = seq<Byte>

  type Message = string

  const NEWLINE: Byte := 10
  const CARRIAGE_RETURN: Byte := 13
  const MAX_REQUEST_BYTES := 32 * 1024 * 1024
  const MAX_HOST_LINE_BYTES := MAX_REQUEST_BYTES + 1024

  /** The text `CAVALRY_IPC_V1:` in ASCII. */
  const PROTOCOL_PREFIX: Bytes := [67, 65, 86, 65, 76, 82, 89, 95, 73, 80, 67, 95, 86, 49, 58]

  datatype Outcome = Taken(messages: seq<Message>, rest: Bytes) | TooLong

  // ----- Lines -----

  function NewlineAt(s: Bytes): (r: Option<nat>)
    ensures r.Some? ==> r.value < |s| && s[r.value] == NEWLINE && forall j :: 0 <= j < r.value ==> s[j] != NEWLINE
    ensures r.None? ==> forall j :: 0 <= j < |s| ==> s[j] != NEWLINE
    decreases |s|
  {
    if s == [] then None
    else if s[0] == NEWLINE then Some(0)
    else
      var rest := NewlineAt(s[1..]);
      if rest.None? then None else Some(rest.value + 1)
  }

  /** The first position at which the prefix stands. */
  function PrefixAt(line: Bytes): (r: Option<nat>)
    ensures r.Some? ==> r.value + |PROTOCOL_PREFIX| <= |line|
    decreases |line|
  {
    if |line| < |PROTOCOL_PREFIX| then None
    else if line[..|PROTOCOL_PREFIX|] == PROTOCOL_PREFIX then Some(0)
    else
      var rest := PrefixAt(line[1..]);
      if rest.Some? then Some(rest.value + 1) else None
  }

  function WithoutReturn(line: Bytes): Bytes {
    if line != [] && line[|line| - 1] == CARRIAGE_RETURN then line[..|line| - 1] else line
  }

  /** The messages of one line: none or one. */
  function MessageOf(parse: Bytes -> Option<Message>, line: Bytes): seq<Message> {
    var text := WithoutReturn(line);
    var at := PrefixAt(text);
    if at.None? then []
    else
      var value := parse(text[at.value + |PROTOCOL_PREFIX|..]);
      if value.Some? then [value.value] else []
  }

  /** How a decoder reads a line, given how it decodes a payload. */
  function Reader(parse: Bytes -> Option<Message>): Bytes -> seq<Message> {
    line => MessageOf(parse, line)
  }

  /** Takes every complete line off the front. */
  function Take(read: Bytes -> seq<Message>, s: Bytes): Outcome
    decreases |s|
  {
    var at := NewlineAt(s);
    if at.None? then
      if |s| > MAX_HOST_LINE_BYTES then TooLong else Taken([], s)
    else if at.value > MAX_HOST_LINE_BYTES then TooLong
    else Before(read(s[..at.value]), Take(read, s[at.value + 1..]))
  }

  function Before(messages: seq<Message>, o: Outcome): Outcome {
    if o.TooLong? then TooLong else Taken(messages + o.messages, o.rest)
  }

  /** The rest of a stream, taken behind what was left of its first part. */
  function Then(read: Bytes -> seq<Message>, o: Outcome, more: Bytes): Outcome {
    if o.TooLong? then TooLong else Before(o.messages, Take(read, o.rest + more))
  }

  lemma BeforeAssociates(a: seq<Message>, b: seq<Message>, o: Outcome)
    ensures Before(a, Before(b, o)) == Before(a + b, o)
  {
  }

  // ----- Chunks -----

  function Joined(chunks: seq<Bytes>): Bytes
    decreases |chunks|
  {
    if chunks == [] then [] else chunks[0] + Joined(chunks[1..])
  }

  /** Feeds the chunks one call at a time; it is too long as soon as one call says so. */
  function FeedAll(read: Bytes -> seq<Message>, buffer: Bytes, chunks: seq<Bytes>): Outcome
    decreases |chunks|
  {
    if chunks == [] then Taken([], buffer)
    else
      match Take(read, buffer + chunks[0])
      case TooLong => TooLong
      case Taken(messages, rest) => Before(messages, FeedAll(read, rest, chunks[1..]))
  }

  /** What a decoder holds between calls. */
  predicate Settled(buffer: Bytes) {
    NEWLINE !in buffer && |buffer| <= MAX_HOST_LINE_BYTES
  }

  lemma {:induction false} LeftoverIsSettled(read: Bytes -> seq<Message>, s: Bytes)
    ensures Take(read, s).Taken? ==> Settled(Take(read, s).rest)
    decreases |s|
  {
    var at := NewlineAt(s);
    if at.Some? {
      LeftoverIsSettled(read, s[at.value + 1..]);
    }
  }

  lemma NewlineIs(s: Bytes, i: nat)
    requires i < |s| && s[i] == NEWLINE && forall j :: 0 <= j < i ==> s[j] != NEWLINE
    ensures NewlineAt(s) == Some(i)
  {
  }

  lemma NewlineOfAppend(s: Bytes, t: Bytes)
    ensures NewlineAt(s).Some? ==> NewlineAt(s + t) == NewlineAt(s)
    ensures NewlineAt(s).None? && NewlineAt(s + t).Some? ==> NewlineAt(s + t).value >= |s|
  {
    if NewlineAt(s).Some? {
      NewlineIs(s + t, NewlineAt(s).value);
    }
  }

  /** Taking a stream in two parts, the second behind the first one's leftover, takes the same as at once. */
  lemma {:induction false} TakeInTwoParts(read: Bytes -> seq<Message>, s: Bytes, t: Bytes)
    ensures Take(read, s + t) == Then(read, Take(read, s), t)
    decreases |s|
  {
    var at := NewlineAt(s);
    NewlineOfAppend(s, t);
    if at.Some? {
      var i := at.value;
      assert (s + t)[..i] == s[..i] && (s + t)[i + 1..] == s[i + 1..] + t;
      TakeInTwoParts(read, s[i + 1..], t);
      var tail := Take(read, s[i + 1..]);
      if tail.Taken? {
        BeforeAssociates(read(s[..i]), tail.messages, Take(read, tail.rest + t));
      }
    } else if |s| <= MAX_HOST_LINE_BYTES {
      BeforeNothing(Take(read, s + t));
    }
  }

  lemma BeforeNothing(o: Outcome)
    ensures Before([], o) == o
  {
  }

  /** However a stream is cut into chunks, the calls yield the messages and leftover of one call on the whole, and fail when it does. */
  lemma {:induction false} ChunkingDoesNotMatter(read: Bytes -> seq<Message>, buffer: Bytes, chunks: seq<Bytes>)
    requires Settled(buffer)
    ensures FeedAll(read, buffer, chunks) == Take(read, buffer + Joined(chunks))
    decreases |chunks|
  {
    if chunks == [] {
      assert buffer + [] == buffer;
    } else {
      var first, rest := chunks[0], chunks[1..];
      assert buffer + Joined(chunks) == (buffer + first) + Joined(rest);
      TakeInTwoParts(read, buffer + first, Joined(rest));
      LeftoverIsSettled(read, buffer + first);
      if Take(read, buffer + first).Taken? {
        ChunkingDoesNotMatter(read, Take(read, buffer + first).rest, rest);
      }
    }
  }

  // ----- What a host writes -----

  function Framed(payload: Bytes): Bytes {
    PROTOCOL_PREFIX + payload + [NEWLINE]
  }

  /** A payload that survives framing: on one line, within the limit, not ending in a return. */
  predicate Frameable(payload: Bytes) {
    && NEWLINE !in payload
    && |PROTOCOL_PREFIX| + |payload| <= MAX_HOST_LINE_BYTES
    && (payload != [] ==> payload[|payload| - 1] != CARRIAGE_RETURN)
  }

  function FramedAll(payloads: seq<Bytes>): Bytes
    decreases |payloads|
  {
    if payloads == [] then [] else Framed(payloads[0]) + FramedAll(payloads[1..])
  }

  function ParsedAll(parse: Bytes -> Option<Message>, payloads: seq<Bytes>): seq<Message>
    decreases |payloads|
  {
    if payloads == [] then []
    else
      var value := parse(payloads[0]);
      (if value.Some? then [value.value] else []) + ParsedAll(parse, payloads[1..])
  }

  lemma FrameIsOneLine(parse: Bytes -> Option<Message>, payload: Bytes)
    requires Frameable(payload)
    ensures NewlineAt(Framed(payload)) == Some(|PROTOCOL_PREFIX| + |payload|)
    ensures MessageOf(parse, PROTOCOL_PREFIX + payload) == if parse(payload).Some? then [parse(payload).value] else []
  {
    var line := PROTOCOL_PREFIX + payload;
    assert forall j :: 0 <= j < |line| ==> Framed(payload)[j] == line[j];
    assert forall j :: 0 <= j < |PROTOCOL_PREFIX| ==> PROTOCOL_PREFIX[j] != NEWLINE;
    NewlineIs(Framed(payload), |line|);
    assert WithoutReturn(line) == line;
    assert line[..|PROTOCOL_PREFIX|] == PROTOCOL_PREFIX && line[|PROTOCOL_PREFIX|..] == payload;
  }

  /** What the host writes is read back in full, in order, however the stream is cut. */
  lemma {:induction false} FramesRoundTrip(parse: Bytes -> Option<Message>, payloads: seq<Bytes>)
    requires forall i :: 0 <= i < |payloads| ==> Frameable(payloads[i])
    ensures Take(Reader(parse), FramedAll(payloads)) == Taken(ParsedAll(parse, payloads), [])
    decreases |payloads|
  {
    if payloads != [] {
      var frame, tail := Framed(payloads[0]), FramedAll(payloads[1..]);
      var n := |PROTOCOL_PREFIX| + |payloads[0]|;
      FrameIsOneLine(parse, payloads[0]);
      NewlineOfAppend(frame, tail);
      assert (frame + tail)[..n] == PROTOCOL_PREFIX + payloads[0];
      assert (frame + tail)[n + 1..] == tail;
      FramesRoundTrip(parse, payloads[1..]);
    }
  }

  // ----- The decoder in place -----

  class Decoder {
    var buffer: Bytes

    constructor ()
      ensures Settled(buffer) && buffer == []
    {
      buffer := [];
    }

    /** One call: extends the buffer, drains its complete lines, and answers their messages, or nothing but a failure. */
    method TakeMessages(parse: Bytes -> Option<Message>, chunk: Bytes) returns (messages: Option<seq<Message>>)
      modifies this
      ensures match Take(Reader(parse), old(buffer) + chunk)
              case TooLong => messages.None? && buffer == []
              case Taken(found, rest) => messages == Some(found) && buffer == rest
      ensures Settled(buffer)
    {
      buffer := buffer + chunk;
      ghost var read, whole := Reader(parse), Take(Reader(parse), buffer);
      var found: seq<Message> := [];
      var at := NewlineAt(buffer);
      BeforeNothing(whole);
      LeftoverIsSettled(read, buffer);
      while at.Some?
        invariant at == NewlineAt(buffer)
        invariant Before(found, Take(read, buffer)) == whole
        decreases |buffer|
      {
        if at.value > MAX_HOST_LINE_BYTES {
          buffer := [];
          return None;
        }
        var message := MessageOf(parse, buffer[..at.value]);
        BeforeAssociates(found, message, Take(read, buffer[at.value + 1..]));
        found := found + message;
        buffer := buffer[at.value + 1..];
        at := NewlineAt(buffer);
      }
      assert found + [] == found;
      if |buffer| > MAX_HOST_LINE_BYTES {
        buffer := [];
        return None;
      }
      return Some(found);
    }
  }
}

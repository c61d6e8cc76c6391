// The exec wire protocol: length-prefixed frames, the host's streaming reader and the handshake
// in front of it. The JSON body codec is any function `body` from bytes to an optional frame.
module ExecChannel {
  import opened Prelude

  datatype Stream = Stdout | Stderr

  datatype Frame =
    | Exec(id: u64, cmd: seq<string>, timeoutMs: u64)
    | Output(id: u64, stream: Stream, data: seq<byte>)
    | Exit(id: u64, code: int)

  type BodyCodec = seq<byte> -> Option<Frame>

  // --- framing ---------------------------------------------------------------

  function BeU32(b: seq<byte>): nat
    requires |b| == 4
  {
    b[0] as int * 0x100_0000 + b[1] as int * 0x1_0000 + b[2] as int * 0x100 + b[3] as int
  }

  function ToBeU32(n: u32): (b: seq<byte>)
    ensures |b| == 4 && BeU32(b) == n
  {
    [(n / 0x100_0000) as byte, (n / 0x1_0000 % 0x100) as byte, (n / 0x100 % 0x100) as byte, (n % 0x100) as byte]
  }

  // The body of a frame behind its length; the length is taken modulo 2^32 as the cast does.
  function Encode(bytes: seq<byte>): seq<byte>
  {
    ToBeU32(|bytes| % TWO32) + bytes
  }

  // One frame from the front of `buf` and the bytes it took; None means "read more".
  function Decode(buf: seq<byte>, body: BodyCodec): (r: Option<(Frame, nat)>)
    ensures r.Some? ==> 4 <= r.value.1 <= |buf|
  {
    if |buf| < 4 then None
    else
      var len := BeU32(buf[..4]);
      if |buf| < 4 + len then None
      else
        match body(buf[4..4 + len])
        case None => None
        case Some(frame) => Some((frame, 4 + len))
  }

  // The length stands in front in network order, then the body.
  lemma LengthComesFirst(bytes: seq<byte>)
    requires |bytes| < TWO32
    ensures var b := Encode(bytes);
            && |b| == 4 + |bytes| && b[4..] == bytes
            && |bytes| == b[0] as int * 0x100_0000 + b[1] as int * 0x1_0000 + b[2] as int * 0x100 + b[3] as int
  {
    var b := Encode(bytes);
    assert b[..4] == ToBeU32(|bytes|);
  }

  // A frame decodes from the front of any buffer that starts with its encoding.
  lemma RoundTrip(frame: Frame, bytes: seq<byte>, rest: seq<byte>, body: BodyCodec)
    requires body(bytes) == Some(frame) && |bytes| < TWO32
    ensures Decode(Encode(bytes) + rest, body) == Some((frame, |Encode(bytes)|))
  {
    var buf := Encode(bytes) + rest;
    assert buf[..4] == ToBeU32(|bytes|);
    assert buf[4..4 + |bytes|] == bytes;
  }

  // More bytes never change a frame that is already complete.
  lemma DecodeIsStable(buf: seq<byte>, more: seq<byte>, body: BodyCodec)
    requires Decode(buf, body).Some?
    ensures Decode(buf + more, body) == Decode(buf, body)
  {
    var len := BeU32(buf[..4]);
    assert (buf + more)[..4] == buf[..4];
    assert (buf + more)[4..4 + len] == buf[4..4 + len];
  }

  // --- the streaming reader ----------------------------------------------------

  datatype Event = StdoutEvent(data: seq<byte>) | StderrEvent(data: seq<byte>) | ExitEvent(code: int)

  // The event a frame gives rise to for request `id`; frames of other requests give none.
  function EventOf(frame: Frame, id: u64): Option<Event>
  {
    match frame
    case Output(fid, stream, data) =>
      if fid != id then None else Some(if stream.Stdout? then StdoutEvent(data) else StderrEvent(data))
    case Exit(fid, code) => if fid != id then None else Some(ExitEvent(code))
    case Exec(_, _, _) => None
  }

  // Decoding a whole byte stream at once: the events up to the first exit, and whether it came.
  datatype Decoded = Decoded(events: seq<Event>, exited: bool, rest: seq<byte>)

  function DecodeAll(buf: seq<byte>, id: u64, body: BodyCodec): (d: Decoded)
    ensures !d.exited ==> Decode(d.rest, body).None?
    ensures |d.rest| <= |buf|
    decreases |buf|
  {
    match Decode(buf, body)
    case None => Decoded([], false, buf)
    case Some(pair) =>
      var rest := buf[pair.1..];
      match EventOf(pair.0, id)
      case None => DecodeAll(rest, id, body)
      case Some(event) =>
        if event.ExitEvent? then Decoded([event], true, rest)
        else
          var tail := DecodeAll(rest, id, body);
          Decoded([event] + tail.events, tail.exited, tail.rest)
  }

  // The reference: the events of a stream that has ended.
  function Events(stream: seq<byte>, id: u64, body: BodyCodec): seq<Event>
  {
    var d := DecodeAll(stream, id, body);
    if d.exited then d.events else d.events + [ExitEvent(-1)]
  }

  // Exactly one exit event, and it is the last.
  predicate EndsInOneExit(events: seq<Event>)
  {
    && |events| > 0 && events[|events| - 1].ExitEvent?
    && forall i :: 0 <= i < |events| - 1 ==> !events[i].ExitEvent?
  }

  lemma {:induction false} DecodeAllExits(buf: seq<byte>, id: u64, body: BodyCodec)
    ensures var d := DecodeAll(buf, id, body);
            if d.exited then EndsInOneExit(d.events) else forall e :: e in d.events ==> !e.ExitEvent?
    decreases |buf|
  {
    var r := Decode(buf, body);
    if r.Some? {
      var rest := buf[r.value.1..];
      DecodeAllExits(rest, id, body);
      var event := EventOf(r.value.0, id);
      if event.Some? && !event.value.ExitEvent? {
        var tail := DecodeAll(rest, id, body);
        var events := [event.value] + tail.events;
        if tail.exited {
          forall i | 0 <= i < |events| - 1
            ensures !events[i].ExitEvent?
          {
            assert i > 0 ==> events[i] == tail.events[i - 1];
          }
        }
      }
    }
  }

  lemma StreamEndsInOneExit(stream: seq<byte>, id: u64, body: BodyCodec)
    ensures EndsInOneExit(Events(stream, id, body))
  {
    DecodeAllExits(stream, id, body);
  }

  // What one read of the socket returns; `Eof` is a read of zero bytes.
  datatype Read = Data(bytes: seq<byte>) | Eof | Failed

  // The bytes that arrive before the stream ends, and how it ends. A list that runs out ends it.
  function Received(chunks: seq<Read>): seq<byte>
  {
    if chunks == [] || !chunks[0].Data? || chunks[0].bytes == [] then [] else chunks[0].bytes + Received(chunks[1..])
  }

  predicate ReadFails(chunks: seq<Read>)
  {
    chunks != [] && (chunks[0].Failed? || (chunks[0].Data? && chunks[0].bytes != [] && ReadFails(chunks[1..])))
  }

  function Joined(parts: seq<seq<byte>>): seq<byte>
  {
    if parts == [] then [] else parts[0] + Joined(parts[1..])
  }

  // Reads of any nonempty parts bring those parts one after another, up to the end or a failure.
  lemma {:induction false} ReceivedIsAllParts(chunks: seq<Read>, parts: seq<seq<byte>>)
    requires |parts| < |chunks| && !chunks[|parts|].Data?
    requires forall i :: 0 <= i < |parts| ==> chunks[i] == Data(parts[i]) && parts[i] != []
    ensures Received(chunks) == Joined(parts) && (ReadFails(chunks) <==> chunks[|parts|].Failed?)
  {
    if parts != [] { ReceivedIsAllParts(chunks[1..], parts[1..]); }
  }

  datatype Outcome = Done | IoError | ConsumerHungUp

  // Everything the reader would hand to a consumer that takes it all.
  function Delivered(chunks: seq<Read>, id: u64, body: BodyCodec): seq<Event>
  {
    var d := DecodeAll(Received(chunks), id, body);
    if d.exited || !ReadFails(chunks) then Events(Received(chunks), id, body) else d.events
  }

  // The consumer can have taken `n` events.
  predicate Room(takes: Option<nat>, n: nat)
  {
    takes.None? || n <= takes.value
  }

  // The read loop: decode every complete frame in the buffer, then read more. However the stream
  // is cut into reads, the events are those of the whole stream; a read error ends it early with
  // the events decoded so far and no exit. A consumer may fail after `takes` events.
  method RunExecStreaming(chunks: seq<Read>, id: u64, body: BodyCodec, takes: Option<nat>)
    returns (events: seq<Event>, outcome: Outcome)
    ensures outcome.ConsumerHungUp? <==> !Room(takes, |Delivered(chunks, id, body)|)
    ensures outcome.ConsumerHungUp? ==> events == Delivered(chunks, id, body)[..takes.value]
    ensures !outcome.ConsumerHungUp? ==> events == Delivered(chunks, id, body)
    ensures outcome.Done? ==> events == Events(Received(chunks), id, body)
    ensures outcome.IoError? ==> ReadFails(chunks) && !DecodeAll(Received(chunks), id, body).exited
  {
    ghost var all := DecodeAll(Received(chunks), id, body);
    assert [] + all.events == all.events;
    events, outcome := ReadLoop(chunks, id, body, takes, all);
  }

  // The loop itself, told what decoding the whole stream would give.
  method ReadLoop(chunks: seq<Read>, id: u64, body: BodyCodec, takes: Option<nat>, ghost all: Decoded)
    returns (events: seq<Event>, outcome: Outcome)
    requires LeftToDecode(all, [], Received(chunks), id, body)
    ensures outcome.Done? ==> (all.exited || !ReadFails(chunks)) && Room(takes, |events|)
    ensures outcome.Done? ==> events == if all.exited then all.events else all.events + [ExitEvent(-1)]
    ensures outcome.IoError? ==> ReadFails(chunks) && !all.exited && events == all.events && Room(takes, |events|)
    ensures outcome.ConsumerHungUp? ==>
            takes.Some? && takes.value <= |all.events| && events == all.events[..takes.value]
    ensures outcome.ConsumerHungUp? ==> takes.value < |all.events| || (!all.exited && !ReadFails(chunks))
  {
    events := [];
    var buf: seq<byte> := [];
    var next := 0;
    ReadStarts(chunks);
    while true
      invariant 0 <= next <= |chunks| && Room(takes, |events|)
      invariant Reading(all, events, buf, chunks, next, id, body)
      decreases |chunks| - next
    {
      var stop;
      buf, events, stop := DrainFrames(buf, events, id, body, takes, all, Received(chunks[next..]));
      if stop.Some? { return events, stop.value; }
      if next == |chunks| || !chunks[next].Data? || chunks[next].bytes == [] {
        events, outcome := EndRead(buf, events, chunks, next, id, body, takes, all);
        return;
      }
      NextChunk(all, events, buf, chunks, next, id, body);
      buf, next := buf + chunks[next].bytes, next + 1;
    }
  }

  // No more bytes: the stream ended, or the read failed.
  method EndRead(buf: seq<byte>, sent: seq<Event>, chunks: seq<Read>, next: nat, id: u64, body: BodyCodec,
                 takes: Option<nat>, ghost all: Decoded) returns (events: seq<Event>, outcome: Outcome)
    requires next <= |chunks| && (next < |chunks| ==> !chunks[next].Data? || chunks[next].bytes == [])
    requires Room(takes, |sent|) && Decode(buf, body).None? && Reading(all, sent, buf, chunks, next, id, body)
    ensures !all.exited && (outcome.IoError? <==> ReadFails(chunks))
    ensures outcome.IoError? ==> events == all.events && Room(takes, |events|)
    ensures outcome.Done? ==> events == all.events + [ExitEvent(-1)] && Room(takes, |events|)
    ensures outcome.ConsumerHungUp? ==>
              takes.Some? && takes.value <= |all.events| && events == all.events[..takes.value]
  {
    NothingLeft(all, sent, buf, Received(chunks[next..]), id, body);
    if next < |chunks| && chunks[next].Failed? { return sent, IoError; }
    events, outcome := Finish(sent, takes, all);
  }

  // `next` reads are done, of which `buf` is left to decode.
  ghost predicate Reading(all: Decoded, events: seq<Event>, buf: seq<byte>, chunks: seq<Read>, next: nat, id: u64,
                          body: BodyCodec)
    requires next <= |chunks|
  {
    && ReadFails(chunks) == ReadFails(chunks[next..])
    && LeftToDecode(all, events, buf + Received(chunks[next..]), id, body)
  }

  lemma ReadStarts(chunks: seq<Read>)
    ensures chunks[0..] == chunks && [] + Received(chunks) == Received(chunks)
  {
  }

  // The stream ended without an exit: a final one is made up, if the consumer still takes it.
  method Finish(sent: seq<Event>, takes: Option<nat>, ghost all: Decoded)
    returns (events: seq<Event>, outcome: Outcome)
    requires Room(takes, |sent|) && all.events == sent
    ensures outcome.Done? || outcome.ConsumerHungUp?
    ensures outcome.Done? ==> events == all.events + [ExitEvent(-1)] && Room(takes, |events|)
    ensures outcome.ConsumerHungUp? ==>
              takes.Some? && takes.value <= |all.events| && events == all.events[..takes.value]
  {
    if takes == Some(|sent|) {
      assert sent[..|sent|] == sent;
      return sent, ConsumerHungUp;
    }
    return sent + [ExitEvent(-1)], Done;
  }

  lemma NextChunk(all: Decoded, events: seq<Event>, buf: seq<byte>, chunks: seq<Read>, next: nat, id: u64,
                  body: BodyCodec)
    requires next < |chunks| && chunks[next].Data? && chunks[next].bytes != []
    requires Reading(all, events, buf, chunks, next, id, body)
    ensures Reading(all, events, buf + chunks[next].bytes, chunks, next + 1, id, body)
  {
    assert chunks[next..][1..] == chunks[next + 1..];
    Regroup(buf, chunks[next].bytes, Received(chunks[next + 1..]));
  }

  lemma Regroup(a: seq<byte>, b: seq<byte>, c: seq<byte>)
    ensures a + (b + c) == a + b + c
  {
  }

  // The inner loop: take every complete frame off the front of the buffer.
  method DrainFrames(buffered: seq<byte>, sent: seq<Event>, id: u64, body: BodyCodec, takes: Option<nat>,
                     ghost all: Decoded, ghost tail: seq<byte>)
    returns (buf: seq<byte>, events: seq<Event>, stop: Option<Outcome>)
    requires Room(takes, |sent|) && LeftToDecode(all, sent, buffered + tail, id, body)
    ensures Room(takes, |events|)
    ensures stop.None? ==> Decode(buf, body).None? && LeftToDecode(all, events, buf + tail, id, body)
    ensures stop.Some? ==> stop.value.Done? || stop.value.ConsumerHungUp?
    ensures stop == Some(Done) ==> all.exited && events == all.events
    ensures stop == Some(ConsumerHungUp) ==> !Room(takes, |all.events|) && events == all.events[..takes.value]
  {
    buf, events := buffered, sent;
    while true
      invariant Room(takes, |events|) && LeftToDecode(all, events, buf + tail, id, body)
      decreases |buf|
    {
      var r := Decode(buf, body);
      if r.None? { return buf, events, None; }
      var frame, consumed := r.value.0, r.value.1;
      NextFrame(all, events, buf, tail, id, body);
      buf := buf[consumed..];
      var event := EventOf(frame, id);
      if event.Some? {
        if takes == Some(|events|) { return buf, events, Some(ConsumerHungUp); }
        events := events + [event.value];
        if event.value.ExitEvent? { return buf, events, Some(Done); }
      }
    }
  }

  lemma NextFrame(all: Decoded, events: seq<Event>, buf: seq<byte>, tail: seq<byte>, id: u64, body: BodyCodec)
    requires Decode(buf, body).Some? && LeftToDecode(all, events, buf + tail, id, body)
    ensures var (frame, n) := Decode(buf, body).value;
            match EventOf(frame, id)
            case None => LeftToDecode(all, events, buf[n..] + tail, id, body)
            case Some(event) =>
              && |events| < |all.events| && events == all.events[..|events|]
              && if event.ExitEvent? then all.exited && all.events == events + [event]
                 else LeftToDecode(all, events + [event], buf[n..] + tail, id, body)
  {
    DecodeIsStable(buf, tail, body);
    var (frame, n) := Decode(buf, body).value;
    assert (buf + tail)[n..] == buf[n..] + tail;
    var event := EventOf(frame, id);
    if event.Some? && !event.value.ExitEvent? {
      var rest := DecodeAll(buf[n..] + tail, id, body);
      assert events + ([event.value] + rest.events) == events + [event.value] + rest.events;
    }
  }

  lemma NothingLeft(all: Decoded, events: seq<Event>, buf: seq<byte>, tail: seq<byte>, id: u64, body: BodyCodec)
    requires Decode(buf, body).None? && tail == [] && LeftToDecode(all, events, buf + tail, id, body)
    ensures !all.exited && all.events == events
  {
    assert buf + tail == buf;
  }

  // `events` are out, and decoding `bytes` yields the rest of `all`.
  ghost predicate LeftToDecode(all: Decoded, events: seq<Event>, bytes: seq<byte>, id: u64, body: BodyCodec)
  {
    var left := DecodeAll(bytes, id, body);
    all.events == events + left.events && all.exited == left.exited
  }

  // --- the handshake -------------------------------------------------------------

  const NEWLINE: byte := 10
  const CARRIAGE_RETURN: byte := 13
  const MAX_LINE := 64

  datatype Handshake = Accepted | Closed | TooLong | Refused

  predicate StartsWithOk(line: seq<byte>)
  {
    |line| >= 2 && line[0] == 79 && line[1] == 75
  }

  // Read byte by byte up to the first newline. On success exactly the line and its newline are
  // consumed, so the first byte of the exec protocol is still in the stream. The line must start with
  // the letters O and K.
  method VsockConnect(stream: seq<byte>) returns (result: Handshake, consumed: nat)
    ensures consumed <= |stream|
    ensures result.Accepted? || result.Refused? ==>
              && 1 <= consumed <= 65 && stream[consumed - 1] == 10 && 10 !in stream[..consumed - 1]
              && (result.Accepted? <==> consumed > 2 && stream[0] == 79 && stream[1] == 75)
    ensures result.Closed? <==> 10 !in stream && |stream| <= 64
    ensures result.TooLong? <==> |stream| > 64 && 10 !in stream[..65]
  {
    var line: seq<byte> := [];
    consumed := 0;
    while true
      invariant consumed <= |stream| && consumed <= MAX_LINE
      invariant line == stream[..consumed] && NEWLINE !in line
      decreases |stream| - consumed
    {
      if consumed == |stream| {
        assert stream[..consumed] == stream;
        return Closed, consumed;
      }
      var b := stream[consumed];
      consumed := consumed + 1;
      if b == NEWLINE { break; }
      line := line + [b];
      if |line| > MAX_LINE { return TooLong, consumed; }
    }
    ghost var whole := line;
    if |line| > 0 && line[|line| - 1] == CARRIAGE_RETURN { line := line[..|line| - 1]; }
    return if StartsWithOk(line) then Accepted else Refused, consumed;
  }
}

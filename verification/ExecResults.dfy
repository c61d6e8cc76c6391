// What a command's client is told, in terms of the frames on the wire alone: which frame every event stands
// for, and which bytes and which code a collected command returns.
module ExecResults {
  import opened Prelude
  import opened ExecChannel

  // --- the frames of a stream ------------------------------------------------------------------

  // The frames that stand one after another at the front of a stream.
  function Frames(stream: seq<byte>, body: BodyCodec): seq<Frame>
    decreases |stream|
  {
    match Decode(stream, body)
    case None => []
    case Some(pair) => [pair.0] + Frames(stream[pair.1..], body)
  }

  function EncodeAll(bodies: seq<seq<byte>>): seq<byte>
  {
    if bodies == [] then [] else Encode(bodies[0]) + EncodeAll(bodies[1..])
  }

  // Frames written one after another are read back.
  lemma {:induction false} FramesRoundTrip(frames: seq<Frame>, bodies: seq<seq<byte>>, body: BodyCodec)
    requires |frames| == |bodies|
    requires forall i :: 0 <= i < |frames| ==> body(bodies[i]) == Some(frames[i]) && |bodies[i]| < TWO32
    ensures Frames(EncodeAll(bodies), body) == frames
  {
    if frames != [] {
      var rest := EncodeAll(bodies[1..]);
      RoundTrip(frames[0], bodies[0], rest, body);
      assert (Encode(bodies[0]) + rest)[|Encode(bodies[0])|..] == rest;
      FramesRoundTrip(frames[1..], bodies[1..], body);
    }
  }

  // --- the events of a request -----------------------------------------------------------------

  // Where the exit of request `id` stands first, or the number of frames.
  predicate IsFirstExit(frames: seq<Frame>, id: u64, cut: nat)
  {
    && cut <= |frames|
    && (forall i :: 0 <= i < cut ==> !(frames[i].Exit? && frames[i].id == id))
    && (cut < |frames| ==> frames[cut].Exit? && frames[cut].id == id)
  }

  // An event stands for an output frame: same stream, same bytes.
  predicate StandsFor(event: Event, frame: Frame, id: u64)
  {
    match event
    case StdoutEvent(data) => frame == Output(id, Stdout, data)
    case StderrEvent(data) => frame == Output(id, Stderr, data)
    case ExitEvent(_) => false
  }

  predicate Ascends(places: seq<nat>)
  {
    forall j, k :: 0 <= j < k < |places| ==> places[j] < places[k]
  }

  ghost predicate EachStands(events: seq<Event>, frames: seq<Frame>, id: u64, cut: nat, places: seq<nat>)
    requires |places| <= |events| && cut <= |frames|
  {
    forall j :: 0 <= j < |places| ==> places[j] < cut && StandsFor(events[j], frames[places[j]], id)
  }

  ghost predicate NoneIsMissing(frames: seq<Frame>, id: u64, cut: nat, places: seq<nat>)
    requires cut <= |frames|
  {
    forall i :: 0 <= i < cut && frames[i].Output? && frames[i].id == id ==> i in places
  }

  // The events are the output frames of request `id` in front of its first exit, at these places, each once
  // and in order, and then one exit with that frame's code, or -1 if there is none.
  ghost predicate Tells(events: seq<Event>, frames: seq<Frame>, id: u64, cut: nat, places: seq<nat>)
  {
    && IsFirstExit(frames, id, cut) && |events| == |places| + 1
    && EachStands(events, frames, id, cut, places) && Ascends(places) && NoneIsMissing(frames, id, cut, places)
    && events[|places|] == ExitEvent(if cut < |frames| then frames[cut].code else -1)
  }

  function Shifted(places: seq<nat>): (shifted: seq<nat>)
    ensures |shifted| == |places| && forall j :: 0 <= j < |places| ==> shifted[j] == places[j] + 1
  {
    seq(|places|, j requires 0 <= j < |places| => places[j] + 1)
  }

  lemma InShifted(places: seq<nat>, i: nat)
    requires i in places
    ensures i + 1 in Shifted(places)
  {
    var j :| 0 <= j < |places| && places[j] == i;
    assert Shifted(places)[j] == i + 1;
  }

  lemma ExitShifts(frames: seq<Frame>, id: u64, cut: nat, frame: Frame)
    requires IsFirstExit(frames, id, cut) && !(frame.Exit? && frame.id == id)
    ensures IsFirstExit([frame] + frames, id, cut + 1)
  {
  }

  lemma StillNoneMissing(frames: seq<Frame>, id: u64, cut: nat, places: seq<nat>, frame: Frame, more: seq<nat>)
    requires cut <= |frames| && NoneIsMissing(frames, id, cut, places)
    requires if frame.Output? && frame.id == id then more == [0] + Shifted(places) else more == Shifted(places)
    ensures NoneIsMissing([frame] + frames, id, cut + 1, more)
  {
    var all := [frame] + frames;
    forall i | 0 <= i < cut + 1 && all[i].Output? && all[i].id == id ensures i in more {
      if i == 0 { assert more[0] == 0; } else { InShifted(places, i - 1); }
    }
  }

  // One more frame in front: skipped, or told by one more event in front.
  lemma SkipsOne(events: seq<Event>, frames: seq<Frame>, id: u64, cut: nat, places: seq<nat>, frame: Frame)
    requires Tells(events, frames, id, cut, places) && (frame.Exec? || frame.id != id)
    ensures Tells(events, [frame] + frames, id, cut + 1, Shifted(places))
  {
    ExitShifts(frames, id, cut, frame);
    StillNoneMissing(frames, id, cut, places, frame, Shifted(places));
  }

  lemma EachStillStands(events: seq<Event>, frames: seq<Frame>, id: u64, cut: nat, places: seq<nat>,
                        event: Event, frame: Frame)
    requires |places| <= |events| && cut <= |frames|
    requires EachStands(events, frames, id, cut, places) && StandsFor(event, frame, id)
    ensures EachStands([event] + events, [frame] + frames, id, cut + 1, [0] + Shifted(places))
  {
    var all, more, told := [frame] + frames, [0] + Shifted(places), [event] + events;
    forall j | 0 <= j < |more| ensures more[j] < cut + 1 && StandsFor(told[j], all[more[j]], id) {
      if j > 0 { assert told[j] == events[j - 1] && all[more[j]] == frames[places[j - 1]]; }
    }
  }

  lemma TellsOne(events: seq<Event>, frames: seq<Frame>, id: u64, cut: nat, places: seq<nat>, event: Event,
                 frame: Frame)
    requires Tells(events, frames, id, cut, places) && StandsFor(event, frame, id)
    ensures Tells([event] + events, [frame] + frames, id, cut + 1, [0] + Shifted(places))
  {
    ExitShifts(frames, id, cut, frame);
    StillNoneMissing(frames, id, cut, places, frame, [0] + Shifted(places));
    EachStillStands(events, frames, id, cut, places, event, frame);
    assert ([event] + events)[|places| + 1] == events[|places|];
  }

  lemma TellsTheEnd(frames: seq<Frame>, id: u64)
    requires frames != [] ==> frames[0].Exit? && frames[0].id == id
    ensures Tells([ExitEvent(if frames == [] then -1 else frames[0].code)], frames, id, 0, [])
  {
  }

  // The events of a list of frames.
  function FrameEvents(frames: seq<Frame>, id: u64): seq<Event>
  {
    if frames == [] then [ExitEvent(-1)]
    else
      match EventOf(frames[0], id)
      case None => FrameEvents(frames[1..], id)
      case Some(event) => if event.ExitEvent? then [event] else [event] + FrameEvents(frames[1..], id)
  }

  lemma {:induction false} EventsAreFrameEvents(stream: seq<byte>, id: u64, body: BodyCodec)
    ensures Events(stream, id, body) == FrameEvents(Frames(stream, body), id)
    decreases |stream|
  {
    var r := Decode(stream, body);
    if r.Some? {
      var rest := stream[r.value.1..];
      var event, d := EventOf(r.value.0, id), DecodeAll(rest, id, body);
      EventsAreFrameEvents(rest, id, body);
      assert Frames(stream, body)[1..] == Frames(rest, body);
      if event.Some? { assert [event.value] + d.events + [ExitEvent(-1)] ==
                      [event.value] + (d.events + [ExitEvent(-1)]); }
    }
  }

  lemma TellsMore(frames: seq<Frame>, id: u64, cut: nat, places: seq<nat>) returns (more: seq<nat>)
    requires frames != [] && !(frames[0].Exit? && frames[0].id == id)
    requires Tells(FrameEvents(frames[1..], id), frames[1..], id, cut, places)
    ensures Tells(FrameEvents(frames, id), frames, id, cut + 1, more)
  {
    var event, events, rest := EventOf(frames[0], id), FrameEvents(frames[1..], id), frames[1..];
    assert [frames[0]] + rest == frames;
    if event.None? {
      more := Shifted(places);
      SkipsOne(events, rest, id, cut, places, frames[0]);
    } else {
      more := [0] + Shifted(places);
      TellsOne(events, rest, id, cut, places, event.value, frames[0]);
    }
  }

  lemma {:induction false} FrameEventsTell(frames: seq<Frame>, id: u64) returns (cut: nat, places: seq<nat>)
    ensures Tells(FrameEvents(frames, id), frames, id, cut, places)
  {
    if frames == [] || (frames[0].Exit? && frames[0].id == id) {
      cut, places := 0, [];
      TellsTheEnd(frames, id);
    } else {
      var n, at := FrameEventsTell(frames[1..], id);
      places := TellsMore(frames, id, n, at);
      cut := n + 1;
    }
  }

  // Over every stream, the events of request `id` are told by its frames.
  lemma EventsTellTheFrames(stream: seq<byte>, id: u64, body: BodyCodec) returns (cut: nat, places: seq<nat>)
    ensures Tells(Events(stream, id, body), Frames(stream, body), id, cut, places)
  {
    EventsAreFrameEvents(stream, id, body);
    cut, places := FrameEventsTell(Frames(stream, body), id);
  }

  // On well-formed traffic these are the frames that were written.
  lemma EventsOfEncodedFrames(frames: seq<Frame>, bodies: seq<seq<byte>>, id: u64, body: BodyCodec)
    returns (cut: nat, places: seq<nat>)
    requires |frames| == |bodies|
    requires forall i :: 0 <= i < |frames| ==> body(bodies[i]) == Some(frames[i]) && |bodies[i]| < TWO32
    ensures Tells(Events(EncodeAll(bodies), id, body), frames, id, cut, places)
  {
    FramesRoundTrip(frames, bodies, body);
    cut, places := EventsTellTheFrames(EncodeAll(bodies), id, body);
  }

  // --- collecting a whole command -----------------------------------------------------------------

  datatype ExecResult = ExecResult(exitCode: int, stdout: seq<byte>, stderr: seq<byte>)

  // The bytes request `id` wrote to a stream before its first exit, and the code of that exit.
  function OutputOn(frames: seq<Frame>, id: u64, stream: Stream): seq<byte>
  {
    if frames == [] || (frames[0].Exit? && frames[0].id == id) then []
    else
      (if frames[0].Output? && frames[0].id == id && frames[0].stream == stream then frames[0].data else [])
      + OutputOn(frames[1..], id, stream)
  }

  function ExitCode(frames: seq<Frame>, id: u64): int
  {
    if frames == [] then -1
    else if frames[0].Exit? && frames[0].id == id then frames[0].code
    else ExitCode(frames[1..], id)
  }

  // The bytes some events carry for a stream.
  function EventBytes(events: seq<Event>, stream: Stream): seq<byte>
  {
    if events == [] then []
    else
      (match events[0]
       case StdoutEvent(data) => if stream.Stdout? then data else []
       case StderrEvent(data) => if stream.Stderr? then data else []
       case ExitEvent(_) => [])
      + EventBytes(events[1..], stream)
  }

  lemma {:induction false} EventBytesAreOutput(frames: seq<Frame>, id: u64, stream: Stream)
    ensures EventBytes(FrameEvents(frames, id), stream) == OutputOn(frames, id, stream)
  {
    if frames != [] && !(frames[0].Exit? && frames[0].id == id) {
      EventBytesAreOutput(frames[1..], id, stream);
      var event, rest := EventOf(frames[0], id), FrameEvents(frames[1..], id);
      if event.Some? { assert ([event.value] + rest)[1..] == rest; }
    }
  }

  // On well-formed traffic the events of either stream carry what the frames wrote to it.
  lemma StreamsOfEncodedFrames(frames: seq<Frame>, bodies: seq<seq<byte>>, id: u64, body: BodyCodec, stream: Stream)
    requires |frames| == |bodies|
    requires forall i :: 0 <= i < |frames| ==> body(bodies[i]) == Some(frames[i]) && |bodies[i]| < TWO32
    ensures EventBytes(Events(EncodeAll(bodies), id, body), stream) == OutputOn(frames, id, stream)
  {
    FramesRoundTrip(frames, bodies, body);
    EventsAreFrameEvents(EncodeAll(bodies), id, body);
    EventBytesAreOutput(frames, id, stream);
  }

  function Collect(events: seq<Event>): ExecResult
  {
    if events == [] then ExecResult(-1, [], [])
    else
      var front := Collect(events[..|events| - 1]);
      match events[|events| - 1]
      case StdoutEvent(data) => front.(stdout := front.stdout + data)
      case StderrEvent(data) => front.(stderr := front.stderr + data)
      case ExitEvent(code) => front.(exitCode := code)
  }

  lemma {:induction false} CollectFirst(event: Event, events: seq<Event>)
    requires !event.ExitEvent?
    ensures var tail := Collect(events);
            Collect([event] + events) == ExecResult(tail.exitCode,
                                                    (if event.StdoutEvent? then event.data else []) + tail.stdout,
                                                    (if event.StderrEvent? then event.data else []) + tail.stderr)
  {
    var all := [event] + events;
    if events == [] {
      assert all[..0] == [] && all[0] == event;
    } else {
      var n := |events| - 1;
      assert all[..n + 1] == [event] + events[..n] && all[n + 1] == events[n];
      CollectFirst(event, events[..n]);
    }
  }

  function ResultOf(frames: seq<Frame>, id: u64): ExecResult
  {
    ExecResult(ExitCode(frames, id), OutputOn(frames, id, Stdout), OutputOn(frames, id, Stderr))
  }

  lemma CollectExit(code: int)
    ensures Collect([ExitEvent(code)]) == ExecResult(code, [], [])
  {
  }

  lemma {:induction false} CollectIsTheOutput(frames: seq<Frame>, id: u64)
    ensures Collect(FrameEvents(frames, id)) == ResultOf(frames, id)
  {
    if frames == [] {
      CollectExit(-1);
    } else if frames[0].Exit? && frames[0].id == id {
      CollectExit(frames[0].code);
    } else {
      CollectIsTheOutput(frames[1..], id);
      var event := EventOf(frames[0], id);
      if event.Some? { CollectFirst(event.value, FrameEvents(frames[1..], id)); }
    }
  }

  // The collecting client returns what the request's frames wrote to either stream and its exit code, -1
  // for a stream that ends without one, or the read error that came first.
  method RunExec(chunks: seq<Read>, id: u64, body: BodyCodec) returns (result: Option<ExecResult>)
    ensures var frames := Frames(Received(chunks), body);
            && (result.None? <==>
                ReadFails(chunks) && forall i :: 0 <= i < |frames| ==> !(frames[i].Exit? && frames[i].id == id))
            && (result.Some? ==>
                && result.value.stdout == OutputOn(frames, id, Stdout)
                && result.value.stderr == OutputOn(frames, id, Stderr)
                && result.value.exitCode == ExitCode(frames, id))
  {
    ResultIsOfTheFrames(chunks, id, body);
    var events, outcome := RunExecStreaming(chunks, id, body, None);
    if outcome.IoError? { return None; }
    var collected := CollectEvents(events);
    return Some(collected);
  }

  method CollectEvents(events: seq<Event>) returns (result: ExecResult)
    ensures result == Collect(events)
  {
    var stdout: seq<byte>, stderr: seq<byte>, exitCode := [], [], -1;
    for i := 0 to |events|
      invariant Collect(events[..i]) == ExecResult(exitCode, stdout, stderr)
    {
      assert events[..i + 1][..i] == events[..i];
      match events[i]
      case StdoutEvent(data) => stdout := stdout + data;
      case StderrEvent(data) => stderr := stderr + data;
      case ExitEvent(code) => exitCode := code;
    }
    assert events[..|events|] == events;
    return ExecResult(exitCode, stdout, stderr);
  }

  lemma ExitCodeIsTheTerminalOne(stream: seq<byte>, id: u64, body: BodyCodec)
    ensures var events := Events(stream, id, body);
            |events| > 0 && events[|events| - 1] == ExitEvent(Collect(events).exitCode)
  {
    StreamEndsInOneExit(stream, id, body);
  }

  lemma ResultIsOfTheFrames(chunks: seq<Read>, id: u64, body: BodyCodec)
    ensures var frames := Frames(Received(chunks), body);
            && Collect(Events(Received(chunks), id, body)) == ResultOf(frames, id)
            && (DecodeAll(Received(chunks), id, body).exited <==>
                exists i :: 0 <= i < |frames| && frames[i].Exit? && frames[i].id == id)
  {
    ExitedMeansExit(Received(chunks), id, body);
    EventsAreFrameEvents(Received(chunks), id, body);
    CollectIsTheOutput(Frames(Received(chunks), body), id);
  }

  lemma {:induction false} ExitedMeansExit(stream: seq<byte>, id: u64, body: BodyCodec)
    ensures DecodeAll(stream, id, body).exited <==>
            exists i :: 0 <= i < |Frames(stream, body)| && Frames(stream, body)[i].Exit? &&
                Frames(stream, body)[i].id == id
    decreases |stream|
  {
    var r := Decode(stream, body);
    if r.Some? {
      var frame, rest := r.value.0, stream[r.value.1..];
      var frames := Frames(stream, body);
      ExitedMeansExit(rest, id, body);
      assert frames == [frame] + Frames(rest, body);
      if frame.Exit? && frame.id == id {
        assert frames[0] == frame;
      } else if i :| 0 <= i < |Frames(rest, body)| && Frames(rest, body)[i].Exit? && Frames(rest, body)[i].id == id {
        assert frames[i + 1] == Frames(rest, body)[i];
      }
    }
  }
}

/** Responses of the preview tunnel. Every worker writes its frames through one
    locked sender; each worker's frames must stay well formed whatever the other
    workers do in between. Headers, the tunnel id and the handshake text carry
    no state and are left out of the frames. */
module TunnelResponses {
  import opened Basics
  import opened Histories

  const CHUNK: nat := 32768
  const SWITCHING_PROTOCOLS: nat := 101

  datatype Kind = ResponseStart | ResponseBody | ResponseEnd

  datatype Frame = Frame(requestId: string, kind: Kind, status: nat, body: seq<Byte>, error: string)

  function StartFrame(id: string, status: nat): Frame { Frame(id, ResponseStart, status, [], "") }

  function BodyFrame(id: string, chunk: seq<Byte>): Frame { Frame(id, ResponseBody, 0, chunk, "") }

  function EndFrame(id: string, error: string): Frame { Frame(id, ResponseEnd, 0, [], error) }

  /** One step of a worker: a read from the upstream, or a frame that the stream took or refused. */
  datatype Event = Pulled(chunk: seq<Byte>) | Taken(frame: Frame) | Refused(frame: Frame)

  type Log = History<Event>

  // ---- what a worker may do, event by event ----

  /** pending: bytes read and not yet sent; lost: the chunk whose send was refused. */
  datatype Stage = Fresh | Open(pending: seq<Byte>) | Cut(lost: seq<Byte>) | Done(lost: seq<Byte>) | Bad

  function NextStage(id: string, stage: Stage, e: Event): Stage {
    match stage
    case Fresh =>
      if e.Pulled? || e.frame.requestId != id then Bad
      else if e.frame == StartFrame(id, e.frame.status) then (if e.Taken? then Open([]) else Done([]))
      else if e.frame == EndFrame(id, e.frame.error) then Done([])
      else Bad
    case Open(pending) =>
      if e.Pulled? then (if pending == [] && |e.chunk| <= CHUNK then Open(e.chunk) else Bad)
      else if pending != [] && e.frame == BodyFrame(id, pending) then (if e.Taken? then Open([]) else Cut(pending))
      else if pending == [] && e.frame == EndFrame(id, e.frame.error) then Done([])
      else Bad
    case Cut(lost) =>
      if !e.Pulled? && e.frame == EndFrame(id, e.frame.error) then Done(lost) else Bad
    case Done(_) => Bad
    case Bad => Bad
  }

  function StageOf(id: string, log: Log): Stage {
    match log
    case Empty => Fresh
    case Then(before, e) => NextStage(id, StageOf(id, before), e)
  }

  ghost predicate WorkerLog(id: string, log: Log) { StageOf(id, log) != Bad }

  // ---- what is seen of it ----

  function Frames(log: Log): seq<Frame> {
    match log
    case Empty => []
    case Then(before, e) => if e.Taken? then Frames(before) + [e.frame] else Frames(before)
  }

  function PulledBytes(log: Log): seq<Byte> {
    match log
    case Empty => []
    case Then(before, e) => if e.Pulled? then PulledBytes(before) + e.chunk else PulledBytes(before)
  }

  function Length(log: Log): nat {
    match log
    case Empty => 0
    case Then(before, _) => Length(before) + 1
  }

  predicate NothingRefused(log: Log) {
    match log
    case Empty => true
    case Then(before, e) => !e.Refused? && NothingRefused(before)
  }

  function BodyBytes(frames: seq<Frame>): seq<Byte> {
    if frames == [] then [] else BodyBytes(frames[..|frames| - 1]) + frames[|frames| - 1].body
  }

  /** A prefix of START BODY* END, or of a lone END, with bodies of 1 to CHUNK bytes. */
  ghost predicate ResponsePrefix(id: string, frames: seq<Frame>) {
    && (forall i :: 0 <= i < |frames| ==> frames[i].requestId == id)
    && (forall i :: 0 <= i < |frames| ==> (frames[i].kind == ResponseStart ==> i == 0))
    && (forall i :: 0 <= i < |frames| ==> (frames[i].kind == ResponseEnd ==> i == |frames| - 1))
    && (|frames| > 1 ==> frames[0].kind == ResponseStart)
    && (|frames| == 1 ==> frames[0].kind != ResponseBody)
    && (forall i :: 0 <= i < |frames| ==>
          if frames[i].kind == ResponseBody then 1 <= |frames[i].body| <= CHUNK else frames[i].body == [])
  }

  ghost predicate Underway(frames: seq<Frame>) {
    frames != [] && frames[0].kind == ResponseStart && frames[|frames| - 1].kind != ResponseEnd
  }

  /** What a worker's stage says about the frames taken from it and the bytes it has read. */
  ghost predicate Meaning(id: string, stage: Stage, frames: seq<Frame>, pulled: seq<Byte>) {
    && ResponsePrefix(id, frames)
    && match stage
       case Fresh => frames == [] && pulled == []
       case Open(pending) => Underway(frames) && pulled == BodyBytes(frames) + pending && |pending| <= CHUNK
       case Cut(lost) => Underway(frames) && pulled == BodyBytes(frames) + lost
       case Done(lost) => pulled == BodyBytes(frames) + lost
       case Bad => false
  }

  lemma PrefixAppend(id: string, frames: seq<Frame>, f: Frame)
    requires ResponsePrefix(id, frames) && f.requestId == id
    requires if f.kind == ResponseBody then 1 <= |f.body| <= CHUNK else f.body == []
    requires if f.kind == ResponseStart then frames == [] else Underway(frames) || (f.kind == ResponseEnd && frames == [])
    ensures ResponsePrefix(id, frames + [f])
    ensures f.kind != ResponseEnd ==> Underway(frames + [f])
    ensures BodyBytes(frames + [f]) == BodyBytes(frames) + f.body
  {
    var all := frames + [f];
    assert all[..|frames|] == frames;
  }

  lemma MeaningStep(id: string, stage: Stage, frames: seq<Frame>, pulled: seq<Byte>, e: Event)
    requires Meaning(id, stage, frames, pulled)
    requires NextStage(id, stage, e) != Bad
    ensures Meaning(id, NextStage(id, stage, e),
                    if e.Taken? then frames + [e.frame] else frames,
                    if e.Pulled? then pulled + e.chunk else pulled)
  {
    if e.Taken? {
      PrefixAppend(id, frames, e.frame);
    }
  }

  lemma {:induction false} StageMeaning(id: string, log: Log)
    requires WorkerLog(id, log)
    ensures Meaning(id, StageOf(id, log), Frames(log), PulledBytes(log))
  {
    match log
    case Empty =>
    case Then(before, e) =>
      StageMeaning(id, before);
      MeaningStep(id, StageOf(id, before), Frames(before), PulledBytes(before), e);
  }

  lemma {:induction false} UnrefusedStage(id: string, log: Log)
    requires WorkerLog(id, log) && NothingRefused(log)
    ensures match StageOf(id, log)
            case Cut(_) => false
            case Done(lost) => lost == []
            case Open(pending) => pending != [] ==> log.Then? && log.last.Pulled?
            case _ => true
  {
    match log
    case Empty =>
    case Then(before, e) => UnrefusedStage(id, before);
  }

  /** At every moment: the frames so far are well formed and carry a prefix of
      the bytes read so far. Unless a send was refused they carry all of those
      bytes, but for a chunk that was read and is just about to be sent. */
  lemma WorkerFrames(id: string, log: Log)
    requires WorkerLog(id, log)
    ensures ResponsePrefix(id, Frames(log))
    ensures BodyBytes(Frames(log)) <= PulledBytes(log)
    ensures NothingRefused(log) && !(log.Then? && log.last.Pulled?) ==> BodyBytes(Frames(log)) == PulledBytes(log)
  {
    StageMeaning(id, log);
    if NothingRefused(log) {
      UnrefusedStage(id, log);
    }
  }

  // ---- many workers on one stream ----

  datatype Tagged = Tagged(id: string, event: Event)

  /** One worker's own events, in order. */
  function OwnEvents(history: History<Tagged>, id: string): Log {
    match history
    case Empty => Empty
    case Then(before, t) => if t.id == id then Then(OwnEvents(before, id), t.event) else OwnEvents(before, id)
  }

  /** The stream: every frame taken from any worker, in order. */
  function Stream(history: History<Tagged>): seq<Frame> {
    match history
    case Empty => []
    case Then(before, t) => if t.event.Taken? then Stream(before) + [t.event.frame] else Stream(before)
  }

  function OfRequest(frames: seq<Frame>, id: string): seq<Frame> {
    if frames == [] then []
    else
      var rest, f := OfRequest(frames[..|frames| - 1], id), frames[|frames| - 1];
      if f.requestId == id then rest + [f] else rest
  }

  /** Workers with distinct request ids, interleaved in any way at all. */
  ghost predicate Interleaving(history: History<Tagged>) {
    forall id {:trigger OwnEvents(history, id)} :: WorkerLog(id, OwnEvents(history, id))
  }

  lemma InterleavingBefore(history: History<Tagged>)
    requires history.Then? && Interleaving(history)
    ensures Interleaving(history.before)
  {
    forall id: string {:trigger OwnEvents(history.before, id)}
      ensures WorkerLog(id, OwnEvents(history.before, id))
    {
      assert WorkerLog(id, OwnEvents(history, id));
    }
  }

  lemma OfRequestAppend(frames: seq<Frame>, f: Frame, id: string)
    ensures OfRequest(frames + [f], id) == if f.requestId == id then OfRequest(frames, id) + [f] else OfRequest(frames, id)
  {
    assert (frames + [f])[..|frames|] == frames;
  }

  lemma OwnRequest(id: string, before: Log, e: Event)
    requires WorkerLog(id, Then(before, e)) && !e.Pulled?
    ensures e.frame.requestId == id
  {
  }

  /** A worker's frames ride the shared stream untouched, whatever is interleaved with them. */
  lemma {:induction false} StreamSeparates(history: History<Tagged>, id: string)
    requires Interleaving(history)
    ensures OfRequest(Stream(history), id) == Frames(OwnEvents(history, id))
  {
    match history
    case Empty =>
    case Then(before, t) =>
      InterleavingBefore(history);
      StreamSeparates(before, id);
      if t.event.Taken? {
        assert WorkerLog(t.id, OwnEvents(history, t.id));
        OwnRequest(t.id, OwnEvents(before, t.id), t.event);
        OfRequestAppend(Stream(before), t.event.frame, id);
      }
  }

  /** For any interleaving, at any moment, each request's part of the stream is
      a well-formed response prefix whose chunks join to the bytes it has read
      (all of them, once its last read chunk is sent and if none was refused). */
  lemma EveryResponseWellFormed(history: History<Tagged>, id: string)
    requires Interleaving(history)
    ensures var frames, log := OfRequest(Stream(history), id), OwnEvents(history, id);
            && ResponsePrefix(id, frames)
            && (forall i :: 0 <= i < |frames| && frames[i].kind == ResponseBody ==> 1 <= |frames[i].body| <= 32768)
            && BodyBytes(frames) <= PulledBytes(log)
            && (NothingRefused(log) && !(log.Then? && log.last.Pulled?) ==> BodyBytes(frames) == PulledBytes(log))
  {
    StreamSeparates(history, id);
    WorkerFrames(id, OwnEvents(history, id));
  }

  // ---- the workers ----

  /** The client stream behind its mutex: Send is one lock hold. Whether the connection takes a frame is up to it. */
  class LockedSender {
    var stream: seq<Frame>

    constructor ()
      ensures stream == []
    {
      stream := [];
    }

    method Send(frame: Frame, takes: bool) returns (e: Event)
      modifies this
      ensures e == if takes then Taken(frame) else Refused(frame)
      ensures stream == if takes then old(stream) + [frame] else old(stream)
    {
      if takes {
        stream := stream + [frame];
        return Taken(frame);
      }
      return Refused(frame);
    }
  }

  datatype Status = More | EndOfBody | Failed(message: string)

  datatype Pull = Pull(chunk: seq<Byte>, status: Status)

  /** Bad port, unusable request, unreachable upstream or failed handshake; or an answer with its status code. */
  datatype Reach = Rejected(message: string) | Reached(status: nat)

  function AllBytes(pulls: seq<Pull>): seq<Byte> {
    if pulls == [] then [] else AllBytes(pulls[..|pulls| - 1]) + pulls[|pulls| - 1].chunk
  }

  lemma AppendPull(pulls: seq<Pull>, i: nat)
    requires i < |pulls|
    ensures AllBytes(pulls[..i + 1]) == AllBytes(pulls[..i]) + pulls[i].chunk
  {
    assert pulls[..i + 1][..i] == pulls[..i];
  }

  ghost predicate Sized(pulls: seq<Pull>) {
    forall i :: 0 <= i < |pulls| ==> |pulls[i].chunk| <= CHUNK
  }

  /** The reads as they happened: only the last can be an end or a failure. */
  ghost predicate InOrder(pulls: seq<Pull>) {
    forall i :: 0 <= i < |pulls| - 1 ==> pulls[i].status == More
  }

  /** A body read up to its end or its failure. */
  ghost predicate ReadOut(pulls: seq<Pull>) {
    InOrder(pulls) && pulls != [] && pulls[|pulls| - 1].status != More
  }

  /** The message of the closing frame once a plain body has been read out. */
  function EndError(last: Status): string {
    if last.Failed? then "upstream read: " + last.message else ""
  }

  /** A START, a body holding every byte read, and an END with the given message. */
  ghost predicate WholeResponse(id: string, status: nat, bytes: seq<Byte>, error: string, frames: seq<Frame>) {
    && ResponsePrefix(id, frames)
    && |frames| >= 2
    && frames[0] == Frame(id, ResponseStart, status, [], "")
    && frames[|frames| - 1] == Frame(id, ResponseEnd, 0, [], error)
    && BodyBytes(frames) == bytes
  }

  predicate NoneCanceled(canceled: nat -> bool, count: nat) {
    forall i: nat :: i < count ==> !canceled(i)
  }

  predicate Ended(frames: seq<Frame>) {
    frames != [] && frames[|frames| - 1].kind == ResponseEnd
  }

  /** An END was sent last, whether or not the stream took it. */
  predicate EndAttempted(log: Log) {
    log.Then? && !log.last.Pulled? && log.last.frame.kind == ResponseEnd
  }

  predicate BodyRefused(log: Log) {
    match log
    case Empty => false
    case Then(before, e) => (e.Refused? && e.frame.kind == ResponseBody) || BodyRefused(before)
  }

  ghost predicate Headed(id: string, status: nat, log: Log) {
    Frames(log) != [] && Frames(log)[0] == StartFrame(id, status)
  }

  /** Closing a response whose body was read out and whose sends were all taken makes it whole. */
  lemma ClosedIsWhole(id: string, status: nat, log: Log, error: string)
    requires StageOf(id, log) == Open([]) && Headed(id, status, log)
    ensures WholeResponse(id, status, PulledBytes(log), error, Frames(log) + [EndFrame(id, error)])
  {
    StageMeaning(id, log);
    PrefixAppend(id, Frames(log), EndFrame(id, error));
  }

  /** Sends a frame and notes in the worker's log what became of it. */
  method Emit(sender: LockedSender, frame: Frame, takes: bool, before: Log) returns (log: Log)
    modifies sender
    ensures log == Then(before, if takes then Taken(frame) else Refused(frame))
    ensures sender.stream == if takes then old(sender.stream) + [frame] else old(sender.stream)
  {
    var e := sender.Send(frame, takes);
    log := Then(before, e);
  }

  /** The response has been opened and every chunk read so far was sent and taken. */
  ghost predicate Caught(id: string, status: nat, log: Log) {
    StageOf(id, log) == Open([]) && Headed(id, status, log) && NothingRefused(log) && !BodyRefused(log)
  }

  /** The opening of every response: a lone END if the upstream was not reached, else START. */
  method Begin(sender: LockedSender, id: string, reach: Reach, takes: bool) returns (log: Log, proceed: bool)
    modifies sender
    ensures WorkerLog(id, log) && sender.stream == old(sender.stream) + Frames(log)
    ensures reach.Rejected? ==> log.Then? && log.before == Empty && !log.last.Pulled? && log.last.frame == EndFrame(id, reach.message)
    ensures proceed ==> reach.Reached? && Caught(id, reach.status, log) && PulledBytes(log) == []
    ensures reach.Reached? ==> (proceed <==> NothingRefused(log)) && (proceed <==> Headed(id, reach.status, log))
    ensures reach.Reached? ==> !EndAttempted(log) && !Ended(Frames(log))
  {
    if reach.Rejected? {
      log := Emit(sender, EndFrame(id, reach.message), takes, Empty);
      return log, false;
    }
    log := Emit(sender, StartFrame(id, reach.status), takes, Empty);
    proceed := log.last.Taken?;
  }

  /** A body frame was refused. */
  ghost predicate CutOff(id: string, status: nat, log: Log) {
    StageOf(id, log).Cut? && Headed(id, status, log) && !NothingRefused(log) && BodyRefused(log)
  }

  /** No END has been sent yet. */
  lemma NotEndedYet(id: string, status: nat, log: Log)
    requires Caught(id, status, log) || CutOff(id, status, log)
    ensures !EndAttempted(log) && !Ended(Frames(log))
  {
    StageMeaning(id, log);
  }

  lemma ReadStep(id: string, status: nat, log: Log, chunk: seq<Byte>)
    requires Caught(id, status, log) && |chunk| <= CHUNK
    ensures var read := Then(log, Pulled(chunk));
            && StageOf(id, read) == Open(chunk) && Headed(id, status, read) && NothingRefused(read) && !BodyRefused(read)
            && PulledBytes(read) == PulledBytes(log) + chunk && Frames(read) == Frames(log)
  {
  }

  lemma SendStep(id: string, status: nat, read: Log, chunk: seq<Byte>, takes: bool)
    requires chunk != [] && StageOf(id, read) == Open(chunk) && Headed(id, status, read)
    requires NothingRefused(read) && !BodyRefused(read)
    ensures var sent := Then(read, if takes then Taken(BodyFrame(id, chunk)) else Refused(BodyFrame(id, chunk)));
            && (if takes then Caught(id, status, sent) else CutOff(id, status, sent))
            && PulledBytes(sent) == PulledBytes(read)
            && Frames(sent) == if takes then Frames(read) + [BodyFrame(id, chunk)] else Frames(read)
  {
  }

  /** One turn of the copy loop: a chunk was read and, unless it is empty, is sent. */
  method PassOn(sender: LockedSender, id: string, ghost status: nat, chunk: seq<Byte>, takes: nat -> bool,
                before: Log, ghost base: seq<Frame>)
    returns (log: Log, taken: bool)
    requires |chunk| <= CHUNK && Caught(id, status, before) && sender.stream == base + Frames(before)
    modifies sender
    ensures sender.stream == base + Frames(log)
    ensures if taken then Caught(id, status, log) else CutOff(id, status, log)
    ensures PulledBytes(log) == PulledBytes(before) + chunk
  {
    ReadStep(id, status, before, chunk);
    log, taken := Then(before, Pulled(chunk)), true;
    if |chunk| > 0 {
      SendStep(id, status, log, chunk, takes(Length(log)));
      log := Emit(sender, BodyFrame(id, chunk), takes(Length(log)), log);
      taken := log.last.Taken?;
    }
  }

  /** A read that ended or failed was the last one, and everything has been read. */
  lemma LastRead(pulls: seq<Pull>, i: nat)
    requires i < |pulls| && InOrder(pulls) && pulls[i].status != More
    ensures i == |pulls| - 1 && ReadOut(pulls) && pulls[..i + 1] == pulls
  {
  }

  /** The copy loop both kinds of worker share: read, pass a nonempty chunk on,
      stop at the end, at a failure or at a refused frame. The reads come one by
      one; a list that stops early is a worker still waiting for its next read.
      canceled(i) is the check of the request's context before the i-th read;
      takes(n) says whether the stream takes the frame that is the n-th event. */
  method PumpReader(sender: LockedSender, id: string, ghost status: nat, pulls: seq<Pull>,
                    canceled: nat -> bool, takes: nat -> bool, before: Log, ghost base: seq<Frame>)
    returns (log: Log, ended: bool, last: Status)
    requires Sized(pulls)
    requires Caught(id, status, before) && PulledBytes(before) == []
    requires sender.stream == base + Frames(before)
    modifies sender
    ensures sender.stream == base + Frames(log)
    ensures Caught(id, status, log) || (CutOff(id, status, log) && ended && last == More)
    ensures Caught(id, status, log) && ended ==> last != More
    ensures Caught(id, status, log) && InOrder(pulls) ==>
              (ended <==> ReadOut(pulls) && NoneCanceled(canceled, |pulls|)) &&
              (ended ==> PulledBytes(log) == AllBytes(pulls) && last == pulls[|pulls| - 1].status)
  {
    log, ended, last := before, true, More;
    var i := 0;
    while i < |pulls|
      invariant 0 <= i <= |pulls|
      invariant Caught(id, status, log)
      invariant PulledBytes(log) == AllBytes(pulls[..i])
      invariant sender.stream == base + Frames(log)
      invariant ended && last == More && (i > 0 ==> pulls[i - 1].status == More) && NoneCanceled(canceled, i)
    {
      if canceled(i) {
        ended := false;
        return;
      }
      AppendPull(pulls, i);
      var taken;
      log, taken := PassOn(sender, id, status, pulls[i].chunk, takes, log, base);
      if !taken {
        return;
      }
      if pulls[i].status != More {
        if InOrder(pulls) {
          LastRead(pulls, i);
        }
        last := pulls[i].status;
        return;
      }
      i := i + 1;
    }
    ended := false;
  }

  /** A plain request. Its response is ended, and is then whole, exactly if the
      body was read out, no frame was refused and the context was not canceled
      before any of the reads; a cancel after the last read changes nothing. */
  method HandleUpstream(sender: LockedSender, id: string, reach: Reach, pulls: seq<Pull>, canceled: nat -> bool, takes: nat -> bool)
    returns (log: Log)
    requires Sized(pulls)
    modifies sender
    ensures WorkerLog(id, log)
    ensures sender.stream == old(sender.stream) + Frames(log)
    ensures reach.Rejected? ==> log.Then? && log.before == Empty && !log.last.Pulled? && log.last.frame == Frame(id, ResponseEnd, 0, [], reach.message)
    ensures reach.Reached? && InOrder(pulls) ==>
              (Ended(Frames(log)) <==> ReadOut(pulls) && NothingRefused(log) && NoneCanceled(canceled, |pulls|))
    ensures reach.Reached? && InOrder(pulls) && Ended(Frames(log)) ==>
              match pulls[|pulls| - 1].status
              case EndOfBody => WholeResponse(id, reach.status, AllBytes(pulls), "", Frames(log))
              case Failed(message) => WholeResponse(id, reach.status, AllBytes(pulls), "upstream read: " + message, Frames(log))
              case More => false
    ensures reach.Reached? && InOrder(pulls) && Ended(Frames(log)) ==>
              (Frames(log)[|Frames(log)| - 1].error == "" <==> pulls[|pulls| - 1].status == EndOfBody)
  {
    ghost var base := sender.stream;
    var proceed, ended, last;
    log, proceed := Begin(sender, id, reach, takes(0));
    if !proceed {
      return;
    }
    log, ended, last := PumpReader(sender, id, reach.status, pulls, canceled, takes, log, base);
    NotEndedYet(id, reach.status, log);
    if !ended || last == More {
      return;
    }
    ClosedIsWhole(id, reach.status, log, EndError(last));
    log := Emit(sender, EndFrame(id, EndError(last)), takes(Length(log)), log);
  }

  /** A WebSocket request. Once its START was taken, an END without error is
      sent however the copying ended, a refused body frame included, as soon as
      the goroutine that copies request bytes the other way has finished too. */
  method HandleWebSocket(sender: LockedSender, id: string, reach: Reach, pulls: seq<Pull>, bodyEnds: bool, takes: nat -> bool)
    returns (log: Log)
    requires Sized(pulls)
    modifies sender
    ensures WorkerLog(id, log)
    ensures sender.stream == old(sender.stream) + Frames(log)
    ensures reach.Rejected? ==> log.Then? && log.before == Empty && !log.last.Pulled? && log.last.frame == Frame(id, ResponseEnd, 0, [], reach.message)
    ensures reach.Reached? && InOrder(pulls) ==>
              (EndAttempted(log) <==> Headed(id, reach.status, log) && (ReadOut(pulls) || BodyRefused(log)) &&
                                      (bodyEnds || reach.status != 101))
    ensures reach.Reached? && InOrder(pulls) && EndAttempted(log) && NothingRefused(log) ==>
              WholeResponse(id, reach.status, AllBytes(pulls), "", Frames(log))
  {
    ghost var base := sender.stream;
    var proceed, ended, last;
    log, proceed := Begin(sender, id, reach, takes(0));
    if !proceed {
      return;
    }
    log, ended, last := PumpReader(sender, id, reach.status, pulls, i => false, takes, log, base);
    NotEndedYet(id, reach.status, log);
    if !ended || (reach.status == SWITCHING_PROTOCOLS && !bodyEnds) {
      return;
    }
    if StageOf(id, log) == Open([]) {
      ClosedIsWhole(id, reach.status, log, "");
    }
    log := Emit(sender, EndFrame(id, ""), takes(Length(log)), log);
  }
}

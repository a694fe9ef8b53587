/** The daemon's execution of one run: a long sequence of calls with many ways
    out, a permit to give back and an archive stream that must be closed on
    every path. The effects of one execution are a history. */
module RunExecution {
  import opened Basics
  import opened Histories
  import opened Text
  import opened Runs

  datatype Phase = Start | ToolCall | ToolResult | ErrorEvent | End(summary: string, exitCode: int, error: string)

  datatype StepKind = StartStep | CommandStep | ResultStep

  datatype StepStatus = StepRunning | StepCompleted | StepFailed

  datatype Activity = RunningCommand | Waiting | BlockedActivity

  /** Calls the daemon makes; each is attempted once where it appears. */
  datatype Effect =
    | OpenStream
    | Record(phase: Phase)
    | CloseStream
    | AcquirePermit
    | ReleasePermit(permitId: string)
    | ReportStatus(activity: Activity)
    | UpdateRun(state: RunState, leaseId: string)
    | AppendStep(kind: StepKind, status: StepStatus, stepLeaseId: string)
    | LoadSnapshot
    | LogActivity(activityKind: string)
    | RunCommand

  type Log = History<Effect>

  // ---- what may happen around an execution ----

  /** Whether the archive takes the run: a run without an id is never offered. */
  datatype ArchiveReply = NotOffered | Unopened | Unstarted | Taken

  /** An update may succeed, be lost on the way, move the run but fail on the
      stored task, or take effect with its reply lost. */
  datatype Reply = Ok | Lost | HalfDone | Unheard

  datatype PermitReply =
    | Granted(leaseId: string)
    | GrantedWithoutLease
    | Rejected(reason: string)
    | Unanswered(unheard: Option<string>, message: string)

  datatype SnapshotReply = Loaded | Unavailable | LoadError(message: string)

  datatype Command = Command(exitCode: int, failure: Option<string>)

  datatype World = World(archive: ArchiveReply, permit: PermitReply, running: Reply, runningError: string,
                         startStepMade: bool, snapshot: SnapshotReply, buildError: Option<string>, commandStepMade: bool,
                         command: Command, terminal: Reply, released: bool)

  /** The archive stream is open and its START event was taken. */
  predicate Recording(w: World) { w.archive.Taken? }

  predicate HasPermit(w: World) { w.permit.Granted? || w.permit.GrantedWithoutLease? }

  function PermitLease(w: World): string { if w.permit.Granted? then w.permit.leaseId else "" }

  function PermitError(w: World): string {
    match w.permit
    case Rejected(reason) => "start permit rejected: " + reason
    case Unanswered(_, message) => message
    case _ => ""
  }

  /** The command is reached, and succeeds. */
  predicate Succeeds(w: World) {
    HasPermit(w) && w.running.Ok? && !w.snapshot.LoadError? && w.buildError.None? && w.command.failure.None?
  }

  // ---- the effects, in order ----

  function Opened(w: World): Log {
    match w.archive
    case NotOffered => Empty
    case Unopened => Then(Empty, OpenStream)
    case Unstarted => Then(Then(Then(Empty, OpenStream), Record(Start)), CloseStream)
    case Taken => Then(Then(Empty, OpenStream), Record(Start))
  }

  function Recorded(w: World, log: Log, phase: Phase): Log {
    if Recording(w) then Then(log, Record(phase)) else log
  }

  function Closed(w: World, log: Log, summary: string, exitCode: int, error: string): Log {
    if Recording(w) then Then(Then(log, Record(End(summary, exitCode, error))), CloseStream) else log
  }

  function FailedRun(log: Log, lease: string): Log {
    Then(Then(Then(log, AppendStep(ResultStep, StepFailed, lease)), UpdateRun(Failed, lease)), ReportStatus(BlockedActivity))
  }

  /** The early exits: the archive is closed with the real reason, then the run is failed. */
  function GivenUp(w: World, log: Log, summary: string, error: string, lease: string): Log {
    FailedRun(Closed(w, log, summary, 1, error), lease)
  }

  /** Up to the answer of the command. */
  function Answered(w: World, log: Log, lease: string): Log {
    var announced := Then(log, AppendStep(CommandStep, StepRunning, lease));
    var logged := if w.startStepMade then Then(announced, LogActivity("run_started")) else announced;
    var ran := Then(Recorded(w, Then(logged, LogActivity("command_run")), ToolCall), RunCommand);
    var status := if w.command.failure.Some? then StepFailed else StepCompleted;
    var stepped := if w.commandStepMade then Then(ran, AppendStep(CommandStep, status, lease)) else ran;
    Recorded(w, stepped, if w.command.failure.Some? then ErrorEvent else ToolResult)
  }

  /** The command itself and all that follows it. */
  function Commanded(w: World, log: Log, lease: string): Log {
    var answered := Answered(w, log, lease);
    if w.command.failure.Some? then
      var closed := Closed(w, answered, "runtime command failed", w.command.exitCode, w.command.failure.value);
      Then(FailedRun(closed, lease), LogActivity("run_failed"))
    else
      var updated := Then(Then(answered, AppendStep(ResultStep, StepCompleted, lease)), UpdateRun(Completed, lease));
      Then(Closed(w, Then(updated, ReportStatus(Waiting)), "run completed", w.command.exitCode, ""), LogActivity("run_completed"))
  }

  /** Everything between getting the permit and giving it back. */
  function Permitted(w: World, log: Log, lease: string): Log {
    var asked := Then(Then(log, ReportStatus(RunningCommand)), UpdateRun(Running, lease));
    if !w.running.Ok? then GivenUp(w, asked, "run status update failed", w.runningError, lease)
    else
      var loading := Then(Then(asked, AppendStep(StartStep, StepCompleted, lease)), LoadSnapshot);
      if w.snapshot.LoadError? then GivenUp(w, loading, "load launch prompt snapshot failed", w.snapshot.message, lease)
      else
        var loaded := if w.snapshot.Loaded? then Then(loading, LogActivity("prompt_snapshot_loaded")) else loading;
        if w.buildError.Some? then GivenUp(w, loaded, "build runtime command failed", w.buildError.value, lease)
        else Commanded(w, loaded, lease)
  }

  /** The whole execution of a run that holds runLease. */
  function Trace(w: World, runLease: string): Log {
    var asked := Then(Opened(w), AcquirePermit);
    if !HasPermit(w) then GivenUp(w, asked, "start permit failed", PermitError(w), FirstNonBlank("", runLease))
    else
      var done := Permitted(w, asked, FirstNonBlank(PermitLease(w), runLease));
      if Blank(PermitLease(w)) then done else Then(done, ReleasePermit(PermitLease(w)))
  }

  // ---- the daemon's code ----

  /** The client: every call is noted. */
  class Client {
    var log: Log

    constructor ()
      ensures log == Empty
    {
      log := Empty;
    }

    method Do(e: Effect)
      modifies this
      ensures log == Then(old(log), e)
    {
      log := Then(log, e);
    }
  }

  class RunRecorder {
    const client: Client
    var streaming: bool

    constructor (client: Client)
      ensures this.client == client && streaming
    {
      this.client, streaming := client, true;
    }

    method RecordToolEvent(phase: Phase)
      requires streaming
      modifies client
      ensures client.log == Then(old(client.log), Record(phase))
    {
      client.Do(Record(phase));
    }

    /** Safe to call again: only the first call has an effect. */
    method CloseWithEnd(summary: string, exitCode: int, error: string)
      modifies this, client
      ensures !streaming
      ensures client.log == if old(streaming) then Then(Then(old(client.log), Record(End(summary, exitCode, error))), CloseStream)
                            else old(client.log)
    {
      if !streaming {
        return;
      }
      client.Do(Record(End(summary, exitCode, error)));
      client.Do(CloseStream);
      streaming := false;
    }
  }

  class RunExecutor {
    const client: Client
    const world: World
    const runLease: string
    /** The archive of the run, forgotten once it is closed. */
    var recorder: RunRecorder?

    constructor (client: Client, world: World, runLease: string)
      ensures this.client == client && this.world == world && this.runLease == runLease && recorder == null
    {
      this.client, this.world, this.runLease, recorder := client, world, runLease, null;
    }

    ghost predicate InStep()
      reads this, recorder
    {
      (recorder != null <==> Recording(world)) && (recorder != null ==> recorder.client == client && recorder.streaming)
    }

    method NewRunRecorder()
      requires recorder == null && client.log == Empty
      modifies this, client
      ensures InStep() && (recorder != null <==> world.archive.Taken?) && (recorder != null ==> fresh(recorder))
      ensures match world.archive
              case NotOffered => client.log == Empty
              case Unopened => client.log == Then(Empty, OpenStream)
              case Unstarted => client.log == Then(Then(Then(Empty, OpenStream), Record(Start)), CloseStream)
              case Taken => client.log == Then(Then(Empty, OpenStream), Record(Start))
    {
      if world.archive.NotOffered? {
        return;
      }
      client.Do(OpenStream);
      if world.archive.Unopened? {
        return;
      }
      client.Do(Record(Start));
      if world.archive.Unstarted? {
        client.Do(CloseStream);
        return;
      }
      recorder := new RunRecorder(client);
    }

    method RecordToolEvent(phase: Phase)
      requires InStep()
      modifies client
      ensures InStep() && client.log == Recorded(world, old(client.log), phase)
    {
      if recorder != null {
        recorder.RecordToolEvent(phase);
      }
    }

    method CloseRunRecorder(summary: string, exitCode: int, error: string)
      requires recorder != null ==> recorder.client == client && recorder.streaming
      modifies this, recorder, client
      ensures recorder == null
      ensures client.log == if old(recorder) == null then old(client.log)
                            else Then(Then(old(client.log), Record(End(summary, exitCode, error))), CloseStream)
      ensures old(InStep()) ==> client.log == Closed(world, old(client.log), summary, exitCode, error)
    {
      if recorder == null {
        return;
      }
      recorder.CloseWithEnd(summary, exitCode, error);
      recorder := null;
    }

    method FailRun(lease: string)
      modifies client
      ensures client.log == FailedRun(old(client.log), lease)
    {
      client.Do(AppendStep(ResultStep, StepFailed, lease));
      client.Do(UpdateRun(Failed, lease));
      client.Do(ReportStatus(BlockedActivity));
    }

    method RunTheCommand(lease: string)
      requires InStep()
      modifies this, recorder, client
      ensures recorder == null && client.log == Commanded(world, old(client.log), lease)
    {
      client.Do(AppendStep(CommandStep, StepRunning, lease));
      if world.startStepMade {
        client.Do(LogActivity("run_started"));
      }
      client.Do(LogActivity("command_run"));
      RecordToolEvent(ToolCall);
      client.Do(RunCommand);
      if world.command.failure.Some? {
        if world.commandStepMade {
          client.Do(AppendStep(CommandStep, StepFailed, lease));
        }
        RecordToolEvent(ErrorEvent);
        CloseRunRecorder("runtime command failed", world.command.exitCode, world.command.failure.value);
        FailRun(lease);
        client.Do(LogActivity("run_failed"));
        return;
      }
      if world.commandStepMade {
        client.Do(AppendStep(CommandStep, StepCompleted, lease));
      }
      RecordToolEvent(ToolResult);
      client.Do(AppendStep(ResultStep, StepCompleted, lease));
      client.Do(UpdateRun(Completed, lease));
      client.Do(ReportStatus(Waiting));
      CloseRunRecorder("run completed", world.command.exitCode, "");
      client.Do(LogActivity("run_completed"));
    }

    method RunWithPermit(lease: string)
      requires InStep()
      modifies this, recorder, client
      ensures recorder == null && client.log == Permitted(world, old(client.log), lease)
    {
      client.Do(ReportStatus(RunningCommand));
      client.Do(UpdateRun(Running, lease));
      if !world.running.Ok? {
        CloseRunRecorder("run status update failed", 1, world.runningError);
        FailRun(lease);
        return;
      }
      client.Do(AppendStep(StartStep, StepCompleted, lease));
      client.Do(LoadSnapshot);
      if world.snapshot.LoadError? {
        CloseRunRecorder("load launch prompt snapshot failed", 1, world.snapshot.message);
        FailRun(lease);
        return;
      }
      if world.snapshot.Loaded? {
        client.Do(LogActivity("prompt_snapshot_loaded"));
      }
      if world.buildError.Some? {
        CloseRunRecorder("build runtime command failed", 1, world.buildError.value);
        FailRun(lease);
        return;
      }
      RunTheCommand(lease);
    }

    /** The deferred calls run last: the permit goes back, then the safety net
        would close an archive that was forgotten. The log shows that it never does. */
    method ExecuteRun()
      requires recorder == null && client.log == Empty
      modifies this, client
      ensures recorder == null && client.log == Trace(world, runLease)
    {
      NewRunRecorder();
      client.Do(AcquirePermit);
      if !HasPermit(world) {
        CloseRunRecorder("start permit failed", 1, PermitError(world));
        FailRun(FirstNonBlank("", runLease));
      } else {
        RunWithPermit(FirstNonBlank(PermitLease(world), runLease));
        if !Blank(PermitLease(world)) {
          client.Do(ReleasePermit(PermitLease(world)));
        }
      }
      CloseRunRecorder("run recorder closed without explicit end", 1, "no explicit closeRunRecorder call");
    }
  }

  // ---- reading a trace ----

  /** What the archive sees, what the server's runs and leases see, and how often the command ran. */
  datatype Views = Views(frames: Log, calls: Log, commands: nat)

  predicate IsFrame(e: Effect) { e.OpenStream? || e.Record? || e.CloseStream? }

  predicate IsCall(e: Effect) { e.AcquirePermit? || e.UpdateRun? || e.ReleasePermit? }

  function ViewsOf(log: Log): Views {
    match log
    case Empty => Views(Empty, Empty, 0)
    case Then(before, e) => Seen(ViewsOf(before), e)
  }

  function Seen(v: Views, e: Effect): Views {
    Views(if IsFrame(e) then Then(v.frames, e) else v.frames,
          if IsCall(e) then Then(v.calls, e) else v.calls,
          v.commands + if e.RunCommand? then 1 else 0)
  }

  /** Why an execution ended the way it did, as the archive should tell it. */
  function Reason(w: World): Phase {
    if !HasPermit(w) then End("start permit failed", 1, PermitError(w))
    else if !w.running.Ok? then End("run status update failed", 1, w.runningError)
    else if w.snapshot.LoadError? then End("load launch prompt snapshot failed", 1, w.snapshot.message)
    else if w.buildError.Some? then End("build runtime command failed", 1, w.buildError.value)
    else if w.command.failure.Some? then End("runtime command failed", w.command.exitCode, w.command.failure.value)
    else End("run completed", w.command.exitCode, "")
  }

  predicate ReachesCommand(w: World) {
    HasPermit(w) && w.running.Ok? && !w.snapshot.LoadError? && w.buildError.None?
  }

  /** START, then perhaps TOOL_CALL and its one answer, then END. */
  function Archived(w: World, frames: Log): Log {
    if !Recording(w) then frames
    else
      var answered := if ReachesCommand(w)
                      then Then(Then(frames, Record(ToolCall)), Record(if Succeeds(w) then ToolResult else ErrorEvent))
                      else frames;
      Then(Then(answered, Record(Reason(w))), CloseStream)
  }

  lemma ClosedViews(w: World, log: Log, summary: string, exitCode: int, error: string)
    ensures var v, v' := ViewsOf(log), ViewsOf(Closed(w, log, summary, exitCode, error));
            && v'.calls == v.calls && v'.commands == v.commands
            && v'.frames == if Recording(w) then Then(Then(v.frames, Record(End(summary, exitCode, error))), CloseStream) else v.frames
  {
    if Recording(w) {
      var ended := Then(log, Record(End(summary, exitCode, error)));
      assert ViewsOf(ended) == ViewsOf(log).(frames := Then(ViewsOf(log).frames, ended.last));
    }
  }

  lemma FailedRunViews(log: Log, lease: string)
    ensures ViewsOf(FailedRun(log, lease)) == ViewsOf(log).(calls := Then(ViewsOf(log).calls, UpdateRun(Failed, lease)))
  {
    var stepped := Then(log, AppendStep(ResultStep, StepFailed, lease));
    assert ViewsOf(stepped) == ViewsOf(log);
    var updated := Then(stepped, UpdateRun(Failed, lease));
    assert ViewsOf(updated) == ViewsOf(log).(calls := Then(ViewsOf(log).calls, updated.last));
  }

  lemma GivenUpViews(w: World, log: Log, summary: string, error: string, lease: string)
    requires Reason(w) == End(summary, 1, error) && !ReachesCommand(w)
    ensures var v := ViewsOf(log);
            ViewsOf(GivenUp(w, log, summary, error, lease)) ==
            Views(Archived(w, v.frames), Then(v.calls, UpdateRun(Failed, lease)), v.commands)
  {
    ClosedViews(w, log, summary, 1, error);
    FailedRunViews(Closed(w, log, summary, 1, error), lease);
  }

  lemma AnsweredViews(w: World, log: Log, lease: string)
    ensures var v := ViewsOf(log);
            var phase := if w.command.failure.Some? then ErrorEvent else ToolResult;
            ViewsOf(Answered(w, log, lease)) ==
            Views(if Recording(w) then Then(Then(v.frames, Record(ToolCall)), Record(phase)) else v.frames, v.calls, v.commands + 1)
  {
    var v := ViewsOf(log);
    var announced := Then(log, AppendStep(CommandStep, StepRunning, lease));
    assert ViewsOf(announced) == v;
    var logged := if w.startStepMade then Then(announced, LogActivity("run_started")) else announced;
    assert ViewsOf(logged) == v;
    var told := Then(logged, LogActivity("command_run"));
    assert ViewsOf(told) == v;
    var called := Recorded(w, told, ToolCall);
    assert ViewsOf(called) == v.(frames := if Recording(w) then Then(v.frames, Record(ToolCall)) else v.frames);
    var ran := Then(called, RunCommand);
    assert ViewsOf(ran) == ViewsOf(called).(commands := v.commands + 1);
    var status := if w.command.failure.Some? then StepFailed else StepCompleted;
    var stepped := if w.commandStepMade then Then(ran, AppendStep(CommandStep, status, lease)) else ran;
    assert ViewsOf(stepped) == ViewsOf(ran);
  }

  lemma CompletedViews(log: Log, lease: string)
    ensures var done := Then(Then(Then(log, AppendStep(ResultStep, StepCompleted, lease)), UpdateRun(Completed, lease)), ReportStatus(Waiting));
            ViewsOf(done) == ViewsOf(log).(calls := Then(ViewsOf(log).calls, UpdateRun(Completed, lease)))
  {
    var stepped := Then(log, AppendStep(ResultStep, StepCompleted, lease));
    assert ViewsOf(stepped) == ViewsOf(log);
    var updated := Then(stepped, UpdateRun(Completed, lease));
    assert ViewsOf(updated) == ViewsOf(log).(calls := Then(ViewsOf(log).calls, updated.last));
  }

  lemma CommandedViews(w: World, log: Log, lease: string)
    requires ReachesCommand(w)
    ensures var v := ViewsOf(log);
            ViewsOf(Commanded(w, log, lease)) ==
            Views(Archived(w, v.frames), Then(v.calls, UpdateRun(if Succeeds(w) then Completed else Failed, lease)), v.commands + 1)
  {
    AnsweredViews(w, log, lease);
    var answered := Answered(w, log, lease);
    if Succeeds(w) {
      CompletedViews(answered, lease);
      var reported := Then(Then(Then(answered, AppendStep(ResultStep, StepCompleted, lease)), UpdateRun(Completed, lease)), ReportStatus(Waiting));
      ClosedViews(w, reported, "run completed", w.command.exitCode, "");
    } else {
      var failure := w.command.failure.value;
      ClosedViews(w, answered, "runtime command failed", w.command.exitCode, failure);
      FailedRunViews(Closed(w, answered, "runtime command failed", w.command.exitCode, failure), lease);
    }
  }

  lemma PermittedViews(w: World, log: Log, lease: string)
    requires HasPermit(w)
    ensures var v := ViewsOf(log);
            ViewsOf(Permitted(w, log, lease)) ==
            Views(Archived(w, v.frames),
                  Then(Then(v.calls, UpdateRun(Running, lease)), UpdateRun(if Succeeds(w) then Completed else Failed, lease)),
                  v.commands + if ReachesCommand(w) then 1 else 0)
  {
    var v := ViewsOf(log);
    var told := Then(log, ReportStatus(RunningCommand));
    assert ViewsOf(told) == v;
    var asked := Then(told, UpdateRun(Running, lease));
    assert ViewsOf(asked) == v.(calls := Then(v.calls, asked.last));
    if !w.running.Ok? {
      GivenUpViews(w, asked, "run status update failed", w.runningError, lease);
      return;
    }
    var stepped := Then(asked, AppendStep(StartStep, StepCompleted, lease));
    assert ViewsOf(stepped) == ViewsOf(asked);
    var loading := Then(stepped, LoadSnapshot);
    assert ViewsOf(loading) == ViewsOf(asked);
    if w.snapshot.LoadError? {
      GivenUpViews(w, loading, "load launch prompt snapshot failed", w.snapshot.message, lease);
      return;
    }
    var loaded := if w.snapshot.Loaded? then Then(loading, LogActivity("prompt_snapshot_loaded")) else loading;
    assert ViewsOf(loaded) == ViewsOf(asked);
    if w.buildError.Some? {
      GivenUpViews(w, loaded, "build runtime command failed", w.buildError.value, lease);
    } else {
      CommandedViews(w, loaded, lease);
    }
  }

  /** The lease every update of the run carries. */
  function RunLease(w: World, runLease: string): string { FirstNonBlank(PermitLease(w), runLease) }

  /** The calls of a whole execution on the server's runs and leases. */
  function Calls(w: World, runLease: string): Log {
    var asked := Then(Empty, AcquirePermit);
    var begun := if HasPermit(w) then Then(asked, UpdateRun(Running, RunLease(w, runLease))) else asked;
    var ended := Then(begun, UpdateRun(if Succeeds(w) then Completed else Failed, RunLease(w, runLease)));
    if HasPermit(w) && !Blank(PermitLease(w)) then Then(ended, ReleasePermit(PermitLease(w))) else ended
  }

  /** For every combination of failures: one terminal update, last of the updates,
      saying Completed exactly if the command was reached and succeeded; a permit
      with a usable lease is given back once, after that; an archive that was
      started has START, perhaps TOOL_CALL and one answer, one END with the real
      reason, and is then closed, never by the safety net; and the command runs
      once if it is reached, else not at all. */
  lemma TraceViews(w: World, runLease: string)
    ensures ViewsOf(Trace(w, runLease)) ==
            Views(Archived(w, Opened(w)), Calls(w, runLease), if ReachesCommand(w) then 1 else 0)
  {
    var begun := Opened(w);
    assert ViewsOf(begun) == Views(begun, Empty, 0) by {
      var opening := Then(Empty, OpenStream);
      assert ViewsOf(opening) == Views(opening, Empty, 0);
      var started := Then(opening, Record(Start));
      assert ViewsOf(started) == Views(started, Empty, 0);
    }
    var asked := Then(begun, AcquirePermit);
    assert ViewsOf(asked) == Views(begun, Then(Empty, AcquirePermit), 0);
    if !HasPermit(w) {
      GivenUpViews(w, asked, "start permit failed", PermitError(w), FirstNonBlank("", runLease));
    } else {
      PermittedViews(w, asked, RunLease(w, runLease));
    }
  }

  // ---- spelled out ----

  /** What the archive is sent, for each way it may answer: nothing, an attempt
      to open, a START that is refused and a close, or a START, perhaps TOOL_CALL
      and the one answer to it, one END telling how it went, and a close. */
  lemma ArchiveFrames(w: World, runLease: string)
    ensures var frames := ViewsOf(Trace(w, runLease)).frames;
            match w.archive
            case NotOffered => frames == Empty
            case Unopened => frames == Then(Empty, OpenStream)
            case Unstarted => frames == Then(Then(Then(Empty, OpenStream), Record(Start)), CloseStream)
            case Taken =>
              var started := Then(Then(Empty, OpenStream), Record(Start));
              var called := Then(started, Record(ToolCall));
              if w.permit.Rejected? then
                frames == Then(Then(started, Record(End("start permit failed", 1, "start permit rejected: " + w.permit.reason))), CloseStream)
              else if w.permit.Unanswered? then
                frames == Then(Then(started, Record(End("start permit failed", 1, w.permit.message))), CloseStream)
              else if w.running != Ok then
                frames == Then(Then(started, Record(End("run status update failed", 1, w.runningError))), CloseStream)
              else if w.snapshot.LoadError? then
                frames == Then(Then(started, Record(End("load launch prompt snapshot failed", 1, w.snapshot.message))), CloseStream)
              else if w.buildError.Some? then
                frames == Then(Then(started, Record(End("build runtime command failed", 1, w.buildError.value))), CloseStream)
              else if w.command.failure.Some? then
                frames == Then(Then(Then(called, Record(ErrorEvent)),
                                    Record(End("runtime command failed", w.command.exitCode, w.command.failure.value))), CloseStream)
              else
                frames == Then(Then(Then(called, Record(ToolResult)), Record(End("run completed", w.command.exitCode, ""))), CloseStream)
  {
    TraceViews(w, runLease);
  }

  /** The calls on the server's runs and leases: without a permit one Failed update
      with the run's own lease; else a Running one, a terminal one and the release, all with the
      permit's lease if it is usable. */
  lemma ServerCalls(w: World, runLease: string)
    ensures var calls := ViewsOf(Trace(w, runLease)).calls;
            var own := if Blank(runLease) then "" else runLease;
            var asked := Then(Empty, AcquirePermit);
            var fine := w.running == Ok && !w.snapshot.LoadError? && w.buildError == None && w.command.failure == None;
            var ended := if fine then Completed else Failed;
            match w.permit
            case Rejected(_) => calls == Then(asked, UpdateRun(Failed, own))
            case Unanswered(_, _) => calls == Then(asked, UpdateRun(Failed, own))
            case GrantedWithoutLease => calls == Then(Then(asked, UpdateRun(Running, own)), UpdateRun(ended, own))
            case Granted(leaseId) =>
              if Blank(leaseId) then calls == Then(Then(asked, UpdateRun(Running, own)), UpdateRun(ended, own))
              else calls == Then(Then(Then(asked, UpdateRun(Running, leaseId)), UpdateRun(ended, leaseId)), ReleasePermit(leaseId))
    ensures ViewsOf(Trace(w, runLease)).commands ==
            if (w.permit.Granted? || w.permit.GrantedWithoutLease?) && w.running == Ok && !w.snapshot.LoadError? && w.buildError == None
            then 1 else 0
  {
    TraceViews(w, runLease);
  }

  function Maybe(on: bool, log: Log, e: Effect): Log { if on then Then(log, e) else log }

  /** Every ending of a failed run: END and close if there is an archive, then a
      failed step, the Failed update and the blocked status. */
  function Failing(w: World, log: Log, lease: string, summary: string, exitCode: int, error: string): Log {
    var ended := Maybe(w.archive.Taken?, Maybe(w.archive.Taken?, log, Record(End(summary, exitCode, error))), CloseStream);
    Then(Then(Then(ended, AppendStep(ResultStep, StepFailed, lease)), UpdateRun(Failed, lease)), ReportStatus(BlockedActivity))
  }

  /** The order of all calls when the command is reached. */
  lemma CommandInOrder(w: World, log: Log, lease: string)
    ensures var started := Then(log, AppendStep(CommandStep, StepRunning, lease));
            var logged := Then(Maybe(w.startStepMade, started, LogActivity("run_started")), LogActivity("command_run"));
            var ran := Then(Maybe(w.archive.Taken?, logged, Record(ToolCall)), RunCommand);
            if w.command.failure.Some? then
              var stepped := Maybe(w.commandStepMade, ran, AppendStep(CommandStep, StepFailed, lease));
              Commanded(w, log, lease) ==
              Then(Failing(w, Maybe(w.archive.Taken?, stepped, Record(ErrorEvent)), lease,
                           "runtime command failed", w.command.exitCode, w.command.failure.value), LogActivity("run_failed"))
            else
              var stepped := Maybe(w.commandStepMade, ran, AppendStep(CommandStep, StepCompleted, lease));
              var result := Then(Maybe(w.archive.Taken?, stepped, Record(ToolResult)), AppendStep(ResultStep, StepCompleted, lease));
              var reported := Then(Then(result, UpdateRun(Completed, lease)), ReportStatus(Waiting));
              var ended := Maybe(w.archive.Taken?, Maybe(w.archive.Taken?, reported, Record(End("run completed", w.command.exitCode, ""))), CloseStream);
              Commanded(w, log, lease) == Then(ended, LogActivity("run_completed"))
  {
  }

  /** The order of all calls before that, and of the early exits. */
  lemma PermittedInOrder(w: World, log: Log, lease: string)
    ensures var asked := Then(Then(log, ReportStatus(RunningCommand)), UpdateRun(Running, lease));
            var loading := Then(Then(asked, AppendStep(StartStep, StepCompleted, lease)), LoadSnapshot);
            var loaded := Maybe(w.snapshot == Loaded, loading, LogActivity("prompt_snapshot_loaded"));
            Permitted(w, log, lease) ==
            if w.running != Ok then Failing(w, asked, lease, "run status update failed", 1, w.runningError)
            else if w.snapshot.LoadError? then Failing(w, loading, lease, "load launch prompt snapshot failed", 1, w.snapshot.message)
            else if w.buildError.Some? then Failing(w, loaded, lease, "build runtime command failed", 1, w.buildError.value)
            else Commanded(w, loaded, lease)
  {
  }

  /** The order of all calls from the opening of the archive to the giving back of the permit. */
  lemma TraceInOrder(w: World, runLease: string)
    ensures var opening := match w.archive
                           case NotOffered => Empty
                           case Unopened => Then(Empty, OpenStream)
                           case Unstarted => Then(Then(Then(Empty, OpenStream), Record(Start)), CloseStream)
                           case Taken => Then(Then(Empty, OpenStream), Record(Start));
            var asked := Then(opening, AcquirePermit);
            var own := if Blank(runLease) then "" else runLease;
            Trace(w, runLease) ==
            match w.permit
            case Rejected(reason) => Failing(w, asked, own, "start permit failed", 1, "start permit rejected: " + reason)
            case Unanswered(_, message) => Failing(w, asked, own, "start permit failed", 1, message)
            case GrantedWithoutLease => Permitted(w, asked, own)
            case Granted(leaseId) =>
              if Blank(leaseId) then Permitted(w, asked, own) else Then(Permitted(w, asked, leaseId), ReleasePermit(leaseId))
  {
  }
}

/** The daemon's execution of a run together with what its calls do to the
    server: the table of runs, the stored tasks and the table of leases. */
module RunOutcome {
  import opened Basics
  import opened Histories
  import opened Text
  import Runs
  import opened RunExecution

  /** tasks: the state of each stored task. leases: the resource type of each lease. */
  datatype ControlPlane = ControlPlane(table: Runs.Table, tasks: map<string, string>, leases: map<string, string>)

  /** What an update says besides the new state and the lease, and the routes at the time it is handled. */
  datatype Words = Words(update: Runs.UpdateInput, routes: Runs.Routes)

  /** The run being executed, and the words of its first and of its terminal update. */
  datatype Job = Job(runId: string, first: Words, last: Words)

  const PERMIT := "start_permit"

  function TaskState(state: Runs.RunState): string {
    match state
    case Completed => "in_review"
    case Failed => "blocked"
    case _ => "canceled"
  }

  /** The task follows a run that became terminal, if it is still stored. */
  function TaskMoved(tasks: map<string, string>, run: Runs.Run): map<string, string> {
    if run.taskId == "" || !Runs.Terminal(run.state) || run.taskId !in tasks then tasks
    else tasks[run.taskId := TaskState(run.state)]
  }

  function WordsFor(j: Job, state: Runs.RunState): Words { if Runs.Terminal(state) then j.last else j.first }

  function UpdateOf(j: Job, state: Runs.RunState, leaseId: string): Runs.UpdateInput {
    WordsFor(j, state).update.(runId := j.runId, state := state, leaseId := leaseId)
  }

  function RoutesOf(j: Job, state: Runs.RunState): Runs.Routes { WordsFor(j, state).routes }

  function ReplyTo(w: World, state: Runs.RunState): Reply {
    if Runs.Terminal(state) then w.terminal else w.running
  }

  /** An update whose work on the runs gives the table: the stored task follows unless that fails. */
  function Answer(s: ControlPlane, reply: Reply, table: Runs.Table, runId: string): ControlPlane {
    if reply.Lost? then s
    else if reply.HalfDone? || runId !in table.runs then s.(table := table)
    else s.(table := table, tasks := TaskMoved(s.tasks, table.runs[runId]))
  }

  function Granting(leases: map<string, string>, permit: PermitReply): map<string, string> {
    match permit
    case Granted(leaseId) => leases[leaseId := PERMIT]
    case Unanswered(Some(leaseId), _) => leases[leaseId := PERMIT]
    case _ => leases
  }

  function Verdict(w: World): Runs.RunState { if Succeeds(w) then Runs.Completed else Runs.Failed }

  function UpdateAnswered(s: ControlPlane, w: World, j: Job, state: Runs.RunState, leaseId: string): ControlPlane {
    Answer(s, ReplyTo(w, state), Runs.StatusUpdated(s.table, UpdateOf(j, state, leaseId), RoutesOf(j, state)), j.runId)
  }

  function Handled(s: ControlPlane, w: World, j: Job, e: Effect): ControlPlane {
    match e
    case AcquirePermit => s.(leases := Granting(s.leases, w.permit))
    case UpdateRun(state, leaseId) => UpdateAnswered(s, w, j, state, leaseId)
    case ReleasePermit(permitId) => if w.released then s.(leases := s.leases - {permitId}) else s
    case _ => s
  }

  function After(s: ControlPlane, w: World, j: Job, log: Log): ControlPlane {
    match log
    case Empty => s
    case Then(before, e) => Handled(After(s, w, j, before), w, j, e)
  }

  /** The server state depends on the calls alone. */
  lemma {:induction false} CallsDecide(s: ControlPlane, w: World, j: Job, log: Log)
    ensures After(s, w, j, log) == After(s, w, j, ViewsOf(log).calls)
  {
    match log
    case Empty =>
    case Then(before, _) => CallsDecide(s, w, j, before);
  }

  // ---- the run, whether or not the server holds it yet ----

  function StateOf(runs: map<string, Runs.Run>, runId: string): Option<Runs.RunState> {
    if runId in runs then Some(runs[runId].state) else None
  }

  function TaskOf(runs: map<string, Runs.Run>, runId: string): string {
    if runId in runs then runs[runId].taskId else ""
  }

  /** The run as an execution leaves it, told without the calls in between. A run
      the server did not hold, as for a direct message, is made by the first update that arrives. */
  function Outcome(state: Option<Runs.RunState>, w: World): Option<Runs.RunState> {
    if !w.terminal.Lost? then Some(Verdict(w))
    else if HasPermit(w) && !w.running.Lost? then Some(Runs.Running)
    else state
  }

  function TasksAfter(tasks: map<string, string>, taskId: string, w: World): map<string, string> {
    if taskId !in tasks || taskId == "" || w.terminal.Lost? || w.terminal.HalfDone? then tasks
    else tasks[taskId := if Succeeds(w) then "in_review" else "blocked"]
  }

  /** The permit's lease stays behind: its grant was not heard, or its release not served. */
  predicate Leaks(w: World) {
    (w.permit.Unanswered? && w.permit.unheard.Some?) || (w.permit.Granted? && (Blank(w.permit.leaseId) || !w.released))
  }

  /** Lease ids are drawn fresh by the server. */
  predicate FreshLease(leases: map<string, string>, w: World) {
    && (w.permit.Granted? ==> w.permit.leaseId !in leases)
    && (w.permit.Unanswered? && w.permit.unheard.Some? ==> w.permit.unheard.value !in leases)
  }

  /** Other runs neither come, go nor change; this one, once there, stays and keeps its identity and its task. */
  ghost predicate OnlyMoves(runs: map<string, Runs.Run>, runs': map<string, Runs.Run>, runId: string) {
    && (forall id :: id != runId ==> (id in runs' <==> id in runs) && (id in runs ==> runs'[id] == runs[id]))
    && (runId in runs ==> runId in runs' && Runs.WriteOnce(runs[runId], runs'[runId]))
    && TaskOf(runs', runId) == TaskOf(runs, runId)
  }

  lemma OnlyMovesTwice(runs: map<string, Runs.Run>, runs': map<string, Runs.Run>, runs'': map<string, Runs.Run>, runId: string)
    requires OnlyMoves(runs, runs', runId) && OnlyMoves(runs', runs'', runId)
    ensures OnlyMoves(runs, runs'', runId)
  {
  }

  lemma UpdateMoves(t: Runs.Table, u: Runs.UpdateInput, routes: Runs.Routes)
    requires Runs.Keyed(t) && u.runId != ""
    ensures var t' := Runs.StatusUpdated(t, u, routes);
            Runs.Keyed(t') && OnlyMoves(t.runs, t'.runs, u.runId) && StateOf(t'.runs, u.runId) == Some(u.state)
  {
  }

  /** What one update to a state does. */
  ghost predicate Moves(s: ControlPlane, s': ControlPlane, reply: Reply, runId: string, state: Runs.RunState) {
    var task := TaskOf(s.table.runs, runId);
    && s'.leases == s.leases
    && OnlyMoves(s.table.runs, s'.table.runs, runId)
    && StateOf(s'.table.runs, runId) == (if reply.Lost? then StateOf(s.table.runs, runId) else Some(state))
    && s'.tasks == if reply.Lost? || reply.HalfDone? || !Runs.Terminal(state) || task == "" || task !in s.tasks
                   then s.tasks else s.tasks[task := TaskState(state)]
  }

  lemma AnswerMoves(s: ControlPlane, reply: Reply, table: Runs.Table, runId: string, state: Runs.RunState)
    requires OnlyMoves(s.table.runs, table.runs, runId) && StateOf(table.runs, runId) == Some(state)
    ensures Moves(s, Answer(s, reply, table, runId), reply, runId, state)
  {
  }

  lemma UpdateMovesRun(s: ControlPlane, w: World, j: Job, state: Runs.RunState, leaseId: string)
    requires Runs.Keyed(s.table) && j.runId != ""
    ensures var s' := UpdateAnswered(s, w, j, state, leaseId);
            Runs.Keyed(s'.table) && Moves(s, s', ReplyTo(w, state), j.runId, state)
  {
    var u, routes := UpdateOf(j, state, leaseId), RoutesOf(j, state);
    UpdateMoves(s.table, u, routes);
    AnswerMoves(s, ReplyTo(w, state), Runs.StatusUpdated(s.table, u, routes), j.runId, state);
  }

  /** What an execution does to the runs and the tasks. */
  ghost predicate Executed(s: ControlPlane, s': ControlPlane, w: World, runId: string) {
    && OnlyMoves(s.table.runs, s'.table.runs, runId)
    && StateOf(s'.table.runs, runId) == Outcome(StateOf(s.table.runs, runId), w)
    && s'.tasks == TasksAfter(s.tasks, TaskOf(s.table.runs, runId), w)
  }

  /** A terminal update alone, when there was no permit. */
  lemma MovesOnce(s: ControlPlane, s': ControlPlane, w: World, runId: string)
    requires Moves(s, s', w.terminal, runId, Verdict(w)) && !HasPermit(w)
    ensures Executed(s, s', w, runId)
  {
  }

  /** A first update that moves the run to Running, then a terminal one. */
  lemma MovesTwice(s: ControlPlane, s': ControlPlane, s'': ControlPlane, w: World, runId: string)
    requires Moves(s, s', w.running, runId, Runs.Running)
    requires Moves(s', s'', w.terminal, runId, Verdict(w)) && HasPermit(w)
    ensures Executed(s, s'', w, runId)
  {
    OnlyMovesTwice(s.table.runs, s'.table.runs, s''.table.runs, runId);
  }

  /** Leases do not matter to the runs and the tasks. */
  lemma LeasesApart(s: ControlPlane, s': ControlPlane, t: ControlPlane, t': ControlPlane, w: World, runId: string)
    requires Executed(s, s', w, runId)
    requires t.table == s.table && t.tasks == s.tasks && t'.table == s'.table && t'.tasks == s'.tasks
    ensures Executed(t, t', w, runId)
  {
  }

  function Asked(s: ControlPlane, w: World): ControlPlane { s.(leases := Granting(s.leases, w.permit)) }

  function Begun(s: ControlPlane, w: World, j: Job, lease: string): ControlPlane {
    if HasPermit(w) then UpdateAnswered(Asked(s, w), w, j, Runs.Running, lease) else Asked(s, w)
  }

  function Finished(s: ControlPlane, w: World, j: Job, lease: string): ControlPlane {
    UpdateAnswered(Begun(s, w, j, lease), w, j, Verdict(w), lease)
  }

  function GivenBack(s: ControlPlane, w: World): ControlPlane {
    if HasPermit(w) && !Blank(PermitLease(w)) && w.released then s.(leases := s.leases - {PermitLease(w)}) else s
  }

  lemma CallsInStages(s: ControlPlane, w: World, j: Job, runLease: string)
    ensures After(s, w, j, Calls(w, runLease)) == GivenBack(Finished(s, w, j, RunLease(w, runLease)), w)
  {
    var lease := RunLease(w, runLease);
    var log := Then(Empty, AcquirePermit);
    assert After(s, w, j, Empty) == s;
    assert After(s, w, j, log) == Asked(s, w);
    log := if HasPermit(w) then Then(log, UpdateRun(Runs.Running, lease)) else log;
    assert After(s, w, j, log) == Begun(s, w, j, lease);
    log := Then(log, UpdateRun(Verdict(w), lease));
    assert After(s, w, j, log) == Finished(s, w, j, lease);
  }

  lemma StagesMove(s: ControlPlane, w: World, j: Job, lease: string)
    requires Runs.Keyed(s.table) && j.runId != ""
    ensures HasPermit(w) ==> Moves(Asked(s, w), Begun(s, w, j, lease), w.running, j.runId, Runs.Running)
    ensures Moves(Begun(s, w, j, lease), Finished(s, w, j, lease), w.terminal, j.runId, Verdict(w))
  {
    if HasPermit(w) {
      UpdateMovesRun(Asked(s, w), w, j, Runs.Running, lease);
    }
    UpdateMovesRun(Begun(s, w, j, lease), w, j, Verdict(w), lease);
  }

  lemma RunAfter(s: ControlPlane, w: World, j: Job, runLease: string)
    requires Runs.Keyed(s.table) && j.runId != ""
    ensures Executed(s, After(s, w, j, Calls(w, runLease)), w, j.runId)
  {
    var lease := RunLease(w, runLease);
    CallsInStages(s, w, j, runLease);
    StagesMove(s, w, j, lease);
    var finished := Finished(s, w, j, lease);
    if HasPermit(w) {
      MovesTwice(Asked(s, w), Begun(s, w, j, lease), finished, w, j.runId);
    } else {
      MovesOnce(Asked(s, w), finished, w, j.runId);
    }
    LeasesApart(Asked(s, w), finished, s, GivenBack(finished, w), w, j.runId);
  }

  /** The lease table once the permit was granted and perhaps given back. */
  function LeasesLeft(leases: map<string, string>, w: World): map<string, string> {
    var granted := Granting(leases, w.permit);
    if HasPermit(w) && !Blank(PermitLease(w)) && w.released then granted - {PermitLease(w)} else granted
  }

  lemma UpdateKeepsLeases(s: ControlPlane, w: World, j: Job, state: Runs.RunState, leaseId: string)
    ensures UpdateAnswered(s, w, j, state, leaseId).leases == s.leases
  {
  }

  lemma LeasesAfter(s: ControlPlane, w: World, j: Job, runLease: string)
    ensures After(s, w, j, Calls(w, runLease)).leases == LeasesLeft(s.leases, w)
  {
    var lease := RunLease(w, runLease);
    CallsInStages(s, w, j, runLease);
    UpdateKeepsLeases(Asked(s, w), w, j, Runs.Running, lease);
    UpdateKeepsLeases(Begun(s, w, j, lease), w, j, Verdict(w), lease);
  }

  lemma LeasesLeftIff(leases: map<string, string>, w: World)
    requires FreshLease(leases, w)
    ensures LeasesLeft(leases, w) == leases <==> !Leaks(w)
    ensures Leaks(w) ==> exists id :: id !in leases && LeasesLeft(leases, w) == leases[id := "start_permit"]
  {
    match w.permit
    case Granted(leaseId) =>
      assert leases[leaseId := PERMIT] - {leaseId} == leases;
      assert leaseId in leases[leaseId := PERMIT];
    case Unanswered(Some(leaseId), _) => assert leaseId in leases[leaseId := PERMIT];
    case _ =>
  }

  /** Whatever fails around an execution, and whether the server held the run or
      not: the run ends Completed exactly if its command was reached and succeeded,
      its task, if it has one, ends in_review or blocked accordingly, and no other
      run or task moves. Only a lost terminal update leaves the run as it was, only
      a half-done one leaves the task; a new run is made unless every update is lost. */
  lemma ExecutionOutcome(s: ControlPlane, w: World, j: Job, runLease: string)
    requires Runs.Keyed(s.table) && j.runId != ""
    ensures Executed(s, After(s, w, j, Trace(w, runLease)), w, j.runId)
  {
    CallsDecide(s, w, j, Trace(w, runLease));
    TraceViews(w, runLease);
    RunAfter(s, w, j, runLease);
  }

  /** For a run the server did not hold, spelled out: nothing is lost of what it
      held, exactly that run is added, without a task, if an update arrives at all. */
  lemma UnknownRunOutcome(s: ControlPlane, w: World, j: Job, runLease: string)
    requires Runs.Keyed(s.table) && j.runId != "" && j.runId !in s.table.runs
    ensures var s' := After(s, w, j, Trace(w, runLease));
            && s'.tasks == s.tasks
            && (if w.terminal.Lost? && !(HasPermit(w) && !w.running.Lost?) then s'.table.runs == s.table.runs
                else j.runId in s'.table.runs && s'.table.runs == s.table.runs[j.runId := s'.table.runs[j.runId]] &&
                     s'.table.runs[j.runId].taskId == "" &&
                     s'.table.runs[j.runId].state == if w.terminal.Lost? then Runs.Running else Verdict(w))
  {
    ExecutionOutcome(s, w, j, runLease);
  }

  /** The lease table is what it was before, exactly unless the permit's grant was
      not heard or its release was not served; then that one permit stays behind. */
  lemma PermitsGivenBackIff(s: ControlPlane, w: World, j: Job, runLease: string)
    requires FreshLease(s.leases, w)
    ensures var s' := After(s, w, j, Trace(w, runLease));
            && (s'.leases == s.leases <==> !Leaks(w))
            && (Leaks(w) ==> exists id :: id !in s.leases && s'.leases == s.leases[id := "start_permit"])
  {
    CallsDecide(s, w, j, Trace(w, runLease));
    TraceViews(w, runLease);
    LeasesAfter(s, w, j, runLease);
    LeasesLeftIff(s.leases, w);
  }

  /** The same in the fields of what happens: Completed and in_review if every step
      up to the command went well, else Failed and blocked; a lost terminal update
      leaves the run Running if that was served, else as it was; the task moves only
      with a terminal update that gets as far as the store. */
  lemma OutcomeInFields(s: ControlPlane, w: World, j: Job, runLease: string)
    requires Runs.Keyed(s.table) && j.runId in s.table.runs
    ensures var s' := After(s, w, j, Trace(w, runLease));
            var permitted := w.permit.Granted? || w.permit.GrantedWithoutLease?;
            var fine := permitted && w.running == Ok && !w.snapshot.LoadError? && w.buildError == None && w.command.failure == None;
            var task := s.table.runs[j.runId].taskId;
            && j.runId in s'.table.runs
            && s'.table.runs[j.runId].state == (if w.terminal != Lost then (if fine then Runs.Completed else Runs.Failed)
                                                else if permitted && w.running != Lost then Runs.Running
                                                else s.table.runs[j.runId].state)
            && s'.tasks == if task == "" || task !in s.tasks || w.terminal == Lost || w.terminal == HalfDone then s.tasks
                           else s.tasks[task := if fine then "in_review" else "blocked"]
  {
    ExecutionOutcome(s, w, j, runLease);
  }

  lemma LastWords(s: ControlPlane, w: World, j: Job, lease: string)
    requires Runs.Keyed(s.table) && j.runId != "" && w.terminal != Lost
    ensures var runs' := UpdateAnswered(s, w, j, Verdict(w), lease).table.runs;
            && j.runId in runs' && runs'[j.runId].summary == j.last.update.summary && runs'[j.runId].error == j.last.update.error
            && runs'[j.runId].completed == runs'[j.runId].updated == j.last.update.now
  {
  }

  lemma FirstWords(s: ControlPlane, w: World, j: Job, lease: string)
    requires Runs.Keyed(s.table) && j.runId != "" && w.running != Lost
    ensures var runs' := UpdateAnswered(s, w, j, Runs.Running, lease).table.runs;
            && j.runId in runs' && runs'[j.runId].summary == j.first.update.summary && runs'[j.runId].error == j.first.update.error
            && runs'[j.runId].updated == j.first.update.now
  {
  }

  /** What the run says in the end: the words of the terminal update if that was
      served, else those of the first if that was asked for and served. */
  lemma RunSaysLast(s: ControlPlane, w: World, j: Job, runLease: string)
    requires Runs.Keyed(s.table) && j.runId != ""
    ensures var runs' := After(s, w, j, Trace(w, runLease)).table.runs;
            && (w.terminal != Lost ==>
                  j.runId in runs' && runs'[j.runId].summary == j.last.update.summary && runs'[j.runId].error == j.last.update.error &&
                  runs'[j.runId].completed == j.last.update.now)
            && (w.terminal == Lost && (w.permit.Granted? || w.permit.GrantedWithoutLease?) && w.running != Lost ==>
                  j.runId in runs' && runs'[j.runId].summary == j.first.update.summary && runs'[j.runId].error == j.first.update.error)
  {
    var lease := RunLease(w, runLease);
    CallsDecide(s, w, j, Trace(w, runLease));
    TraceViews(w, runLease);
    CallsInStages(s, w, j, runLease);
    if HasPermit(w) {
      UpdateMovesRun(Asked(s, w), w, j, Runs.Running, lease);
      if w.running != Lost {
        FirstWords(Asked(s, w), w, j, lease);
      }
    }
    if w.terminal != Lost {
      LastWords(Begun(s, w, j, lease), w, j, lease);
    }
  }

  /** Which permits stay behind: one granted without the daemon hearing of it, and
      one that was heard of but has a blank lease or a release that was not served. */
  lemma PermitsInFields(s: ControlPlane, w: World, j: Job, runLease: string)
    requires FreshLease(s.leases, w)
    ensures After(s, w, j, Trace(w, runLease)).leases ==
            match w.permit
            case Granted(leaseId) => if w.released && !Blank(leaseId) then s.leases else s.leases[leaseId := "start_permit"]
            case Unanswered(Some(leaseId), _) => s.leases[leaseId := "start_permit"]
            case _ => s.leases
  {
    CallsDecide(s, w, j, Trace(w, runLease));
    TraceViews(w, runLease);
    LeasesAfter(s, w, j, runLease);
    LeasesLeftIff(s.leases, w);
  }

  /** A daemon that hears success everywhere leaves the server as promised. */
  lemma CleanExecution(s: ControlPlane, w: World, j: Job, runLease: string)
    requires Runs.Keyed(s.table) && j.runId != "" && FreshLease(s.leases, w)
    requires w.permit.Granted? && !Blank(w.permit.leaseId) && w.running.Ok? && w.terminal.Ok? && w.released
    requires !w.snapshot.LoadError? && w.buildError.None?
    ensures var task, s' := TaskOf(s.table.runs, j.runId), After(s, w, j, Trace(w, runLease));
            && s'.leases == s.leases
            && StateOf(s'.table.runs, j.runId) == Some(if w.command.failure.None? then Runs.Completed else Runs.Failed)
            && s'.tasks == if task == "" || task !in s.tasks then s.tasks
                           else s.tasks[task := if w.command.failure.None? then "in_review" else "blocked"]
  {
    ExecutionOutcome(s, w, j, runLease);
    PermitsGivenBackIff(s, w, j, runLease);
  }
}

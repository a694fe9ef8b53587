/** How often a run's command is run, by any number of daemons. A daemon decides
    whether to start a run by a copy of it: an entry of a list it fetched, or the
    payload of an event. The copy may be old by the time the daemon gets to it. A
    list entry is used up when the poll gets to it. An event's copy is used up
    likewise, but the event is offered to every daemon, and again to the next
    subscription of each, until an acknowledgement is applied. Each daemon has its
    own table of runs in progress, which is lost with its process. */
module RunRestarts {
  import opened Basics
  import opened Histories
  import opened Text
  import Runs
  import Supervisor = RunSupervisor

  predicate Startable(state: Runs.RunState) { state.Unspecified? || state.Queued? }

  /** event: the one it came with, none for a list entry. */
  datatype Copy = Copy(runId: string, state: Runs.RunState, takenAt: nat, event: Option<nat>)

  /** Which copies a poll or a run event starts at all. Direct messages are
      started unasked; the copy made for them passes anyway. */
  predicate ShouldStart(c: Copy) { !Blank(c.runId) && Startable(c.state) }

  /** The run of a direct message is named after the message. */
  predicate OfMessage(runId: string) { "direct-" <= runId }

  /** Where an execution stands; Going has been told that the run is Running. */
  datatype Stage = Reserved | Going | Ending | Closing | Over

  /** servedAt: when the server handled the execution's Running update; ran: its command was run. */
  datatype Exec = Exec(daemon: nat, worker: nat, runId: string, copiedAt: nat, event: Option<nat>, reservedAt: nat,
                       servedAt: Option<nat>, ran: bool, stage: Stage)

  /** A copy on its way to a daemon. */
  datatype Held = Held(daemon: nat, copy: Copy)

  /** server: the state of each run in the server's table; messages: the runs of
      the direct messages sent; reopenings: when some other client moved a run to a
      startable state; events: the queue, by the time of queueing; held: the copies
      on their way, offered by a tick, on a stream or in a list; handled: the events
      some daemon is done with; daemons: their tables, empty if never touched;
      execs: all executions there ever were. */
  datatype State = State(now: nat, server: map<string, Runs.RunState>, messages: set<string>, reopenings: set<(string, nat)>,
                         events: map<nat, Copy>, held: map<nat, Held>, handled: set<nat>,
                         daemons: map<nat, Supervisor.State>, execs: seq<Exec>)

  const INITIAL := State(0, map[], {}, {}, map[], map[], {}, map[], [])

  /** The table of one daemon. */
  function At(s: State, d: nat): Supervisor.State {
    if d in s.daemons then s.daemons[d] else Supervisor.INITIAL
  }

  /** One lock hold, or one call as the server handles it, each. Every call of the
      daemon may be lost, and may be served with the reply lost; one that is served
      later than that is like an update by another client. */
  datatype Step =
    | Assign(runId: string)
    | Message(runId: string)
    | UpdateByOther(runId: string, state: Runs.RunState)
    | Fetch(daemon: nat, runId: string)
    | Offer(daemon: nat, event: nat)
    | Drop(copy: nat)
    | Reach(worker: nat, copy: nat)
    | Begin(exec: nat, permitted: bool, served: bool, heard: bool)
    | Command(exec: nat, reached: bool)
    | End(exec: nat, completed: bool, served: bool)
    | Release(exec: nat, receipt: bool)
    | ApplyAck(event: nat)
    | Crash(daemon: nat)

  predicate AtStage(s: State, e: nat, stage: Stage) { e < |s.execs| && s.execs[e].stage == stage }

  predicate Unheard(s: State, id: string) { id !in s.server && id !in s.messages }

  predicate Enabled(s: State, step: Step) {
    match step
    case Assign(id) => Unheard(s, id) && !OfMessage(id)
    case Message(id) => Unheard(s, id) && OfMessage(id)
    case UpdateByOther(_, _) => true
    case Fetch(_, id) => id in s.server
    case Offer(_, n) => n in s.events
    case Drop(c) => c in s.held
    case Reach(w, c) => c in s.held && w !in At(s, s.held[c].daemon).workers
    case Begin(e, _, _, _) => AtStage(s, e, Reserved)
    case Command(e, _) => AtStage(s, e, Going)
    case End(e, _, _) => AtStage(s, e, Ending)
    case Release(e, _) => AtStage(s, e, Closing) && s.execs[e].worker in At(s, s.execs[e].daemon).workers
    case ApplyAck(n) => n in s.handled
    case Crash(_) => true
  }

  function Changed(s: State, e: nat, exec: Exec): State
    requires e < |s.execs|
  {
    s.(execs := s.execs[e := exec])
  }

  /** An event with a copy of the run. */
  function Announced(s: State, id: string, state: Runs.RunState): State {
    s.(events := s.events[s.now := Copy(id, state, s.now, Some(s.now))])
  }

  /** The server moves a run and announces it in the same lock hold. */
  function Moved(s: State, id: string, state: Runs.RunState): State {
    Announced(s.(server := s.server[id := state]), id, state)
  }

  function Done(s: State, event: Option<nat>): State {
    if event.Some? then s.(handled := s.handled + {event.value}) else s
  }

  /** Used up, and started unless it is not startable or this daemon is executing the run. */
  function Reached(s: State, w: nat, c: nat): State
    requires c in s.held && w !in At(s, s.held[c].daemon).workers
  {
    var d, copy, used := s.held[c].daemon, s.held[c].copy, s.(held := s.held - {c});
    if !ShouldStart(copy) || copy.runId in At(s, d).running then Done(used, copy.event)
    else used.(daemons := s.daemons[d := Supervisor.Apply(At(s, d), Supervisor.Reserve(w, copy.runId))],
               execs := s.execs + [Exec(d, w, copy.runId, copy.takenAt, copy.event, s.now, None, false, Reserved)])
  }

  /** An execution that is not over, after a call of its own. */
  function Staged(x: Exec, step: Step, now: nat): Exec {
    match step
    case Begin(_, permitted, served, heard) =>
      if permitted && served then x.(servedAt := Some(now), stage := if heard then Going else Ending) else x.(stage := Ending)
    case Command(_, reached) => x.(ran := reached, stage := Ending)
    case End(_, _, _) => x.(stage := Closing)
    case Release(_, _) => x.(stage := Over)
    case _ => x
  }

  function Released(s: State, e: nat, receipt: bool): State
    requires e < |s.execs| && s.execs[e].worker in At(s, s.execs[e].daemon).workers
  {
    var x := s.execs[e];
    var table := Supervisor.Apply(At(s, x.daemon), Supervisor.Finish(x.worker));
    var s' := Changed(s, e, x.(stage := Over)).(daemons := s.daemons[x.daemon := table]);
    if OfMessage(x.runId) && !receipt then s' else Done(s', x.event)
  }

  function Ended(execs: seq<Exec>, d: nat): (r: seq<Exec>)
    ensures |r| == |execs|
  {
    seq(|execs|, e requires 0 <= e < |execs| => if execs[e].daemon == d then execs[e].(stage := Over) else execs[e])
  }

  /** The process is gone, with its table and all on its way to it; no event is handled by that. */
  function Crashed(s: State, d: nat): State {
    s.(daemons := s.daemons[d := Supervisor.INITIAL],
       held := map c | c in s.held && s.held[c].daemon != d :: s.held[c],
       execs := Ended(s.execs, d))
  }

  function Apply(s: State, step: Step): State
    requires Enabled(s, step)
  {
    match step
    case Assign(id) => Moved(s, id, Runs.Queued)
    case Message(id) => Announced(s.(messages := s.messages + {id}), id, Runs.Queued)
    case UpdateByOther(id, state) =>
      Moved(s.(reopenings := if Startable(state) then s.reopenings + {(id, s.now)} else s.reopenings), id, state)
    case Fetch(d, id) => s.(held := s.held[s.now := Held(d, Copy(id, s.server[id], s.now, None))])
    case Offer(d, n) => s.(held := s.held[s.now := Held(d, s.events[n])])
    case Drop(c) => s.(held := s.held - {c})
    case Reach(w, c) => Reached(s, w, c)
    case Begin(e, permitted, served, heard) =>
      var s' := Changed(s, e, Staged(s.execs[e], step, s.now));
      if permitted && served then Moved(s', s.execs[e].runId, Runs.Running) else s'
    case Command(e, _) => Changed(s, e, Staged(s.execs[e], step, s.now))
    case End(e, completed, served) =>
      var s' := Changed(s, e, Staged(s.execs[e], step, s.now));
      if served then Moved(s', s.execs[e].runId, if completed then Runs.Completed else Runs.Failed) else s'
    case Release(e, receipt) => Released(s, e, receipt)
    case ApplyAck(n) => s.(events := s.events - {n})
    case Crash(d) => Crashed(s, d)
  }

  /** Every step takes time; one that is not enabled does nothing else. */
  function Next(s: State, step: Step): State {
    (if Enabled(s, step) then Apply(s, step) else s).(now := s.now + 1)
  }

  function After(h: History<Step>): State {
    match h
    case Empty => INITIAL
    case Then(before, step) => Next(After(before), step)
  }

  /** What a daemon does with a copy it gets to: the copy is used up; if the run has a
      name, is unspecified or queued in it and is not being executed by this daemon, an
      execution begins; else the daemon is done with the copy's event. */
  lemma ReachMeans(s: State, w: nat, c: nat)
    requires Enabled(s, Reach(w, c))
    ensures var s', d, copy := Next(s, Reach(w, c)), s.held[c].daemon, s.held[c].copy;
            var starts := !Blank(copy.runId) && (copy.state == Runs.Unspecified || copy.state == Runs.Queued) &&
                          copy.runId !in At(s, d).running;
            && s'.held == s.held - {c} && s'.events == s.events && s'.server == s.server
            && s'.execs == s.execs + (if starts then [Exec(d, w, copy.runId, copy.takenAt, copy.event, s.now, None, false, Reserved)] else [])
            && s'.handled == s.handled + (if starts || copy.event == None then {} else {copy.event.value})
  {
  }

  /** An execution that is let go is done with its event, unless it was for a direct
      message, whose run is named "direct-…", and the receipt was not taken. */
  lemma ReleaseMeans(s: State, e: nat, receipt: bool)
    requires Enabled(s, Release(e, receipt))
    ensures var s', x := Next(s, Release(e, receipt)), s.execs[e];
            && s'.events == s.events && s'.held == s.held && s'.server == s.server
            && s'.execs == s.execs[e := x.(stage := Over)]
            && s'.handled == s.handled + (if x.event == None || ("direct-" <= x.runId && !receipt) then {} else {x.event.value})
  {
  }

  /** The first update: with a permit and served, the run is Running, and an event
      says so; the command comes next only if the daemon hears of it. */
  lemma BeginMeans(s: State, e: nat, permitted: bool, served: bool, heard: bool)
    requires Enabled(s, Begin(e, permitted, served, heard))
    ensures var s', id := Next(s, Begin(e, permitted, served, heard)), s.execs[e].runId;
            && s'.server == (if permitted && served then s.server[id := Runs.Running] else s.server)
            && s'.events == (if permitted && served then s.events[s.now := Copy(id, Runs.Running, s.now, Some(s.now))] else s.events)
            && (AtStage(s', e, Going) <==> permitted && served && heard) && (AtStage(s', e, Ending) <==> !(permitted && served && heard))
            && s'.execs[e].servedAt == if permitted && served then Some(s.now) else s.execs[e].servedAt
  {
  }

  /** The terminal update: served, the run is Completed or Failed, and an event says so. */
  lemma EndMeans(s: State, e: nat, completed: bool, served: bool)
    requires Enabled(s, End(e, completed, served))
    ensures var s', id := Next(s, End(e, completed, served)), s.execs[e].runId;
            var state := if completed then Runs.Completed else Runs.Failed;
            && s'.server == (if served then s.server[id := state] else s.server)
            && s'.events == (if served then s.events[s.now := Copy(id, state, s.now, Some(s.now))] else s.events)
            && AtStage(s', e, Closing) && s'.handled == s.handled
  {
  }

  /** What is on its way can be lost there, and nothing else with it. */
  lemma DropMeans(s: State, c: nat)
    requires Enabled(s, Drop(c))
    ensures Next(s, Drop(c)) == s.(held := s.held - {c}, now := s.now + 1)
  {
  }

  // ---- what every reachable state satisfies ----

  /** The copies still about: on their way, or in a queued event that can be offered again. */
  ghost predicate About(s: State, c: Copy) {
    c in s.events.Values || exists k :: k in s.held && s.held[k].copy == c
  }

  predicate Timed(now: nat, x: Exec) {
    && x.copiedAt < x.reservedAt < now
    && (x.servedAt.Some? ==> x.reservedAt < x.servedAt.value < now)
    && Told(x)
  }

  /** Only an execution whose Running update was served and heard gets to its command. */
  predicate Told(x: Exec) {
    (x.ran || x.stage.Going? ==> x.servedAt.Some?) && (x.stage.Reserved? ==> x.servedAt.None?) && (x.ran ==> Spent(x))
  }

  ghost predicate Clocked(s: State) {
    && (forall c :: About(s, c) ==> c.takenAt < s.now)
    && (forall e :: 0 <= e < |s.execs| ==> Timed(s.now, s.execs[e]))
  }

  ghost predicate ReopenedBetween(s: State, id: string, from: nat, to: nat) {
    exists r :: from < r <= to && (id, r) in s.reopenings
  }

  /** From an execution's Running update on, the server, copies still about and
      copies used can be startable only if somebody else reopened the run in between. */
  ghost predicate ServerSettled(s: State, id: string, t: nat) {
    id in s.server && (Startable(s.server[id]) ==> ReopenedBetween(s, id, t, s.now))
  }

  ghost predicate CopySettled(s: State, id: string, t: nat, c: Copy) {
    c.runId == id && Startable(c.state) && c.takenAt >= t ==> ReopenedBetween(s, id, t, c.takenAt)
  }

  ghost predicate ExecSettled(s: State, id: string, t: nat, b: Exec) {
    b.runId == id && b.copiedAt >= t ==> ReopenedBetween(s, id, t, b.copiedAt)
  }

  ghost predicate Settled(s: State, id: string, t: nat) {
    && ServerSettled(s, id, t)
    && (forall c :: About(s, c) ==> CopySettled(s, id, t, c))
    && (forall b :: 0 <= b < |s.execs| ==> ExecSettled(s, id, t, s.execs[b]))
  }

  ghost predicate AllSettled(s: State) {
    forall e :: 0 <= e < |s.execs| && s.execs[e].servedAt.Some? ==> Settled(s, s.execs[e].runId, s.execs[e].servedAt.value)
  }

  /** Who executes a run holds it. */
  ghost predicate Holding(s: State, x: Exec) {
    x.stage.Over? || (x.worker in At(s, x.daemon).workers && At(s, x.daemon).workers[x.worker] == x.runId)
  }

  /** Within one daemon, executions of one run, or by one worker, follow each other; only the last may be under way. */
  ghost predicate Followed(a: Exec, b: Exec) {
    a.daemon == b.daemon ==>
    && (a.runId == b.runId ==> a.stage.Over? && (a.servedAt.Some? ==> a.servedAt.value < b.reservedAt))
    && (a.worker == b.worker ==> a.stage.Over?)
  }

  ghost predicate OneAfterAnother(s: State) {
    && (forall d: nat :: Supervisor.OneExecutorEach(At(s, d)))
    && (forall e :: 0 <= e < |s.execs| ==> Holding(s, s.execs[e]))
    && (forall a, b :: 0 <= a < b < |s.execs| ==> Followed(s.execs[a], s.execs[b]))
  }

  /** Whoever holds a run executes it. */
  ghost predicate Staffed(s: State) {
    forall d: nat, w: nat :: w in At(s, d).workers ==> Busy(s, d, w)
  }

  ghost predicate Busy(s: State, d: nat, w: nat) {
    exists e :: 0 <= e < |s.execs| && !s.execs[e].stage.Over? && s.execs[e].daemon == d && s.execs[e].worker == w &&
                w in At(s, d).workers && s.execs[e].runId == At(s, d).workers[w]
  }

  /** New now, and showing the run as it is on the server now, or the first copy of a message. */
  predicate BroughtAbout(s: State, step: Step, s': State, c: Copy) {
    && c.takenAt == s.now
    && ((c.runId in s'.server && s'.server[c.runId] == c.state) || (step == Message(c.runId) && Enabled(s, step)))
  }

  lemma EventsEvolve(s: State, step: Step, n: nat)
    requires n in Next(s, step).events
    ensures (n in s.events && Next(s, step).events[n] == s.events[n]) || BroughtAbout(s, step, Next(s, step), Next(s, step).events[n])
  {
  }

  lemma HeldEvolves(s: State, step: Step, k: nat)
    requires k in Next(s, step).held
    ensures var copy := Next(s, step).held[k].copy;
            (k in s.held && copy == s.held[k].copy) || copy in s.events.Values || BroughtAbout(s, step, Next(s, step), copy)
  {
  }

  /** All copies that a step adds are of that kind. */
  lemma NewCopies(s: State, step: Step, c: Copy)
    requires About(Next(s, step), c) && !About(s, c)
    ensures BroughtAbout(s, step, Next(s, step), c)
  {
    var s' := Next(s, step);
    if c in s'.events.Values {
      var n :| n in s'.events && s'.events[n] == c;
      EventsEvolve(s, step, n);
    } else {
      var k :| k in s'.held && s'.held[k].copy == c;
      HeldEvolves(s, step, k);
    }
  }

  /** What no step changes about an execution. */
  ghost predicate SameExec(x: Exec, x': Exec) {
    && x'.daemon == x.daemon && x'.worker == x.worker && x'.runId == x.runId && x'.copiedAt == x.copiedAt && x'.reservedAt == x.reservedAt
    && (x.stage.Over? ==> x' == x)
  }

  predicate OfExec(step: Step, e: nat) {
    (step.Begin? || step.Command? || step.End? || step.Release?) && step.exec == e
  }

  /** What a step makes of one execution. */
  function ExecAfter(s: State, step: Step, e: nat): Exec
    requires e < |s.execs|
  {
    var x := s.execs[e];
    if !Enabled(s, step) then x
    else if OfExec(step, e) then Staged(x, step, s.now)
    else if step == Crash(x.daemon) then x.(stage := Over)
    else x
  }

  lemma CallsOnExecs(s: State, step: Step, e: nat)
    requires e < |s.execs| && (step.Begin? || step.Command? || step.End? || step.Release?)
    ensures e < |Next(s, step).execs| && Next(s, step).execs[e] == ExecAfter(s, step, e)
  {
  }

  lemma OthersOnExecs(s: State, step: Step, e: nat)
    requires e < |s.execs| && !(step.Begin? || step.Command? || step.End? || step.Release?)
    ensures e < |Next(s, step).execs| && Next(s, step).execs[e] == ExecAfter(s, step, e)
  {
  }

  lemma ExecsEvolve(s: State, step: Step, e: nat)
    requires e < |s.execs|
    ensures e < |Next(s, step).execs| && Next(s, step).execs[e] == ExecAfter(s, step, e)
  {
    if step.Begin? || step.Command? || step.End? || step.Release? {
      CallsOnExecs(s, step, e);
    } else {
      OthersOnExecs(s, step, e);
    }
  }

  lemma ExecAfterMeans(s: State, step: Step, e: nat)
    requires e < |s.execs|
    ensures var x, x' := s.execs[e], ExecAfter(s, step, e);
            && SameExec(x, x')
            && (x'.stage.Over? ==> x.stage.Over? || (step.Release? && step.exec == e && Enabled(s, step)) || step == Crash(x.daemon))
            && (Told(x) ==> Told(x'))
            && (x'.servedAt == x.servedAt ||
                (step.Begin? && step == Begin(e, true, true, step.heard) && Enabled(s, step) && x'.servedAt == Some(s.now)))
  {
  }

  lemma ExecStays(s: State, step: Step, e: nat)
    requires e < |s.execs|
    ensures e < |Next(s, step).execs| && SameExec(s.execs[e], Next(s, step).execs[e])
    ensures Next(s, step).execs[e].stage.Over? ==>
              s.execs[e].stage.Over? || (step.Release? && step.exec == e && Enabled(s, step)) || step == Crash(s.execs[e].daemon)
  {
    ExecsEvolve(s, step, e);
    ExecAfterMeans(s, step, e);
  }

  lemma TimedStays(s: State, step: Step, e: nat)
    requires e < |s.execs| && Timed(s.now, s.execs[e])
    ensures e < |Next(s, step).execs| && Timed(s.now + 1, Next(s, step).execs[e])
  {
    ExecsEvolve(s, step, e);
    ExecAfterMeans(s, step, e);
  }

  lemma NewExec(s: State, step: Step)
    requires |Next(s, step).execs| > |s.execs|
    ensures step.Reach? && Enabled(s, step) && |Next(s, step).execs| == |s.execs| + 1
    ensures var d, c := s.held[step.copy].daemon, s.held[step.copy].copy;
            Next(s, step).execs == s.execs + [Exec(d, step.worker, c.runId, c.takenAt, c.event, s.now, None, false, Reserved)]
  {
  }

  lemma StartsOnlyWhatIsAbout(s: State, step: Step)
    requires step.Reach? && Enabled(s, step) && |Next(s, step).execs| > |s.execs|
    ensures About(s, s.held[step.copy].copy) && ShouldStart(s.held[step.copy].copy)
  {
  }

  lemma StepKeepsClocked(s: State, step: Step)
    requires Clocked(s)
    ensures Clocked(Next(s, step))
  {
    var s' := Next(s, step);
    forall c | About(s', c) ensures c.takenAt < s'.now {
      if !About(s, c) {
        NewCopies(s, step, c);
      }
    }
    forall e | 0 <= e < |s'.execs| ensures Timed(s'.now, s'.execs[e]) {
      if e < |s.execs| {
        assert Timed(s.now, s.execs[e]);
        TimedStays(s, step, e);
      } else {
        NewExec(s, step);
        assert About(s, s.held[step.copy].copy);
      }
    }
  }

  lemma ReopeningsStay(s: State, step: Step, id: string, from: nat, to: nat)
    requires ReopenedBetween(s, id, from, to)
    ensures ReopenedBetween(Next(s, step), id, from, to)
  {
    var r :| from < r <= to && (id, r) in s.reopenings;
    assert (id, r) in Next(s, step).reopenings;
  }

  lemma ServerStaysSettled(s: State, step: Step, id: string, t: nat)
    requires ServerSettled(s, id, t) && t < s.now
    ensures ServerSettled(Next(s, step), id, t)
    ensures Startable(Next(s, step).server[id]) ==> ReopenedBetween(Next(s, step), id, t, s.now)
  {
    var s' := Next(s, step);
    if Startable(s'.server[id]) {
      if Startable(s.server[id]) {
        ReopeningsStay(s, step, id, t, s.now);
      } else {
        assert (id, s.now) in s'.reopenings;
      }
    }
  }

  lemma StaysSettled(s: State, step: Step, id: string, t: nat)
    requires Clocked(s) && Settled(s, id, t) && t < s.now
    ensures Settled(Next(s, step), id, t)
  {
    var s' := Next(s, step);
    ServerStaysSettled(s, step, id, t);
    forall c | About(s', c) && c.runId == id && Startable(c.state) && c.takenAt >= t ensures ReopenedBetween(s', id, t, c.takenAt) {
      if About(s, c) {
        assert CopySettled(s, id, t, c);
        ReopeningsStay(s, step, id, t, c.takenAt);
      } else {
        NewCopies(s, step, c);
      }
    }
    forall b | 0 <= b < |s'.execs| && s'.execs[b].runId == id && s'.execs[b].copiedAt >= t
      ensures ReopenedBetween(s', id, t, s'.execs[b].copiedAt)
    {
      if b < |s.execs| {
        assert ExecSettled(s, id, t, s.execs[b]);
        ExecStays(s, step, b);
      } else {
        NewExec(s, step);
        StartsOnlyWhatIsAbout(s, step);
        assert CopySettled(s, id, t, s.held[step.copy].copy);
      }
      ReopeningsStay(s, step, id, t, s'.execs[b].copiedAt);
    }
  }

  /** At the moment a Running update is served, everything else is older. */
  lemma SettledAtOnce(s: State, e: nat, heard: bool)
    requires Clocked(s) && AtStage(s, e, Reserved)
    ensures Settled(Next(s, Begin(e, true, true, heard)), s.execs[e].runId, s.now)
  {
    var step := Begin(e, true, true, heard);
    var s', id := Next(s, step), s.execs[e].runId;
    forall c | About(s', c) ensures CopySettled(s', id, s.now, c) {
      if !About(s, c) {
        NewCopies(s, step, c);
      }
    }
    forall b | 0 <= b < |s'.execs| ensures ExecSettled(s', id, s.now, s'.execs[b]) {
      assert Timed(s.now, s.execs[b]);
    }
  }

  lemma ServedAtBegin(s: State, step: Step, e: nat)
    requires e < |Next(s, step).execs| && Next(s, step).execs[e].servedAt.Some?
    requires e < |s.execs| ==> s.execs[e].servedAt != Next(s, step).execs[e].servedAt
    ensures step.Begin? && step == Begin(e, true, true, step.heard) && Enabled(s, step)
    ensures Next(s, step).execs[e].runId == s.execs[e].runId && Next(s, step).execs[e].servedAt == Some(s.now)
  {
    if e < |s.execs| {
      ExecsEvolve(s, step, e);
      ExecAfterMeans(s, step, e);
    } else {
      NewExec(s, step);
    }
  }

  lemma StepKeepsSettled(s: State, step: Step)
    requires Clocked(s) && AllSettled(s)
    ensures AllSettled(Next(s, step))
  {
    var s' := Next(s, step);
    forall e | 0 <= e < |s'.execs| && s'.execs[e].servedAt.Some? ensures Settled(s', s'.execs[e].runId, s'.execs[e].servedAt.value) {
      if e < |s.execs| && s.execs[e].servedAt == s'.execs[e].servedAt {
        ExecStays(s, step, e);
        assert Timed(s.now, s.execs[e]);
        StaysSettled(s, step, s.execs[e].runId, s.execs[e].servedAt.value);
      } else {
        ServedAtBegin(s, step, e);
        SettledAtOnce(s, e, step.heard);
      }
    }
  }

  lemma ReachedMeans(s: State, w: nat, c: nat)
    requires Enabled(s, Reach(w, c))
    ensures var s', d, copy := Next(s, Reach(w, c)), s.held[c].daemon, s.held[c].copy;
            if s'.execs == s.execs then s'.daemons == s.daemons
            else copy.runId !in At(s, d).running &&
                 s'.daemons == s.daemons[d := Supervisor.Apply(At(s, d), Supervisor.Reserve(w, copy.runId))] &&
                 s'.execs == s.execs + [Exec(d, w, copy.runId, copy.takenAt, copy.event, s.now, None, false, Reserved)]
  {
  }

  lemma StartKeepsOneAfterAnother(s: State, s': State, x: Exec)
    requires Clocked(s) && OneAfterAnother(s) && x.runId !in At(s, x.daemon).running && x.worker !in At(s, x.daemon).workers
    requires s'.daemons == s.daemons[x.daemon := Supervisor.Apply(At(s, x.daemon), Supervisor.Reserve(x.worker, x.runId))]
    requires s'.execs == s.execs + [x] && x.reservedAt == s.now
    ensures OneAfterAnother(s')
  {
    Supervisor.StepKeepsOneExecutor(At(s, x.daemon), Supervisor.Reserve(x.worker, x.runId));
    forall d: nat ensures Supervisor.OneExecutorEach(At(s', d)) {
      assert d != x.daemon ==> At(s', d) == At(s, d);
    }
    forall e | 0 <= e < |s'.execs| ensures Holding(s', s'.execs[e]) {
      if e < |s.execs| {
        assert Holding(s, s.execs[e]);
      }
    }
    assert !Supervisor.Executed(At(s, x.daemon), x.runId);
    forall a, b | 0 <= a < b < |s'.execs| ensures Followed(s'.execs[a], s'.execs[b]) {
      assert Timed(s.now, s.execs[a]) && Holding(s, s.execs[a]);
      if b < |s.execs| {
        assert Followed(s.execs[a], s.execs[b]);
      }
    }
  }

  lemma ReleasedIsOver(s: State, e: nat, receipt: bool)
    requires Enabled(s, Release(e, receipt))
    ensures var s', x := Next(s, Release(e, receipt)), s.execs[e];
            && s'.execs == s.execs[e := x.(stage := Over)]
            && s'.daemons == s.daemons[x.daemon := Supervisor.Apply(At(s, x.daemon), Supervisor.Finish(x.worker))]
  {
  }

  lemma OverKeepsOneAfterAnother(s: State, s': State, e: nat)
    requires OneAfterAnother(s) && e < |s.execs| && s.execs[e].worker in At(s, s.execs[e].daemon).workers && !s.execs[e].stage.Over?
    requires s'.execs == s.execs[e := s.execs[e].(stage := Over)]
    requires var x := s.execs[e];
             s'.daemons == s.daemons[x.daemon := Supervisor.Apply(At(s, x.daemon), Supervisor.Finish(x.worker))]
    ensures OneAfterAnother(s')
  {
    var x := s.execs[e];
    Supervisor.StepKeepsOneExecutor(At(s, x.daemon), Supervisor.Finish(x.worker));
    forall d: nat ensures Supervisor.OneExecutorEach(At(s', d)) {
      assert d != x.daemon ==> At(s', d) == At(s, d);
    }
    forall a | 0 <= a < |s.execs| ensures Holding(s', s'.execs[a]) {
      assert Holding(s, s.execs[a]);
      if a != e && !s.execs[a].stage.Over? {
        var first, second := if a < e then a else e, if a < e then e else a;
        assert Followed(s.execs[first], s.execs[second]);
      }
    }
    forall a, b | 0 <= a < b < |s.execs| ensures Followed(s'.execs[a], s'.execs[b]) {
      assert Followed(s.execs[a], s.execs[b]);
    }
  }

  lemma CrashKeepsOneAfterAnother(s: State, d: nat)
    requires OneAfterAnother(s)
    ensures OneAfterAnother(Crashed(s, d))
  {
    var s' := Crashed(s, d);
    forall c: nat ensures Supervisor.OneExecutorEach(At(s', c)) {
      assert c != d ==> At(s', c) == At(s, c);
    }
    forall a | 0 <= a < |s.execs| ensures Holding(s', s'.execs[a]) {
      assert Holding(s, s.execs[a]);
    }
    forall a, b | 0 <= a < b < |s.execs| ensures Followed(s'.execs[a], s'.execs[b]) {
      assert Followed(s.execs[a], s.execs[b]);
    }
  }

  /** Only the clock, or what is neither a table nor an execution, differs. */
  lemma SameOneAfterAnother(s: State, s': State)
    requires OneAfterAnother(s) && s'.daemons == s.daemons && s'.execs == s.execs
    ensures OneAfterAnother(s')
  {
    forall d: nat ensures At(s', d) == At(s, d) {
    }
    forall e | 0 <= e < |s.execs| ensures Holding(s', s'.execs[e]) {
      assert Holding(s, s.execs[e]);
    }
  }

  /** The steps between being reserved and being released. */
  lemma StageKeepsOneAfterAnother(s: State, step: Step)
    requires OneAfterAnother(s) && Enabled(s, step) && (step.Begin? || step.Command? || step.End?)
    ensures OneAfterAnother(Next(s, step))
  {
    var s', e := Next(s, step), step.exec;
    var x, x' := s.execs[e], s'.execs[e];
    assert s'.daemons == s.daemons && s'.execs == s.execs[e := x'];
    forall d: nat ensures At(s', d) == At(s, d) {
    }
    assert x'.daemon == x.daemon && x'.worker == x.worker && x'.runId == x.runId && x'.reservedAt == x.reservedAt && !x.stage.Over?;
    forall a | 0 <= a < |s.execs| ensures Holding(s', s'.execs[a]) {
      assert Holding(s, s.execs[a]);
    }
    forall a, b | 0 <= a < b < |s.execs| ensures Followed(s'.execs[a], s'.execs[b]) {
      assert Followed(s.execs[a], s.execs[b]);
    }
  }

  lemma StepKeepsOneAfterAnother(s: State, step: Step)
    requires Clocked(s) && OneAfterAnother(s)
    ensures OneAfterAnother(Next(s, step))
  {
    if Enabled(s, step) {
      match step
      case Reach(w, c) =>
        ReachedMeans(s, w, c);
        if Next(s, step).execs == s.execs {
          SameOneAfterAnother(s, Next(s, step));
        } else {
          StartKeepsOneAfterAnother(s, Next(s, step), Next(s, step).execs[|s.execs|]);
        }
      case Begin(_, _, _, _) => StageKeepsOneAfterAnother(s, step);
      case Command(_, _) => StageKeepsOneAfterAnother(s, step);
      case End(_, _, _) => StageKeepsOneAfterAnother(s, step);
      case Release(e, receipt) =>
        ReleasedIsOver(s, e, receipt);
        OverKeepsOneAfterAnother(s, Next(s, step), e);
      case Crash(d) =>
        CrashKeepsOneAfterAnother(s, d);
        SameOneAfterAnother(Crashed(s, d), Next(s, step));
      case _ => SameOneAfterAnother(s, Next(s, step));
    } else {
      SameOneAfterAnother(s, Next(s, step));
    }
  }

  lemma TablesStay(s: State, step: Step)
    requires Enabled(s, step) && !step.Reach? && !step.Release? && !step.Crash?
    ensures Next(s, step).daemons == s.daemons
  {
  }

  lemma WorkersEvolve(s: State, step: Step, d: nat, w: nat)
    requires Enabled(s, step) && w in At(Next(s, step), d).workers
    ensures if w in At(s, d).workers
            then At(Next(s, step), d).workers[w] == At(s, d).workers[w] && step != Crash(d) &&
                 (step.Release? ==> w != s.execs[step.exec].worker || d != s.execs[step.exec].daemon)
            else step.Reach? && |Next(s, step).execs| > |s.execs| && step.worker == w && s.held[step.copy].daemon == d &&
                 At(Next(s, step), d).workers[w] == s.held[step.copy].copy.runId
  {
    match step
    case Reach(x, c) => ReachedMeans(s, x, c);
    case Release(e, receipt) => ReleasedIsOver(s, e, receipt);
    case Crash(_) =>
    case _ => TablesStay(s, step);
  }

  lemma StepKeepsStaffed(s: State, step: Step)
    requires Staffed(s) && Enabled(s, step)
    ensures Staffed(Next(s, step))
  {
    var s' := Next(s, step);
    forall d: nat, w: nat | w in At(s', d).workers ensures Busy(s', d, w) {
      WorkersEvolve(s, step, d, w);
      if w in At(s, d).workers {
        assert Busy(s, d, w);
        var e :| 0 <= e < |s.execs| && !s.execs[e].stage.Over? && s.execs[e].daemon == d && s.execs[e].worker == w &&
                 s.execs[e].runId == At(s, d).workers[w];
        ExecStays(s, step, e);
        assert !s'.execs[e].stage.Over?;
      } else {
        NewExec(s, step);
        assert s'.execs[|s.execs|].worker == w;
      }
    }
  }

  lemma SameStaffed(s: State, s': State)
    requires Staffed(s) && s'.daemons == s.daemons && s'.execs == s.execs
    ensures Staffed(s')
  {
    forall d: nat, w: nat | w in At(s', d).workers ensures Busy(s', d, w) {
      assert Busy(s, d, w);
    }
  }

  lemma {:induction false} Invariant(h: History<Step>)
    ensures Clocked(After(h)) && AllSettled(After(h)) && OneAfterAnother(After(h)) && Staffed(After(h))
  {
    match h
    case Empty =>
    case Then(before, step) =>
      Invariant(before);
      var s := After(before);
      StepKeepsClocked(s, step);
      StepKeepsSettled(s, step);
      StepKeepsOneAfterAnother(s, step);
      if Enabled(s, step) {
        StepKeepsStaffed(s, step);
      } else {
        SameStaffed(s, After(h));
      }
  }

  // ---- when a command is run a second time ----

  predicate RanFor(s: State, e: nat, id: string) { e < |s.execs| && s.execs[e].runId == id && s.execs[e].ran }

  ghost predicate RanTwice(s: State, id: string) {
    exists a: nat, b: nat :: a != b && RanFor(s, a, id) && RanFor(s, b, id)
  }

  /** b was reserved after the Running update of a was served, with a copy taken before that. */
  ghost predicate OldCopy(s: State, a: nat, b: nat)
    requires a < |s.execs| && b < |s.execs|
  {
    s.execs[a].servedAt.Some? && s.execs[b].copiedAt < s.execs[a].servedAt.value < s.execs[b].reservedAt
  }

  /** Somebody else reopened the run between the Running update of a and the copy that b used. */
  ghost predicate Reopened(s: State, a: nat, b: nat)
    requires a < |s.execs| && b < |s.execs|
  {
    s.execs[a].servedAt.Some? && ReopenedBetween(s, s.execs[a].runId, s.execs[a].servedAt.value, s.execs[b].copiedAt)
  }

  /** Different daemons, each of which reserved the run before the other's Running update was served. */
  ghost predicate Overlap(s: State, a: nat, b: nat)
    requires a < |s.execs| && b < |s.execs|
  {
    var x, y := s.execs[a], s.execs[b];
    && x.daemon != y.daemon && x.servedAt.Some? && y.servedAt.Some?
    && x.reservedAt <= y.servedAt.value && y.reservedAt <= x.servedAt.value
  }

  /** What two executions of one run that both ran its command have to do with each other. */
  lemma TwoRuns(s: State, a: nat, b: nat, id: string)
    requires Clocked(s) && AllSettled(s) && OneAfterAnother(s) && a != b && RanFor(s, a, id) && RanFor(s, b, id)
    ensures OldCopy(s, a, b) || Reopened(s, a, b) || OldCopy(s, b, a) || Reopened(s, b, a) || Overlap(s, a, b)
  {
    var first, second := if a < b then a else b, if a < b then b else a;
    assert Timed(s.now, s.execs[a]) && Timed(s.now, s.execs[b]) && Followed(s.execs[first], s.execs[second]);
    assert ExecSettled(s, id, s.execs[a].servedAt.value, s.execs[b]);
    assert ExecSettled(s, id, s.execs[b].servedAt.value, s.execs[a]);
  }

  /** Over every history of any number of daemons: a run's command is run twice
      exactly if two executions ran it that different daemons had reserved before
      either was known to be Running, or of which one had been reserved with a copy
      from before the other's Running update, though after that was served, or with
      a copy from after a reopening by somebody else. */
  lemma RunsTwiceIff(h: History<Step>, id: string)
    ensures RanTwice(After(h), id) <==>
            exists a: nat, b: nat :: RanFor(After(h), a, id) && RanFor(After(h), b, id) &&
                                     (OldCopy(After(h), a, b) || Reopened(After(h), a, b) || Overlap(After(h), a, b))
  {
    Invariant(h);
    var s := After(h);
    if a: nat, b: nat :| a != b && RanFor(s, a, id) && RanFor(s, b, id) {
      TwoRuns(s, a, b, id);
    }
    if a: nat, b: nat :| RanFor(s, a, id) && RanFor(s, b, id) && (OldCopy(s, a, b) || Reopened(s, a, b) || Overlap(s, a, b)) {
      assert Timed(s.now, s.execs[b]);
      assert a != b;
    }
  }

  ghost predicate NeverReopened(s: State, id: string) {
    forall r :: (id, r) !in s.reopenings
  }

  /** With only daemons moving a run, old copies and overlapping daemons are the reasons. */
  lemma OldCopiesAreTheReason(h: History<Step>, id: string)
    requires NeverReopened(After(h), id)
    ensures RanTwice(After(h), id) <==>
            exists a: nat, b: nat :: RanFor(After(h), a, id) && RanFor(After(h), b, id) &&
                                     (OldCopy(After(h), a, b) || Overlap(After(h), a, b))
  {
    RunsTwiceIff(h, id);
  }

  /** Nothing but old copies within one daemon. */
  lemma OneDaemonRunsTwiceIff(h: History<Step>, id: string, d: nat)
    requires NeverReopened(After(h), id)
    requires forall e: nat :: RanFor(After(h), e, id) ==> After(h).execs[e].daemon == d
    ensures RanTwice(After(h), id) <==>
            exists a: nat, b: nat :: RanFor(After(h), a, id) && RanFor(After(h), b, id) && OldCopy(After(h), a, b)
  {
    OldCopiesAreTheReason(h, id);
  }

  // ---- when it can be run once more ----

  ghost predicate Idle(s: State, id: string) {
    forall e :: 0 <= e < |s.execs| && s.execs[e].runId == id ==> s.execs[e].stage.Over?
  }

  /** The command has been run or given up. */
  predicate Spent(x: Exec) { x.stage.Ending? || x.stage.Closing? || x.stage.Over? }

  /** No execution of the run has its command still ahead. */
  ghost predicate AllSpent(s: State, id: string) {
    forall e :: 0 <= e < |s.execs| && s.execs[e].runId == id ==> Spent(s.execs[e])
  }

  /** A startable copy is still about, one could be taken, or the run is yet to come. */
  ghost predicate Restartable(s: State, id: string) {
    && !Blank(id)
    && (|| Unheard(s, id)
        || (id in s.server && Startable(s.server[id]))
        || exists c :: About(s, c) && c.runId == id && Startable(c.state))
  }

  /** Nobody else moves the run to a startable state. */
  predicate LeftAlone(more: History<Step>, id: string) {
    match more
    case Empty => true
    case Then(before, step) => LeftAlone(before, id) && !(step.UpdateByOther? && step.runId == id && Startable(step.state))
  }

  ghost predicate RunsAgain(h: History<Step>, more: History<Step>, id: string) {
    exists e: nat :: RanFor(After(Concat(h, more)), e, id) && !RanFor(After(h), e, id)
  }

  lemma HeardStays(s: State, step: Step, id: string)
    requires !Unheard(s, id)
    ensures !Unheard(Next(s, step), id)
  {
  }

  /** The daemons move a run only to states that are not startable. */
  lemma CallsMakeUnstartable(s: State, step: Step, id: string)
    requires step.Begin? || step.Command? || step.End? || step.Release?
    ensures id in Next(s, step).server && Startable(Next(s, step).server[id]) ==> id in s.server && Next(s, step).server[id] == s.server[id]
  {
  }

  lemma OthersMakeStartable(s: State, step: Step, id: string)
    requires !(step.Begin? || step.Command? || step.End? || step.Release?)
    ensures id in Next(s, step).server && Startable(Next(s, step).server[id]) ==>
              (id in s.server && Next(s, step).server[id] == s.server[id]) || (step == Assign(id) && Unheard(s, id)) ||
              (step.UpdateByOther? && step.runId == id && Startable(step.state))
  {
  }

  lemma MadeStartable(s: State, step: Step, id: string)
    requires id in Next(s, step).server && Startable(Next(s, step).server[id])
    ensures || (id in s.server && Next(s, step).server[id] == s.server[id])
            || (step == Assign(id) && Unheard(s, id))
            || (step.UpdateByOther? && step.runId == id && Startable(step.state))
  {
    if step.Begin? || step.Command? || step.End? || step.Release? {
      CallsMakeUnstartable(s, step, id);
    } else {
      OthersMakeStartable(s, step, id);
    }
  }

  lemma StepKeepsNoCopy(s: State, step: Step, id: string)
    requires !Restartable(s, id) && !(step.UpdateByOther? && step.runId == id && Startable(step.state))
    ensures !Restartable(Next(s, step), id)
  {
    if !Blank(id) {
      HeardStays(s, step, id);
      if id in Next(s, step).server && Startable(Next(s, step).server[id]) {
        MadeStartable(s, step, id);
      }
      forall c | About(Next(s, step), c) && c.runId == id ensures !Startable(c.state) {
        if !About(s, c) {
          NewCopies(s, step, c);
        }
      }
    }
  }

  lemma SpentStays(s: State, step: Step, e: nat)
    requires e < |s.execs| && Spent(s.execs[e])
    ensures Spent(ExecAfter(s, step, e)) && ExecAfter(s, step, e).ran == s.execs[e].ran
  {
  }

  lemma StaysSpent(s: State, s': State, id: string)
    requires AllSpent(s, id) && |s'.execs| >= |s.execs|
    requires forall e :: 0 <= e < |s.execs| ==> s'.execs[e].runId == s.execs[e].runId
    requires forall e :: 0 <= e < |s.execs| && s.execs[e].runId == id ==> Spent(s'.execs[e]) && s'.execs[e].ran == s.execs[e].ran
    requires forall e :: |s.execs| <= e < |s'.execs| ==> s'.execs[e].runId != id
    ensures AllSpent(s', id)
    ensures forall e: nat :: RanFor(s', e, id) <==> RanFor(s, e, id)
  {
  }

  lemma StepKeepsSpent(s: State, step: Step, id: string)
    requires AllSpent(s, id) && !Restartable(s, id)
    ensures AllSpent(Next(s, step), id)
    ensures forall e: nat :: RanFor(Next(s, step), e, id) <==> RanFor(s, e, id)
  {
    var s' := Next(s, step);
    forall e | 0 <= e < |s.execs|
      ensures e < |s'.execs| && s'.execs[e].runId == s.execs[e].runId
      ensures s.execs[e].runId == id ==> Spent(s'.execs[e]) && s'.execs[e].ran == s.execs[e].ran
    {
      ExecsEvolve(s, step, e);
      ExecAfterMeans(s, step, e);
      if s.execs[e].runId == id {
        SpentStays(s, step, e);
      }
    }
    if |s'.execs| > |s.execs| {
      NewExec(s, step);
      StartsOnlyWhatIsAbout(s, step);
    }
    StaysSpent(s, s', id);
  }

  lemma {:induction false} StaysQuiet(h: History<Step>, more: History<Step>, id: string)
    requires AllSpent(After(h), id) && !Restartable(After(h), id) && LeftAlone(more, id)
    ensures AllSpent(After(Concat(h, more)), id) && !Restartable(After(Concat(h, more)), id) && !RunsAgain(h, more, id)
  {
    match more
    case Empty =>
    case Then(before, step) =>
      StaysQuiet(h, before, id);
      StepKeepsNoCopy(After(Concat(h, before)), step, id);
      StepKeepsSpent(After(Concat(h, before)), step, id);
  }

  /** An execution with its command ahead can get to it. */
  lemma CommandReached(h: History<Step>, e: nat, id: string) returns (more: History<Step>)
    requires e < |After(h).execs| && After(h).execs[e].runId == id && !Spent(After(h).execs[e])
    ensures LeftAlone(more, id) && RanFor(After(Concat(h, more)), e, id)
  {
    more := Empty;
    assert Concat(h, more) == h;
    if AtStage(After(h), e, Reserved) {
      more := Then(more, Begin(e, true, true, true));
      assert Concat(h, more) == Then(h, more.last) && LeftAlone(Empty, id);
    }
    assert LeftAlone(more, id) && AtStage(After(Concat(h, more)), e, Going) && After(Concat(h, more)).execs[e].runId == id;
    more := Then(more, Command(e, true));
  }

  /** What finishing an execution leaves alone. */
  lemma Finished(h: History<Step>, e: nat, id: string) returns (more: History<Step>)
    requires AtStage(After(h), e, Ending) || AtStage(After(h), e, Closing)
    requires var x := After(h).execs[e]; x.worker in At(After(h), x.daemon).workers
    ensures var s, s', x := After(h), After(Concat(h, more)), After(h).execs[e];
            && LeftAlone(more, id) && s'.held == s.held && |s'.execs| == |s.execs|
            && At(s', x.daemon) == Supervisor.Apply(At(s, x.daemon), Supervisor.Finish(x.worker))
  {
    var s, x := After(h), After(h).execs[e];
    more := Empty;
    assert Concat(h, more) == h;
    if AtStage(s, e, Ending) {
      more := Then(more, End(e, false, false));
    }
    var s1 := After(Concat(h, more));
    assert LeftAlone(more, id) && AtStage(s1, e, Closing) && s1.daemons == s.daemons && s1.held == s.held && |s1.execs| == |s.execs|;
    assert s1.execs[e].daemon == x.daemon && s1.execs[e].worker == x.worker;
    more := Then(more, Release(e, false));
  }

  lemma HolderOf(s: State, d: nat, id: string) returns (e: nat)
    requires OneAfterAnother(s) && Staffed(s) && id in At(s, d).running
    ensures e < |s.execs| && !s.execs[e].stage.Over? && s.execs[e].daemon == d && s.execs[e].runId == id
    ensures s.execs[e].worker in At(s, d).workers && At(s, d).workers[s.execs[e].worker] == id
  {
    assert Supervisor.OneExecutorEach(At(s, d)) && Supervisor.Executed(At(s, d), id);
    var w :| w in At(s, d).workers && At(s, d).workers[w] == id;
    assert Busy(s, d, w);
    e :| e < |s.execs| && !s.execs[e].stage.Over? && s.execs[e].daemon == d && s.execs[e].worker == w && s.execs[e].runId == id;
  }

  /** The daemon that a copy is on its way to can get free for it. */
  lemma DaemonFree(h: History<Step>, c: nat, id: string) returns (more: History<Step>)
    requires OnItsWay(After(h), c, id) && AllSpent(After(h), id)
    ensures LeftAlone(more, id) && OnItsWay(After(Concat(h, more)), c, id) && |After(Concat(h, more)).execs| == |After(h).execs|
    ensures var s' := After(Concat(h, more)); id !in At(s', s'.held[c].daemon).running
  {
    Invariant(h);
    var s := After(h);
    var d := s.held[c].daemon;
    if id !in At(s, d).running {
      more := Empty;
    } else {
      var e := HolderOf(s, d, id);
      more := Finished(h, e, id);
    }
  }

  /** A startable copy that a daemon free for it gets to is started, and the command can be reached. */
  lemma RunCopy(h: History<Step>, c: nat, id: string) returns (more: History<Step>)
    requires !Blank(id) && OnItsWay(After(h), c, id) && id !in At(After(h), After(h).held[c].daemon).running
    ensures LeftAlone(more, id)
    ensures RanFor(After(Concat(h, more)), |After(h).execs|, id)
  {
    var s := After(h);
    var w := FreeNumber(At(s, s.held[c].daemon).workers.Keys);
    var first := Then(Empty, Reach(w, c));
    assert Concat(h, first) == Then(h, Reach(w, c)) && LeftAlone(Empty, id);
    assert AtStage(After(Concat(h, first)), |s.execs|, Reserved) && After(Concat(h, first)).execs[|s.execs|].runId == id;
    var second := CommandReached(Concat(h, first), |s.execs|, id);
    ConcatTwice(h, first, second, id);
    more := Concat(first, second);
  }

  /** An event is queued whose copy is startable. */
  ghost predicate Queued(s: State, n: nat, id: string) {
    n in s.events && s.events[n].runId == id && Startable(s.events[n].state)
  }

  ghost predicate OnItsWay(s: State, c: nat, id: string) {
    c in s.held && s.held[c].copy.runId == id && Startable(s.held[c].copy.state)
  }

  lemma OfferCopy(h: History<Step>, n: nat, id: string) returns (more: History<Step>)
    requires Queued(After(h), n, id)
    ensures LeftAlone(more, id) && After(Concat(h, more)).execs == After(h).execs && OnItsWay(After(Concat(h, more)), After(h).now, id)
  {
    more := Then(Empty, Offer(0, n));
    assert Concat(h, more) == Then(h, Offer(0, n));
    assert LeftAlone(Empty, id);
  }

  lemma FetchCopy(h: History<Step>, id: string) returns (more: History<Step>)
    requires id in After(h).server && Startable(After(h).server[id])
    ensures LeftAlone(more, id) && After(Concat(h, more)).execs == After(h).execs && OnItsWay(After(Concat(h, more)), After(h).now, id)
  {
    more := Then(Empty, Fetch(0, id));
    assert Concat(h, more) == Then(h, Fetch(0, id));
    assert LeftAlone(Empty, id);
  }

  /** A run or message that is yet to come can come. */
  lemma NewCopy(h: History<Step>, id: string) returns (more: History<Step>)
    requires Unheard(After(h), id)
    ensures LeftAlone(more, id) && After(Concat(h, more)).execs == After(h).execs && Queued(After(Concat(h, more)), After(h).now, id)
  {
    more := Then(Empty, if OfMessage(id) then Message(id) else Assign(id));
    assert Concat(h, more) == Then(h, more.last);
    assert LeftAlone(Empty, id);
  }

  lemma {:induction false} ConcatTwice(h: History<Step>, more: History<Step>, last: History<Step>, id: string)
    ensures Concat(h, Concat(more, last)) == Concat(Concat(h, more), last)
    ensures LeftAlone(Concat(more, last), id) <==> LeftAlone(more, id) && LeftAlone(last, id)
  {
    if last.Then? {
      ConcatTwice(h, more, last.before, id);
    }
  }

  lemma AboutMeans(s: State, id: string, copy: Copy)
    requires About(s, copy) && copy.runId == id && Startable(copy.state)
    ensures (exists n :: Queued(s, n, id)) || (exists c :: OnItsWay(s, c, id))
  {
    if copy in s.events.Values {
      var n :| n in s.events && s.events[n] == copy;
      assert Queued(s, n, id);
    } else {
      var c :| c in s.held && s.held[c].copy == copy;
      assert OnItsWay(s, c, id);
    }
  }

  lemma GetCopy(h: History<Step>, id: string) returns (more: History<Step>, c: nat)
    requires Restartable(After(h), id)
    ensures LeftAlone(more, id) && After(Concat(h, more)).execs == After(h).execs && OnItsWay(After(Concat(h, more)), c, id)
  {
    var s := After(h);
    if c' :| OnItsWay(s, c', id) {
      more, c := Empty, c';
    } else if n :| Queued(s, n, id) {
      c := s.now;
      more := OfferCopy(h, n, id);
    } else if id in s.server && Startable(s.server[id]) {
      c := s.now;
      more := FetchCopy(h, id);
    } else {
      if copy :| About(s, copy) && copy.runId == id && Startable(copy.state) {
        AboutMeans(s, id, copy);
      }
      var first := NewCopy(h, id);
      c := After(Concat(h, first)).now;
      var second := OfferCopy(Concat(h, first), s.now, id);
      ConcatTwice(h, first, second, id);
      more := Concat(first, second);
    }
  }

  lemma SpentIfRan(h: History<Step>, e: nat)
    requires e < |After(h).execs| && After(h).execs[e].ran
    ensures Spent(After(h).execs[e])
  {
    Invariant(h);
    assert Timed(After(h).now, After(h).execs[e]);
  }

  /** A copy about, or to be had, gets the command run. */
  lemma CopyRuns(h: History<Step>, id: string) returns (more: History<Step>)
    requires Restartable(After(h), id) && AllSpent(After(h), id)
    ensures LeftAlone(more, id) && RanFor(After(Concat(h, more)), |After(h).execs|, id)
  {
    var first, c := GetCopy(h, id);
    var second := DaemonFree(Concat(h, first), c, id);
    ConcatTwice(h, first, second, id);
    var third := RunCopy(Concat(h, Concat(first, second)), c, id);
    ConcatTwice(h, Concat(first, second), third, id);
    more := Concat(Concat(first, second), third);
  }

  /** A run's command, of a direct message or not, executed at the moment or not,
      can be run (once more) without anybody else's help exactly if an execution has
      it still ahead, the run is still startable on the server, a startable copy of
      it, however old, is on its way, an event with such a copy is not acknowledged
      yet, or the run is yet to come. */
  lemma CanRunAgainIff(h: History<Step>, id: string)
    ensures (exists more :: LeftAlone(more, id) && RunsAgain(h, more, id)) <==>
            Restartable(After(h), id) || !AllSpent(After(h), id)
  {
    Invariant(h);
    var s := After(h);
    if !AllSpent(s, id) {
      var e: nat :| e < |s.execs| && s.execs[e].runId == id && !Spent(s.execs[e]);
      var more := CommandReached(h, e, id);
      if s.execs[e].ran {
        SpentIfRan(h, e);
      }
      assert RunsAgain(h, more, id);
    } else if Restartable(s, id) {
      var more := CopyRuns(h, id);
      assert RanFor(After(Concat(h, more)), |s.execs|, id) && !RanFor(s, |s.execs|, id);
      assert RunsAgain(h, more, id);
    }
    forall more | LeftAlone(more, id) && !Restartable(s, id) && AllSpent(s, id) ensures !RunsAgain(h, more, id) {
      StaysQuiet(h, more, id);
    }
  }

  // ---- direct messages ----

  ghost predicate MessageUnlisted(s: State, id: string) {
    OfMessage(id) && NeverReopened(s, id) && id in s.server ==> !Startable(s.server[id])
  }

  lemma StepKeepsReopenings(s: State, step: Step)
    ensures s.reopenings <= Next(s, step).reopenings
    ensures step.UpdateByOther? && Startable(step.state) ==> (step.runId, s.now) in Next(s, step).reopenings
  {
  }

  lemma StepKeepsUnlisted(s: State, step: Step, id: string)
    requires MessageUnlisted(s, id)
    ensures MessageUnlisted(Next(s, step), id)
  {
    StepKeepsReopenings(s, step);
    if id in Next(s, step).server && Startable(Next(s, step).server[id]) {
      MadeStartable(s, step, id);
    }
  }

  lemma {:induction false} AlwaysUnlisted(h: History<Step>, id: string)
    ensures MessageUnlisted(After(h), id)
  {
    match h
    case Empty =>
    case Then(before, step) =>
      AlwaysUnlisted(before, id);
      StepKeepsUnlisted(After(before), step, id);
  }

  lemma MessageHasName(id: string)
    requires OfMessage(id)
    ensures !Blank(id)
  {
    assert "direct-"[0] == id[0] && id[0] in id && !IsSpace('d');
  }

  lemma RestartableByCopy(s: State, id: string)
    requires !Blank(id) && !Unheard(s, id) && (id in s.server ==> !Startable(s.server[id]))
    ensures Restartable(s, id) <==> (exists n :: Queued(s, n, id)) || (exists c :: OnItsWay(s, c, id))
  {
    if n :| Queued(s, n, id) {
      assert About(s, s.events[n]);
    } else if c :| OnItsWay(s, c, id) {
      assert About(s, s.held[c].copy);
    } else if copy :| About(s, copy) && copy.runId == id && Startable(copy.state) {
      AboutMeans(s, id, copy);
    }
  }

  /** A direct message that was sent has its command run (again) exactly as long
      as its event can still be offered, not being acknowledged, or was offered
      and is on its way, or an execution has it still ahead; no poll ever starts it. */
  lemma MessageRunsAgainIff(h: History<Step>, id: string)
    requires OfMessage(id) && id in After(h).messages && NeverReopened(After(h), id)
    ensures (exists more :: LeftAlone(more, id) && RunsAgain(h, more, id)) <==>
            (exists n :: Queued(After(h), n, id)) || (exists c :: OnItsWay(After(h), c, id)) || !AllSpent(After(h), id)
  {
    CanRunAgainIff(h, id);
    AlwaysUnlisted(h, id);
    MessageHasName(id);
    RestartableByCopy(After(h), id);
  }

  // ---- instances ----

  lemma BeginServed(h: History<Step>, e: nat) returns (h': History<Step>)
    requires AtStage(After(h), e, Reserved)
    ensures var s, x := After(h), After(h).execs[e];
            After(h') == s.(now := s.now + 2,
                            server := s.server[x.runId := Runs.Running],
                            events := s.events[s.now := Copy(x.runId, Runs.Running, s.now, Some(s.now))],
                            execs := s.execs[e := x.(servedAt := Some(s.now), ran := true, stage := Ending)])
  {
    var s, x := After(h), After(h).execs[e];
    h' := Then(h, Begin(e, true, true, true));
    assert After(h') == s.(now := s.now + 1, server := s.server[x.runId := Runs.Running],
                           events := s.events[s.now := Copy(x.runId, Runs.Running, s.now, Some(s.now))],
                           execs := s.execs[e := x.(servedAt := Some(s.now), stage := Going)]);
    h' := Then(h', Command(e, true));
  }

  lemma EndServed(h: History<Step>, e: nat) returns (h': History<Step>)
    requires AtStage(After(h), e, Ending) && After(h).execs[e].worker in At(After(h), After(h).execs[e].daemon).workers
    ensures var s, s', x := After(h), After(h'), After(h).execs[e];
            s' == s.(now := s.now + 2,
                     server := s.server[x.runId := Runs.Completed],
                     events := s.events[s.now := Copy(x.runId, Runs.Completed, s.now, Some(s.now))],
                     handled := s.handled + (if x.event.Some? then {x.event.value} else {}),
                     daemons := s.daemons[x.daemon := Supervisor.Apply(At(s, x.daemon), Supervisor.Finish(x.worker))],
                     execs := s.execs[e := x.(stage := Over)])
  {
    var s, x := After(h), After(h).execs[e];
    h' := Then(h, End(e, true, true));
    assert After(h') == s.(now := s.now + 1, server := s.server[x.runId := Runs.Completed],
                           events := s.events[s.now := Copy(x.runId, Runs.Completed, s.now, Some(s.now))],
                           execs := s.execs[e := x.(stage := Closing)]);
    h' := Then(h', Release(e, true));
  }

  /** From its reservation an execution goes all the way, with every call served. */
  lemma Executed(h: History<Step>, e: nat) returns (h': History<Step>)
    requires AtStage(After(h), e, Reserved) && After(h).execs[e].worker in At(After(h), After(h).execs[e].daemon).workers
    ensures var s, s', x := After(h), After(h'), After(h).execs[e];
            s' == s.(now := s.now + 4,
                     server := s.server[x.runId := Runs.Completed],
                     events := s.events[s.now := Copy(x.runId, Runs.Running, s.now, Some(s.now))]
                                       [s.now + 2 := Copy(x.runId, Runs.Completed, s.now + 2, Some(s.now + 2))],
                     handled := s.handled + (if x.event.Some? then {x.event.value} else {}),
                     daemons := s.daemons[x.daemon := Supervisor.Apply(At(s, x.daemon), Supervisor.Finish(x.worker))],
                     execs := s.execs[e := x.(servedAt := Some(s.now), ran := true, stage := Over)])
  {
    h' := BeginServed(h, e);
    h' := EndServed(h', e);
  }

  /** A poll has fetched a list with the run; the event of the run was offered, and has it reserved. */
  lemma ListedAndReserved(id: string) returns (h: History<Step>)
    requires !Blank(id) && !OfMessage(id)
    ensures After(h) == State(4, map[id := Runs.Queued], {}, {}, map[0 := Copy(id, Runs.Queued, 0, Some(0))],
                          map[1 := Held(0, Copy(id, Runs.Queued, 1, None))], {},
                          map[0 := Supervisor.Apply(Supervisor.INITIAL, Supervisor.Reserve(1, id))],
                          [Exec(0, 1, id, 0, Some(0), 3, None, false, Reserved)])
  {
    var event, entry := Copy(id, Runs.Queued, 0, Some(0)), Held(0, Copy(id, Runs.Queued, 1, None));
    h := Then(Empty, Assign(id));
    assert After(h) == INITIAL.(now := 1, server := map[id := Runs.Queued], events := map[0 := event]);
    h := Then(h, Fetch(0, id));
    assert After(h) == INITIAL.(now := 2, server := map[id := Runs.Queued], events := map[0 := event], held := map[1 := entry]);
    h := Then(h, Offer(0, 0));
    assert After(h) == INITIAL.(now := 3, server := map[id := Runs.Queued], events := map[0 := event], held := map[1 := entry, 2 := Held(0, event)]);
    h := Then(h, Reach(1, 2));
    assert After(h).held == map[1 := entry];
  }

  /** Because of the event the run is executed, completed and acknowledged, with the poll still at work on its list. */
  lemma ListedAndCompleted(id: string) returns (h: History<Step>)
    requires !Blank(id) && !OfMessage(id)
    ensures var s := After(h);
            && NeverReopened(s, id) && s.execs == [Exec(0, 1, id, 0, Some(0), 3, Some(4), true, Over)] && 0 !in s.events
            && s.held == map[1 := Held(0, Copy(id, Runs.Queued, 1, None))] && At(s, 0) == Supervisor.INITIAL
  {
    h := ListedAndReserved(id);
    h := Executed(h, 0);
    assert At(After(h), 0) == Supervisor.INITIAL;
    h := Then(h, ApplyAck(0));
  }

  /** Then the poll gets to it, and runs it again. */
  lemma OldListRunsAgain(id: string) returns (h: History<Step>)
    requires !Blank(id) && !OfMessage(id)
    ensures var s := After(h);
            && NeverReopened(s, id) && |s.execs| == 2 && RanFor(s, 0, id) && RanFor(s, 1, id)
            && OldCopy(s, 0, 1) && s.execs[0].stage.Over? && s.execs[1].event == None
  {
    h := ListedAndCompleted(id);
    Invariant(h);
    h := Then(h, Reach(0, 1));
    assert AtStage(After(h), 1, Reserved) && After(h).execs[1].worker in At(After(h), After(h).execs[1].daemon).workers;
    h := Executed(h, 1);
    Invariant(h);
  }

  /** The poll gets to the run while it is being executed, and its entry is used up. */
  lemma ListedAndSkipped(id: string) returns (h: History<Step>)
    requires !Blank(id) && !OfMessage(id)
    ensures After(h) == State(5, map[id := Runs.Queued], {}, {}, map[0 := Copy(id, Runs.Queued, 0, Some(0))], map[], {},
                              map[0 := Supervisor.Apply(Supervisor.INITIAL, Supervisor.Reserve(1, id))],
                              [Exec(0, 1, id, 0, Some(0), 3, None, false, Reserved)])
  {
    h := ListedAndReserved(id);
    h := Then(h, Reach(0, 1));
  }

  lemma Completed(id: string) returns (h: History<Step>)
    requires !Blank(id) && !OfMessage(id)
    ensures var s := After(h);
            && s.held == map[] && At(s, 0) == Supervisor.INITIAL && s.handled == {0} && NeverReopened(s, id)
            && s.server == map[id := Runs.Completed] && s.messages == {}
            && s.execs == [Exec(0, 1, id, 0, Some(0), 3, Some(5), true, Over)]
            && s.events == map[0 := Copy(id, Runs.Queued, 0, Some(0)), 5 := Copy(id, Runs.Running, 5, Some(5)),
                               7 := Copy(id, Runs.Completed, 7, Some(7))]
  {
    h := ListedAndSkipped(id);
    h := Executed(h, 0);
    assert At(After(h), 0) == Supervisor.INITIAL;
  }

  /** Its event is not acknowledged yet; the next subscription is offered it, and the run is run again. */
  lemma LateAckRunsAgain(id: string) returns (h: History<Step>)
    requires !Blank(id) && !OfMessage(id)
    ensures var s := After(h);
            && NeverReopened(s, id) && |s.execs| == 2 && RanFor(s, 0, id) && RanFor(s, 1, id)
            && s.execs[0].event == s.execs[1].event == Some(0)
  {
    h := Completed(id);
    var s := After(h);
    h := Then(h, Offer(0, 0));
    assert After(h).held == map[s.now := Held(0, s.events[0])] && After(h).execs == s.execs;
    h := Then(h, Reach(0, s.now));
    assert AtStage(After(h), 1, Reserved) && After(h).execs[1].worker in At(After(h), After(h).execs[1].daemon).workers;
    h := Executed(h, 1);
  }

  /** Once its event is acknowledged, the completed run can never be run again without help. */
  lemma AcknowledgedIsDone(id: string) returns (h: History<Step>)
    requires !Blank(id) && !OfMessage(id)
    ensures RanFor(After(h), 0, id) && Idle(After(h), id) && !Restartable(After(h), id)
    ensures forall more | LeftAlone(more, id) :: !RunsAgain(h, more, id)
  {
    h := Completed(id);
    var s := After(h);
    h := Then(h, ApplyAck(0));
    assert After(h).events == s.events - {0} && After(h).held == map[];
    CanRunAgainIff(h, id);
  }

  /** One event, offered to two daemons, has both execute the run at the same time. */
  lemma TwoDaemonsReserve(id: string) returns (h: History<Step>)
    requires !Blank(id) && !OfMessage(id)
    ensures var s := After(h);
            && s.reopenings == {} && s.now == 5
            && s.execs == [Exec(0, 0, id, 0, Some(0), 3, None, false, Reserved), Exec(1, 0, id, 0, Some(0), 4, None, false, Reserved)]
  {
    var event := Copy(id, Runs.Queued, 0, Some(0));
    h := Then(Empty, Assign(id));
    assert After(h) == INITIAL.(now := 1, server := map[id := Runs.Queued], events := map[0 := event]);
    h := Then(h, Offer(0, 0));
    assert After(h) == INITIAL.(now := 2, server := map[id := Runs.Queued], events := map[0 := event], held := map[1 := Held(0, event)]);
    h := Then(h, Offer(1, 0));
    assert After(h) == INITIAL.(now := 3, server := map[id := Runs.Queued], events := map[0 := event],
                                held := map[1 := Held(0, event), 2 := Held(1, event)]);
    h := Then(h, Reach(0, 1));
    assert After(h).held == map[2 := Held(1, event)] && At(After(h), 1) == Supervisor.INITIAL && After(h).now == 4;
    h := Then(h, Reach(0, 2));
  }

  /** Neither copy is old, and nobody reopened anything. */
  lemma TwoDaemonsRunBoth(id: string) returns (h: History<Step>)
    requires !Blank(id) && !OfMessage(id)
    ensures var s := After(h);
            && NeverReopened(s, id) && |s.execs| == 2 && RanFor(s, 0, id) && RanFor(s, 1, id) && Overlap(s, 0, 1)
            && !OldCopy(s, 0, 1) && !OldCopy(s, 1, 0) && s.execs[0].event == s.execs[1].event
  {
    h := TwoDaemonsReserve(id);
    h := BeginServed(h, 0);
    h := BeginServed(h, 1);
  }

  lemma Died(id: string) returns (h: History<Step>)
    requires !Blank(id) && !OfMessage(id)
    ensures var s := After(h);
            && s.now == 7 && s.held == map[] && At(s, 0) == Supervisor.INITIAL && s.handled == {} && NeverReopened(s, id)
            && s.execs == [Exec(0, 1, id, 0, Some(0), 3, Some(4), true, Over)]
            && 0 in s.events && s.events[0] == Copy(id, Runs.Queued, 0, Some(0))
  {
    h := ListedAndReserved(id);
    h := BeginServed(h, 0);
    h := Then(h, Crash(0));
  }

  /** A daemon that dies after running the command leaves the event unhandled; its next process runs the command again. */
  lemma CrashRunsAgain(id: string) returns (h: History<Step>)
    requires !Blank(id) && !OfMessage(id)
    ensures var s := After(h);
            && NeverReopened(s, id) && |s.execs| == 2 && RanFor(s, 0, id) && RanFor(s, 1, id) && OldCopy(s, 0, 1)
            && s.execs[0].stage.Over? && s.execs[0].daemon == s.execs[1].daemon && s.handled == {}
  {
    h := Died(id);
    var s := After(h);
    h := Then(h, Offer(0, 0));
    assert After(h) == s.(now := 8, held := map[7 := Held(0, s.events[0])]);
    h := Then(h, Reach(0, 7));
    assert After(h).execs == s.execs + [Exec(0, 0, id, 0, Some(0), 8, None, false, Reserved)];
    h := BeginServed(h, 1);
  }
}

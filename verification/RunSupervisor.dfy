/** The daemon's table of runs in progress, shared by overlapping polls, run
    events, direct messages and control events. Every operation on it is one
    lock hold. A cancel function is a handle; calling it adds the handle to the
    canceled ones. */
module RunSupervisor {
  import opened Basics
  import opened Histories

  type Handle = nat

  datatype Proc = Proc(agentId: string, cancel: Option<Handle>)

  type Running = map<string, Proc>

  /** Whom a control event for an agent concerns: an empty agent on either side matches. */
  predicate Concerns(agentId: string, p: Proc) {
    p.cancel.Some? && (agentId == "" || p.agentId == "" || p.agentId == agentId)
  }

  function Concerned(running: Running, agentId: string): set<string> {
    set id | id in running && Concerns(agentId, running[id])
  }

  function HandlesOf(running: Running, ids: set<string>): set<Handle> {
    set id | id in ids && id in running && running[id].cancel.Some? :: running[id].cancel.value
  }

  // ---- the table ----

  class SupervisedProcess {
    var agentId: string
    var cancel: Option<Handle>

    function State(): Proc
      reads this
    {
      Proc(agentId, cancel)
    }

    constructor ()
      ensures State() == Proc("", None)
    {
      agentId, cancel := "", None;
    }
  }

  class Supervisor {
    var running: map<string, SupervisedProcess>

    ghost predicate Valid()
      reads this
    {
      forall a, b :: a in running && b in running && a != b ==> running[a] != running[b]
    }

    ghost function State(): Running
      reads this, running.Values
    {
      map id | id in running :: running[id].State()
    }

    constructor ()
      ensures Valid() && State() == map[]
    {
      running := map[];
    }

    method ReserveRun(runId: string) returns (ok: bool)
      requires Valid()
      modifies this
      ensures Valid() && ok == (runId !in old(running))
      ensures State() == if ok then old(State())[runId := Proc("", None)] else old(State())
    {
      if runId in running {
        return false;
      }
      var process := new SupervisedProcess();
      running := running[runId := process];
      ok := true;
    }

    method SetProcessCommand(runId: string, cancel: Handle, agentId: string)
      requires Valid()
      modifies running.Values
      ensures Valid() && running == old(running)
      ensures State() == if runId in running then old(State())[runId := Proc(agentId, Some(cancel))] else old(State())
    {
      if runId !in running {
        return;
      }
      running[runId].agentId := agentId;
      running[runId].cancel := Some(cancel);
    }

    method ReleaseRun(runId: string)
      requires Valid()
      modifies this
      ensures Valid() && State() == old(State()) - {runId}
    {
      running := running - {runId};
    }

    /** Calls and counts exactly the cancel functions of the runs the agent concerns. */
    method CancelAgentRuns(agentId: string) returns (count: nat, called: set<Handle>)
      ensures count == |set id | id in running && running[id].cancel.Some? &&
                                 (agentId == "" || running[id].agentId in {"", agentId})|
      ensures called == set id | id in running && running[id].cancel.Some? &&
                                 (agentId == "" || running[id].agentId in {"", agentId}) :: running[id].cancel.value
      ensures count == |Concerned(State(), agentId)|
      ensures called == HandlesOf(State(), Concerned(State(), agentId))
    {
      count, called := 0, {};
      ghost var s := State();
      var todo := running.Keys;
      ghost var done: set<string> := {};
      while todo != {}
        invariant todo <= running.Keys
        invariant forall id :: id in done <==> id in s && id !in todo && Concerns(agentId, s[id])
        invariant count == |done| && called == HandlesOf(s, done)
        decreases todo
      {
        var id :| id in todo;
        var process := running[id];
        assert s[id] == process.State();
        todo := todo - {id};
        if agentId != "" && process.agentId != "" && process.agentId != agentId {
          continue;
        }
        if process.cancel.Some? {
          HandlesGrow(s, done, id);
          called := called + {process.cancel.value};
          count := count + 1;
          done := done + {id};
        }
      }
      assert done == Concerned(s, agentId);
      assert done == set id | id in running && running[id].cancel.Some? && (agentId == "" || running[id].agentId in {"", agentId});
    }
  }

  lemma HandlesGrow(running: Running, ids: set<string>, id: string)
    requires id in running && running[id].cancel.Some?
    ensures HandlesOf(running, ids + {id}) == HandlesOf(running, ids) + {running[id].cancel.value}
  {
  }

  // ---- any interleaving of its users ----

  /** workers: the goroutines (a poll, the event loop) and the run each executes. */
  datatype State = State(running: Running, workers: map<nat, string>, canceled: set<Handle>)

  const INITIAL := State(map[], map[], {})

  datatype Step =
    | Reserve(worker: nat, runId: string)
    | SetCommand(worker: nat, handle: Handle, agentId: string)
    | Finish(worker: nat)
    | Control(agentId: string)

  /** A worker executes one run at a time. */
  predicate Enabled(s: State, step: Step) {
    match step
    case Reserve(w, _) => w !in s.workers
    case SetCommand(w, _, _) => w in s.workers
    case Finish(w) => w in s.workers
    case Control(_) => true
  }

  function Apply(s: State, step: Step): State
    requires Enabled(s, step)
  {
    match step
    case Reserve(w, id) =>
      if id in s.running then s
      else s.(running := s.running[id := Proc("", None)], workers := s.workers[w := id])
    case SetCommand(w, handle, agentId) =>
      var id := s.workers[w];
      if id in s.running then s.(running := s.running[id := Proc(agentId, Some(handle))]) else s
    case Finish(w) => s.(running := s.running - {s.workers[w]}, workers := s.workers - {w})
    case Control(agentId) =>
      s.(canceled := s.canceled + HandlesOf(s.running, Concerned(s.running, agentId)))
  }

  function Next(s: State, step: Step): State {
    if Enabled(s, step) then Apply(s, step) else s
  }

  function After(h: History<Step>): State {
    match h
    case Empty => INITIAL
    case Then(before, step) => Next(After(before), step)
  }

  ghost predicate Executed(s: State, id: string) {
    exists w :: w in s.workers && s.workers[w] == id
  }

  /** The table holds exactly the runs being executed, each by one worker. */
  ghost predicate OneExecutorEach(s: State) {
    && (forall id :: id in s.running <==> Executed(s, id))
    && (forall v, w :: v in s.workers && w in s.workers && s.workers[v] == s.workers[w] ==> v == w)
  }

  lemma StepKeepsOneExecutor(s: State, step: Step)
    requires OneExecutorEach(s) && Enabled(s, step)
    ensures OneExecutorEach(Apply(s, step))
  {
    var s' := Apply(s, step);
    forall w | w in s.workers ensures Executed(s, s.workers[w]) {
    }
    forall id | id in s'.running ensures Executed(s', id) {
      var w := if step.Reserve? && id !in s.running then step.worker else var v :| v in s.workers && s.workers[v] == id; v;
      assert w in s'.workers && s'.workers[w] == id;
    }
    forall id | Executed(s', id) ensures id in s'.running {
      var w :| w in s'.workers && s'.workers[w] == id;
      if w in s.workers {
        assert Executed(s, id);
      }
    }
  }

  /** In any interleaving. */
  lemma {:induction false} AlwaysOneExecutor(h: History<Step>)
    ensures OneExecutorEach(After(h))
  {
    match h
    case Empty =>
    case Then(before, step) =>
      AlwaysOneExecutor(before);
      if Enabled(After(before), step) {
        StepKeepsOneExecutor(After(before), step);
      }
  }

  /** A control event cancels exactly the runs that are being executed, have
      started their command and match its agent; nothing else is touched. */
  lemma ControlCancelsExactly(h: History<Step>, agentId: string, handle: Handle)
    requires handle !in After(h).canceled
    ensures handle in After(Then(h, Control(agentId))).canceled <==>
            exists w :: w in After(h).workers && After(h).workers[w] in After(h).running &&
                        After(h).running[After(h).workers[w]].cancel == Some(handle) &&
                        (agentId == "" || After(h).running[After(h).workers[w]].agentId in {"", agentId})
    ensures After(Then(h, Control(agentId))).running == After(h).running
    ensures After(Then(h, Control(agentId))).workers == After(h).workers
  {
    AlwaysOneExecutor(h);
    var s := After(h);
    if handle in After(Then(h, Control(agentId))).canceled {
      var id :| id in Concerned(s.running, agentId) && s.running[id].cancel == Some(handle);
      assert Executed(s, id);
      var w :| w in s.workers && s.workers[w] == id;
    }
  }

  /** Once a run has its command, the next control event for its agent, for any
      agent, or for a run of no agent, cancels it. */
  lemma CommandIsCanceled(h: History<Step>, w: nat, handle: Handle, agentId: string, control: string)
    requires w in After(h).workers && (control == "" || agentId == "" || agentId == control)
    ensures handle in After(Then(Then(h, SetCommand(w, handle, agentId)), Control(control))).canceled
  {
    AlwaysOneExecutor(h);
    var s, id := After(h), After(h).workers[w];
    assert Executed(s, id);
    var s' := After(Then(h, SetCommand(w, handle, agentId)));
    assert s'.running == s.running[id := Proc(agentId, Some(handle))];
    assert id in Concerned(s'.running, control);
  }

  /** A run without its command yet is not: the cancel comes too early. */
  lemma TooEarlyToCancel(h: History<Step>, w: nat, id: string, control: string)
    requires w !in After(h).workers && id !in After(h).running
    ensures var s := After(Then(h, Reserve(w, id)));
            && w in s.workers && s.workers[w] == id && id in s.running
            && After(Then(Then(h, Reserve(w, id)), Control(control))).canceled == After(Then(h, Control(control))).canceled
  {
    var s, t := After(h), After(Then(h, Reserve(w, id)));
    assert Concerned(t.running, control) == Concerned(s.running, control);
    assert HandlesOf(t.running, Concerned(t.running, control)) == HandlesOf(s.running, Concerned(s.running, control));
  }
}

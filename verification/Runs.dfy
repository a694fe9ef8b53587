/** The server's table of runs: claims create or reuse a run, status updates
    create, fill in and move one. Runs are handed out as copies only, so the
    table is a map of values. Clock readings, fresh ids and the route of an
    agent (the computer and runtime profile it was last seen on) are inputs. */
module Runs {
  import opened Basics
  import opened Histories
  import opened ServerEvents

  datatype RunState = Unspecified | Queued | Running | Blocked | Completed | Failed | Canceled

  predicate Terminal(state: RunState) { state.Completed? || state.Failed? || state.Canceled? }

  datatype Run = Run(id: string, taskId: string, target: string, agentId: string, computerId: string, profileId: string,
                     state: RunState, leaseId: string, summary: string, error: string,
                     started: int, updated: int, lastHeartbeat: int, completed: int, snapshotId: string)

  datatype Task = Task(id: string, target: string, summary: string)

  datatype ClaimInput = ClaimInput(task: Task, agentId: string, leaseId: string, now: int, runId: string, eventId: string)

  datatype UpdateInput = UpdateInput(runId: string, agentId: string, state: RunState, summary: string, error: string,
                                     leaseId: string, now: int, eventId: string)

  type Routes = string -> (string, string)

  /** queued: every event this table ever queued, in order. */
  datatype Table = Table(runs: map<string, Run>, queue: Queue, queued: seq<Event>)

  const EMPTY_TABLE := Table(map[], Queue(0, map[]), [])

  // ---- claims ----

  predicate LiveFor(r: Run, taskId: string, agentId: string) {
    r.taskId == taskId && r.agentId == agentId && !Terminal(r.state)
  }

  ghost predicate HasLive(runs: map<string, Run>, taskId: string, agentId: string) {
    exists id :: id in runs && LiveFor(runs[id], taskId, agentId)
  }

  function NewClaimRun(c: ClaimInput, routes: Routes): Run {
    Run(c.runId, c.task.id, c.task.target, c.agentId, routes(c.agentId).0, routes(c.agentId).1,
        Queued, c.leaseId, c.task.summary, "", c.now, c.now, 0, 0, "")
  }

  function RunEvent(r: Run, target: string, operation: Operation): Event {
    Event("", 0, r.id, target, RunAssigned, operation, RunOf(r.computerId, r.agentId))
  }

  function Post(t: Table, r: Run, event: Event, eventId: string): Table {
    Table(t.runs[r.id := r], Enqueued(t.queue, event, eventId), t.queued + [Numbered(t.queue, event, eventId)])
  }

  ghost function Claimed(t: Table, c: ClaimInput, routes: Routes): Table {
    if HasLive(t.runs, c.task.id, c.agentId) then t
    else
      var r := NewClaimRun(c, routes);
      Post(t, r, RunEvent(r, c.task.target, Created), c.eventId)
  }

  // ---- status updates ----

  function OrElse(a: string, b: string): string { if a != "" then a else b }

  function DirectTarget(agentId: string): string { if agentId == "" then "" else "dm:" + agentId }

  function NewUpdateRun(u: UpdateInput, routes: Routes): Run {
    Run(u.runId, "", DirectTarget(u.agentId), u.agentId, routes(u.agentId).0, routes(u.agentId).1,
        Unspecified, u.leaseId, "", "", u.now, 0, 0, 0, "")
  }

  function UpdatedRun(r: Run, u: UpdateInput, routes: Routes): Run {
    var agent := OrElse(r.agentId, u.agentId);
    var route := if agent != "" then routes(agent) else ("", "");
    r.(agentId := agent,
       computerId := OrElse(r.computerId, route.0),
       profileId := OrElse(r.profileId, route.1),
       target := OrElse(r.target, DirectTarget(agent)),
       leaseId := OrElse(r.leaseId, u.leaseId),
       state := u.state, summary := u.summary, error := u.error, updated := u.now, lastHeartbeat := u.now,
       completed := if Terminal(u.state) then u.now else r.completed)
  }

  function StatusUpdated(t: Table, u: UpdateInput, routes: Routes): Table {
    if u.runId == "" then t
    else
      var r := UpdatedRun(if u.runId in t.runs then t.runs[u.runId] else NewUpdateRun(u, routes), u, routes);
      Post(t.(runs := t.runs[u.runId := r]), r,
           RunEvent(r, OrElse(r.target, OrElse(r.computerId, r.agentId)), Updated), u.eventId)
  }

  class RunTable {
    var runs: map<string, Run>
    var eventSeq: nat
    var serverEvents: map<string, Event>
    ghost var queued: seq<Event>

    ghost function State(): Table
      reads this
    {
      Table(runs, Queue(eventSeq, serverEvents), queued)
    }

    constructor ()
      ensures State() == EMPTY_TABLE
    {
      runs, eventSeq, serverEvents, queued := map[], 0, map[], [];
    }

    method QueueEvent(event: Event, eventId: string)
      requires event.id == "" && event.sequence == 0
      modifies this`eventSeq, this`serverEvents, this`queued
      ensures Queue(eventSeq, serverEvents) == Enqueued(old(Queue(eventSeq, serverEvents)), event, eventId)
      ensures queued == old(queued) + [Numbered(old(Queue(eventSeq, serverEvents)), event, eventId)]
    {
      eventSeq := eventSeq + 1;
      var numbered := event.(id := eventId, sequence := eventSeq);
      serverEvents := serverEvents[eventId := numbered];
      queued := queued + [numbered];
    }

    /** Reuses a live run of the same task and agent if the walk over the table meets one. */
    method EnsureClaimRun(c: ClaimInput, routes: Routes) returns (run: Run)
      requires forall id :: id in runs ==> runs[id].id == id
      modifies this
      ensures State() == Claimed(old(State()), c, routes)
      ensures if HasLive(old(runs), c.task.id, c.agentId)
              then run.id in runs && runs[run.id] == run && LiveFor(run, c.task.id, c.agentId)
              else run == NewClaimRun(c, routes)
    {
      var todo := runs.Keys;
      while todo != {}
        invariant todo <= runs.Keys && State() == old(State())
        invariant forall id :: id in runs && id !in todo ==> !LiveFor(runs[id], c.task.id, c.agentId)
        decreases todo
      {
        var id :| id in todo;
        if LiveFor(runs[id], c.task.id, c.agentId) {
          return runs[id];
        }
        todo := todo - {id};
      }
      var (computerId, profileId) := routes(c.agentId);
      run := Run(c.runId, c.task.id, c.task.target, c.agentId, computerId, profileId,
                 Queued, c.leaseId, c.task.summary, "", c.now, c.now, 0, 0, "");
      runs := runs[run.id := run];
      QueueEvent(RunEvent(run, c.task.target, Created), c.eventId);
    }

    method UpdateRunStatus(u: UpdateInput, routes: Routes) returns (run: Option<Run>)
      requires forall id :: id in runs ==> runs[id].id == id
      modifies this
      ensures State() == StatusUpdated(old(State()), u, routes)
      ensures run == if u.runId == "" then None else Some(runs[u.runId])
    {
      if u.runId == "" {
        return None;
      }
      var r;
      if u.runId in runs {
        r := runs[u.runId];
      } else {
        var (computerId, profileId) := routes(u.agentId);
        r := Run(u.runId, "", DirectTarget(u.agentId), u.agentId, computerId, profileId,
                 Unspecified, u.leaseId, "", "", u.now, 0, 0, 0, "");
      }
      r := FillAndMove(r, u, routes);
      runs := runs[u.runId := r];
      QueueEvent(RunEvent(r, OrElse(r.target, OrElse(r.computerId, r.agentId)), Updated), u.eventId);
      run := Some(r);
    }

    /** The field by field part of UpdateRunStatus, between finding the run and announcing it. */
    static method FillAndMove(found: Run, u: UpdateInput, routes: Routes) returns (r: Run)
      ensures r == UpdatedRun(found, u, routes)
    {
      r := found;
      if r.agentId == "" && u.agentId != "" {
        r := r.(agentId := u.agentId);
      }
      if (r.computerId == "" || r.profileId == "") && r.agentId != "" {
        var (computerId, profileId) := routes(r.agentId);
        if r.computerId == "" {
          r := r.(computerId := computerId);
        }
        if r.profileId == "" {
          r := r.(profileId := profileId);
        }
      }
      if r.target == "" {
        r := r.(target := DirectTarget(r.agentId));
      }
      if r.leaseId == "" {
        r := r.(leaseId := u.leaseId);
      }
      r := r.(state := u.state, summary := u.summary, error := u.error, updated := u.now, lastHeartbeat := u.now);
      if Terminal(r.state) {
        r := r.(completed := u.now);
      }
    }
  }

  // ---- histories ----

  datatype Step = ClaimStep(c: ClaimInput, routes: Routes) | UpdateStep(u: UpdateInput, routes: Routes)

  ghost function Apply(t: Table, step: Step): Table {
    match step
    case ClaimStep(c, routes) => Claimed(t, c, routes)
    case UpdateStep(u, routes) => StatusUpdated(t, u, routes)
  }

  ghost function After(h: History<Step>): Table {
    match h
    case Empty => EMPTY_TABLE
    case Then(before, step) => Apply(After(before), step)
  }

  /** Run ids drawn for claims are new to the table, and the clock is past the epoch. */
  ghost predicate Drawn(t: Table, step: Step) {
    match step
    case ClaimStep(c, _) => c.runId != "" && c.runId !in t.runs && c.now > 0
    case UpdateStep(u, _) => u.now > 0
  }

  ghost predicate Plausible(h: History<Step>) {
    match h
    case Empty => true
    case Then(before, step) => Plausible(before) && Drawn(After(before), step)
  }

  // ---- identity and write-once fields ----

  ghost predicate Keyed(t: Table) {
    forall id :: id in t.runs ==> id != "" && t.runs[id].id == id
  }

  ghost predicate WriteOnce(a: Run, b: Run) {
    && b.id == a.id && b.taskId == a.taskId
    && (a.agentId != "" ==> b.agentId == a.agentId)
    && (a.target != "" ==> b.target == a.target)
    && (a.computerId != "" ==> b.computerId == a.computerId)
    && (a.profileId != "" ==> b.profileId == a.profileId)
    && (a.leaseId != "" ==> b.leaseId == a.leaseId)
    && b.snapshotId == a.snapshotId
  }

  lemma {:induction false} AlwaysKeyed(h: History<Step>)
    requires Plausible(h)
    ensures Keyed(After(h))
  {
    match h
    case Empty =>
    case Then(before, _) => AlwaysKeyed(before);
  }

  lemma StepKeepsIdentity(t: Table, step: Step, id: string)
    requires Keyed(t) && Drawn(t, step) && id in t.runs
    ensures id in Apply(t, step).runs && WriteOnce(t.runs[id], Apply(t, step).runs[id])
  {
  }

  /** Over every history no run is ever removed, its task never changes, and its
      agent, target, computer, profile and lease are fixed once they are set. */
  lemma {:induction false} IdentityIsWriteOnce(h: History<Step>, more: History<Step>, id: string)
    requires Plausible(Concat(h, more)) && id in After(h).runs
    ensures id in After(Concat(h, more)).runs
    ensures WriteOnce(After(h).runs[id], After(Concat(h, more)).runs[id])
  {
    match more
    case Empty => AlwaysKeyed(h);
    case Then(before, step) =>
      IdentityIsWriteOnce(h, before, id);
      AlwaysKeyed(Concat(h, before));
      StepKeepsIdentity(After(Concat(h, before)), step, id);
  }

  /** The runs that some update made terminal, read off the history alone. */
  function EverTerminal(h: History<Step>): set<string> {
    match h
    case Empty => {}
    case Then(before, step) => EverTerminal(before) + MadeTerminal(step)
  }

  function MadeTerminal(step: Step): set<string> {
    if step.UpdateStep? && step.u.runId != "" && Terminal(step.u.state) then {step.u.runId} else {}
  }

  lemma StepSetsCompletion(t: Table, step: Step, id: string)
    requires Keyed(t) && Drawn(t, step)
    ensures MadeTerminal(step) <= Apply(t, step).runs.Keys && t.runs.Keys <= Apply(t, step).runs.Keys
    ensures id in Apply(t, step).runs ==>
              (Apply(t, step).runs[id].completed != 0 <==> id in MadeTerminal(step) || (id in t.runs && t.runs[id].completed != 0))
  {
  }

  /** A run has a completion time exactly when some update made it terminal, even if a later one moved it back. */
  lemma {:induction false} CompletionTime(h: History<Step>)
    requires Plausible(h)
    ensures EverTerminal(h) <= After(h).runs.Keys
    ensures forall id :: id in After(h).runs ==> (After(h).runs[id].completed != 0 <==> id in EverTerminal(h))
  {
    match h
    case Empty =>
    case Then(before, step) =>
      CompletionTime(before);
      AlwaysKeyed(before);
      forall id: string {
        StepSetsCompletion(After(before), step, id);
      }
  }

  // ---- at most one live run ----

  ghost predicate AtMostOneLive(runs: map<string, Run>) {
    forall a, b :: a in runs && b in runs && a != b && runs[a].taskId != "" &&
                   runs[a].taskId == runs[b].taskId && runs[a].agentId == runs[b].agentId ==>
                   Terminal(runs[a].state) || Terminal(runs[b].state)
  }

  ghost predicate TasksHaveAgents(runs: map<string, Run>) {
    forall id :: id in runs && runs[id].taskId != "" ==> runs[id].agentId != ""
  }

  /** Claims name a task and an agent; updates do not move a terminal run back to a live state. */
  ghost predicate Careful(h: History<Step>) {
    match h
    case Empty => true
    case Then(before, step) =>
      && Careful(before)
      && match step
         case ClaimStep(c, _) => c.task.id != "" && c.agentId != ""
         case UpdateStep(u, _) => !Reopens(After(before).runs, u)
  }

  ghost predicate Reopens(runs: map<string, Run>, u: UpdateInput) {
    u.runId in runs && Terminal(runs[u.runId].state) && !Terminal(u.state)
  }

  ghost predicate NamesTaskAndAgent(h: History<Step>) {
    match h
    case Empty => true
    case Then(before, step) => NamesTaskAndAgent(before) && (step.ClaimStep? ==> step.c.task.id != "" && step.c.agentId != "")
  }

  lemma {:induction false} AlwaysAgents(h: History<Step>)
    requires Plausible(h) && NamesTaskAndAgent(h)
    ensures TasksHaveAgents(After(h).runs)
  {
    match h
    case Empty =>
    case Then(before, _) =>
      AlwaysAgents(before);
      AlwaysKeyed(before);
  }

  /** One update keeps the table free of doubles exactly unless it reopens a run
      whose task and agent have another live run by now. */
  lemma UpdateKeepsOneLiveIff(t: Table, u: UpdateInput, routes: Routes)
    requires Keyed(t) && TasksHaveAgents(t.runs) && AtMostOneLive(t.runs)
    ensures AtMostOneLive(StatusUpdated(t, u, routes).runs) <==>
            !(Reopens(t.runs, u) && t.runs[u.runId].taskId != "" &&
              HasLive(t.runs, t.runs[u.runId].taskId, t.runs[u.runId].agentId))
  {
    var runs' := StatusUpdated(t, u, routes).runs;
    if u.runId in t.runs {
      var r := t.runs[u.runId];
      if Reopens(t.runs, u) && r.taskId != "" && HasLive(t.runs, r.taskId, r.agentId) {
        var other :| other in t.runs && LiveFor(t.runs[other], r.taskId, r.agentId);
        assert other != u.runId && runs'[other] == t.runs[other];
        assert LiveFor(runs'[u.runId], r.taskId, r.agentId);
      } else {
        forall a, b | a in runs' && b in runs' && a != b && runs'[a].taskId != "" &&
                      runs'[a].taskId == runs'[b].taskId && runs'[a].agentId == runs'[b].agentId
          ensures Terminal(runs'[a].state) || Terminal(runs'[b].state)
        {
          var x := if a == u.runId then b else a;
          assert x != u.runId && runs'[x] == t.runs[x];
        }
      }
    }
  }

  lemma {:induction false} CarefulNames(h: History<Step>)
    requires Careful(h)
    ensures NamesTaskAndAgent(h)
  {
    match h
    case Empty =>
    case Then(before, _) => CarefulNames(before);
  }

  /** Over every careful history, a task has at most one live run per agent. */
  lemma {:induction false} OneLiveRun(h: History<Step>)
    requires Plausible(h) && Careful(h)
    ensures AtMostOneLive(After(h).runs)
  {
    match h
    case Empty =>
    case Then(before, step) =>
      OneLiveRun(before);
      AlwaysKeyed(before);
      CarefulNames(before);
      AlwaysAgents(before);
      if step.UpdateStep? {
        UpdateKeepsOneLiveIff(After(before), step.u, step.routes);
      }
  }

  /** An update that reopens a run whose task and agent have another live run by now. */
  ghost predicate Doubles(t: Table, step: Step) {
    step.UpdateStep? && Reopens(t.runs, step.u) && t.runs[step.u.runId].taskId != "" &&
    HasLive(t.runs, t.runs[step.u.runId].taskId, t.runs[step.u.runId].agentId)
  }

  ghost predicate EverDoubles(h: History<Step>) {
    match h
    case Empty => false
    case Then(before, step) => EverDoubles(before) || Doubles(After(before), step)
  }

  ghost predicate OneLiveThroughout(h: History<Step>) {
    AtMostOneLive(After(h).runs) && (h.Then? ==> OneLiveThroughout(h.before))
  }

  lemma StepKeepsOneLiveIff(t: Table, step: Step)
    requires Keyed(t) && TasksHaveAgents(t.runs) && AtMostOneLive(t.runs) && Drawn(t, step)
    ensures AtMostOneLive(Apply(t, step).runs) <==> !Doubles(t, step)
  {
    if step.UpdateStep? {
      UpdateKeepsOneLiveIff(t, step.u, step.routes);
    }
  }

  /** Over every history a task has at most one live run per agent, all the time,
      exactly if no update ever reopens a run beside another live one. */
  lemma {:induction false} OneLiveRunIff(h: History<Step>)
    requires Plausible(h) && NamesTaskAndAgent(h)
    ensures OneLiveThroughout(h) <==> !EverDoubles(h)
  {
    match h
    case Empty =>
    case Then(before, step) =>
      OneLiveRunIff(before);
      AlwaysKeyed(before);
      AlwaysAgents(before);
      if OneLiveThroughout(before) {
        StepKeepsOneLiveIff(After(before), step);
      }
  }

  /** A repeated claim changes nothing and can only answer with the one live run there is. */
  lemma RepeatedClaim(h: History<Step>, c: ClaimInput, routes: Routes, live: string, answer: string)
    requires Plausible(h) && Careful(h) && c.task.id != ""
    requires var runs := After(h).runs;
             && live in runs && LiveFor(runs[live], c.task.id, c.agentId)
             && answer in runs && LiveFor(runs[answer], c.task.id, c.agentId)
    ensures Claimed(After(h), c, routes) == After(h) && answer == live
  {
    OneLiveRun(h);
  }

  lemma ClaimedAndCompleted(routes: Routes) returns (h: History<Step>)
    ensures Plausible(h) && NamesTaskAndAgent(h) && After(h).runs.Keys == {"r1"}
    ensures var r := After(h).runs["r1"]; r.taskId == "t" && r.agentId == "a" && r.state == Completed
  {
    h := Then(Empty, ClaimStep(ClaimInput(Task("t", "#general", ""), "a", "l1", 1, "r1", "e1"), routes));
    assert After(h).runs == map["r1" := NewClaimRun(h.last.c, routes)];
    h := Then(h, UpdateStep(UpdateInput("r1", "a", Completed, "", "", "", 2, "e2"), routes));
  }

  /** A run reopened after its task was claimed again: two live runs. */
  lemma ReopeningDoubles(routes: Routes) returns (h: History<Step>)
    ensures Plausible(h) && NamesTaskAndAgent(h) && !AtMostOneLive(After(h).runs)
  {
    h := ClaimedAndCompleted(routes);
    var done := After(h).runs;
    h := Then(h, ClaimStep(ClaimInput(Task("t", "#general", ""), "a", "l2", 3, "r2", "e3"), routes));
    assert !HasLive(done, "t", "a");
    var t := After(h);
    assert t.runs == done["r2" := NewClaimRun(h.last.c, routes)];
    AlwaysKeyed(h);
    AlwaysAgents(h);
    var u := UpdateInput("r1", "a", Running, "", "", "", 4, "e4");
    h := Then(h, UpdateStep(u, routes));
    assert LiveFor(t.runs["r2"], "t", "a");
    UpdateKeepsOneLiveIff(t, u, routes);
  }

  // ---- announcements ----

  function CreatedIds(queued: seq<Event>): seq<string> {
    if queued == [] then []
    else
      var rest, e := CreatedIds(queued[..|queued| - 1]), queued[|queued| - 1];
      if e.operation == Created then rest + [e.aggregateId] else rest
  }

  lemma CreatedIdsAppend(queued: seq<Event>, e: Event)
    ensures CreatedIds(queued + [e]) ==
            if e.operation == Created then CreatedIds(queued) + [e.aggregateId] else CreatedIds(queued)
  {
    assert (queued + [e])[..|queued|] == queued;
  }

  ghost predicate Announced(t: Table) {
    var ids := CreatedIds(t.queued);
    && (forall i, j :: 0 <= i < j < |ids| ==> ids[i] != ids[j])
    && (forall id :: id in ids <==> id in t.runs && t.runs[id].taskId != "")
  }

  lemma UpdateKeepsAnnounced(t: Table, u: UpdateInput, routes: Routes)
    requires Keyed(t) && Announced(t)
    ensures Announced(StatusUpdated(t, u, routes))
  {
    var t' := StatusUpdated(t, u, routes);
    if u.runId != "" {
      CreatedIdsAppend(t.queued, t'.queued[|t.queued|]);
      assert CreatedIds(t'.queued) == CreatedIds(t.queued);
    }
  }

  lemma ClaimKeepsAnnounced(t: Table, c: ClaimInput, routes: Routes)
    requires Keyed(t) && Announced(t) && c.runId !in t.runs && c.task.id != ""
    ensures Announced(Claimed(t, c, routes))
  {
    var t' := Claimed(t, c, routes);
    if !HasLive(t.runs, c.task.id, c.agentId) {
      CreatedIdsAppend(t.queued, t'.queued[|t.queued|]);
      assert CreatedIds(t'.queued) == CreatedIds(t.queued) + [c.runId];
      assert c.runId !in CreatedIds(t.queued);
    }
  }

  /** Exactly the runs made by claims have a CREATED event, and each has exactly one. */
  lemma {:induction false} AnnouncedOnce(h: History<Step>)
    requires Plausible(h) && NamesTaskAndAgent(h)
    ensures Announced(After(h))
  {
    match h
    case Empty =>
    case Then(before, step) =>
      AnnouncedOnce(before);
      AlwaysKeyed(before);
      match step {
        case ClaimStep(c, routes) => ClaimKeepsAnnounced(After(before), c, routes);
        case UpdateStep(u, routes) => UpdateKeepsAnnounced(After(before), u, routes);
      }
  }

  /** A claim that makes a run queues its CREATED event, addressed by computer and agent, in the same step. */
  lemma ClaimAnnounces(t: Table, c: ClaimInput, routes: Routes)
    requires !HasLive(t.runs, c.task.id, c.agentId)
    ensures var t' := Claimed(t, c, routes);
            && c.runId in t'.runs && LiveFor(t'.runs[c.runId], c.task.id, c.agentId)
            && c.eventId in t'.queue.events
            && var e := t'.queue.events[c.eventId];
               && t'.queued == t.queued + [e] && e.sequence == t.queue.eventSeq + 1 == t'.queue.eventSeq
               && e.kind == RunAssigned && e.operation == Created && e.aggregateId == c.runId
               && e.payload == RunOf(t'.runs[c.runId].computerId, c.agentId)
  {
  }

  // ---- spelled out ----

  /** A claim that finds no run of its task and agent that is neither completed,
      failed nor canceled makes one that is queued, on the route of its agent, and
      not touched since; one that finds such a run makes none. */
  lemma ClaimedRun(t: Table, c: ClaimInput, routes: Routes)
    ensures var found := exists id :: id in t.runs && t.runs[id].taskId == c.task.id && t.runs[id].agentId == c.agentId &&
                                      t.runs[id].state != Completed && t.runs[id].state != Failed && t.runs[id].state != Canceled;
            if found then Claimed(t, c, routes) == t
            else
              var runs' := Claimed(t, c, routes).runs;
              c.runId in runs' && runs' == t.runs[c.runId := runs'[c.runId]] &&
              var r := runs'[c.runId];
              && r.state == Queued && r.id == c.runId
              && r.taskId == c.task.id && r.target == c.task.target && r.summary == c.task.summary && r.error == ""
              && r.agentId == c.agentId && (r.computerId, r.profileId) == routes(c.agentId) && r.leaseId == c.leaseId
              && r.started == r.updated == c.now && r.lastHeartbeat == r.completed == 0 && r.snapshotId == ""
  {
    if HasLive(t.runs, c.task.id, c.agentId) {
      var id :| id in t.runs && LiveFor(t.runs[id], c.task.id, c.agentId);
      assert t.runs[id].state != Completed && t.runs[id].state != Failed && t.runs[id].state != Canceled;
    }
    if id :| id in t.runs && t.runs[id].taskId == c.task.id && t.runs[id].agentId == c.agentId &&
             t.runs[id].state != Completed && t.runs[id].state != Failed && t.runs[id].state != Canceled {
      assert LiveFor(t.runs[id], c.task.id, c.agentId);
    }
  }

  /** An update of a known run: what it says replaces what the run said; what is
      still empty is filled in, from the update or from the route of the run's
      agent; the completion time moves only on Completed, Failed and Canceled. */
  lemma UpdateOfKnownRun(t: Table, u: UpdateInput, routes: Routes)
    requires Keyed(t) && u.runId in t.runs
    ensures u.runId in StatusUpdated(t, u, routes).runs
    ensures var r, r' := t.runs[u.runId], StatusUpdated(t, u, routes).runs[u.runId];
            && r'.state == u.state && r'.summary == u.summary && r'.error == u.error
            && r'.updated == r'.lastHeartbeat == u.now && r'.started == r.started
            && r'.completed == (if u.state == Completed || u.state == Failed || u.state == Canceled then u.now else r.completed)
            && r'.agentId == (if r.agentId != "" then r.agentId else u.agentId)
            && r'.leaseId == (if r.leaseId != "" then r.leaseId else u.leaseId)
            && r'.computerId == (if r.computerId != "" then r.computerId else if r'.agentId == "" then "" else routes(r'.agentId).0)
            && r'.profileId == (if r.profileId != "" then r.profileId else if r'.agentId == "" then "" else routes(r'.agentId).1)
            && r'.target == (if r.target != "" then r.target else if r'.agentId == "" then "" else "dm:" + r'.agentId)
  {
  }

  /** An update of an unknown run makes it, for no task, started now. */
  lemma UpdateOfUnknownRun(t: Table, u: UpdateInput, routes: Routes)
    requires u.runId != "" && u.runId !in t.runs
    ensures u.runId in StatusUpdated(t, u, routes).runs
    ensures var r := StatusUpdated(t, u, routes).runs[u.runId];
            && r.id == u.runId && r.taskId == "" && r.agentId == u.agentId && r.leaseId == u.leaseId
            && r.state == u.state && r.summary == u.summary && r.error == u.error
            && r.started == r.updated == r.lastHeartbeat == u.now && r.snapshotId == ""
            && r.completed == (if u.state == Completed || u.state == Failed || u.state == Canceled then u.now else 0)
            && r.target == (if u.agentId == "" then "" else "dm:" + u.agentId)
            && (u.agentId != "" ==> (r.computerId, r.profileId) == routes(u.agentId))
  {
  }

  /** Every update is announced by one UPDATED event, to the run's target, else its computer, else its agent. */
  lemma UpdateAnnounces(t: Table, u: UpdateInput, routes: Routes)
    requires Keyed(t) && u.runId != ""
    ensures var t' := StatusUpdated(t, u, routes);
            && u.runId in t'.runs && u.eventId in t'.queue.events
            && var e, r := t'.queue.events[u.eventId], t'.runs[u.runId];
               && t'.queued == t.queued + [e] && e.sequence == t.queue.eventSeq + 1 == t'.queue.eventSeq
               && e.kind == RunAssigned && e.operation == Updated && e.aggregateId == u.runId
               && e.payload == RunOf(r.computerId, r.agentId)
               && e.target == (if r.target != "" then r.target else if r.computerId != "" then r.computerId else r.agentId)
  {
  }
}

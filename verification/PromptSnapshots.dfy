/** Launch prompt snapshots. Serving one takes two lock holds with store reads in
    between: the first answers from the table if it can, the second stores what
    was built. The rendered content is an input of the second; its digest is any
    function to strings of the fixed width the id uses. */
module PromptSnapshots {
  import opened Basics
  import opened Histories
  import opened Runs

  datatype Snapshot = Snapshot(id: string, runId: string, agentId: string, content: string, created: int)

  const DIGEST_WIDTH: nat := 12

  type Digest = string -> string

  ghost predicate FixedWidth(digest: Digest) { forall c :: |digest(c)| == DIGEST_WIDTH }

  function TrimRunPrefix(runId: string): string {
    if "run_" <= runId then runId[4..] else runId
  }

  function SnapshotId(runId: string, content: string, digest: Digest): string {
    "prompt_" + TrimRunPrefix(runId) + "_" + digest(content)
  }

  /** Ids of different runs never clash, whatever their contents: the digest has a fixed width. */
  lemma SnapshotIdsApart(a: string, ca: string, b: string, cb: string, digest: Digest)
    requires FixedWidth(digest)
    ensures SnapshotId(a, ca, digest) == SnapshotId(b, cb, digest) <==>
            TrimRunPrefix(a) == TrimRunPrefix(b) && digest(ca) == digest(cb)
  {
    var x, y := SnapshotId(a, ca, digest), SnapshotId(b, cb, digest);
    if x == y {
      var s, t := TrimRunPrefix(a), TrimRunPrefix(b);
      assert |s| == |t|;
      assert s == x[7..7 + |s|] && t == y[7..7 + |t|];
      assert digest(ca) == x[8 + |s|..] && digest(cb) == y[8 + |t|..];
    }
  }

  /** How an id looks: the run's id without a leading "run_", and the digest. */
  lemma SnapshotIdLooks(rest: string, content: string, digest: Digest)
    ensures SnapshotId("run_" + rest, content, digest) == "prompt_" + rest + "_" + digest(content)
    ensures !("run_" <= rest) ==> SnapshotId(rest, content, digest) == "prompt_" + rest + "_" + digest(content)
  {
    assert ("run_" + rest)[4..] == rest;
  }

  /** Calls between their two lock holds keep a copy of their run. last: the
      snapshot most recently stored for a run, kept for the statements only. */
  datatype State = State(table: Table, snaps: map<string, Snapshot>, building: map<nat, Run>, last: map<string, Snapshot>)

  const INITIAL := State(EMPTY_TABLE, map[], map[], map[])

  datatype Step =
    | RunStep(step: Runs.Step)
    | BeginServe(call: nat, runId: string)
    | FinishServe(call: nat, agentId: string, content: string, now: int)

  datatype Answer = NotFound | Hit(snapshot: Snapshot) | MustBuild(run: Run)

  /** The first lock hold. */
  function Look(s: State, runId: string): Answer {
    if runId !in s.table.runs then NotFound
    else
      var run := s.table.runs[runId];
      if run.snapshotId != "" && run.snapshotId in s.snaps then Hit(s.snaps[run.snapshotId])
      else MustBuild(run)
  }

  function Build(run: Run, agentId: string, content: string, now: int, digest: Digest): Snapshot {
    Snapshot(if run.snapshotId != "" then run.snapshotId else SnapshotId(run.id, content, digest),
             run.id, OrElse(agentId, run.agentId), content, now)
  }

  /** The second lock hold. */
  function Store(s: State, runId: string, snapshot: Snapshot): State {
    var runs := s.table.runs;
    s.(table := if runId in runs then s.table.(runs := runs[runId := runs[runId].(snapshotId := snapshot.id)]) else s.table,
       snaps := s.snaps[snapshot.id := snapshot],
       last := s.last[runId := snapshot])
  }

  ghost function Apply(s: State, step: Step, digest: Digest): State {
    match step
    case RunStep(r) => s.(table := Runs.Apply(s.table, r))
    case BeginServe(call, runId) =>
      if call !in s.building && Look(s, runId).MustBuild? then s.(building := s.building[call := Look(s, runId).run]) else s
    case FinishServe(call, agentId, content, now) =>
      if call in s.building then
        var run := s.building[call];
        Store(s.(building := s.building - {call}), run.id, Build(run, agentId, content, now, digest))
      else s
  }

  ghost function After(h: History<Step>, digest: Digest): State {
    match h
    case Empty => INITIAL
    case Then(before, step) => Apply(After(before, digest), step, digest)
  }

  /** Run ids differ even without their "run_" prefix. */
  ghost predicate ApartWhenTrimmed(runs: map<string, Run>) {
    forall a, b :: a in runs && b in runs && TrimRunPrefix(a) == TrimRunPrefix(b) ==> a == b
  }

  ghost predicate Plausible(h: History<Step>, digest: Digest) {
    match h
    case Empty => true
    case Then(before, step) =>
      && Plausible(before, digest)
      && (step.RunStep? ==> Drawn(After(before, digest).table, step.step))
      && ApartWhenTrimmed(After(h, digest).table.runs)
  }

  /** The class of GetLaunchPromptSnapshot's two lock holds, over the run table's run map. */
  class SnapshotStore {
    var runs: map<string, Run>
    var promptSnaps: map<string, Snapshot>

    constructor (runs: map<string, Run>)
      ensures this.runs == runs && promptSnaps == map[]
    {
      this.runs, promptSnaps := runs, map[];
    }

    /** With no other call in between: look, build if need be, store, answer. */
    method GetLaunchPromptSnapshot(runId: string, agentId: string, content: string, now: int, digest: Digest)
      returns (snapshot: Option<Snapshot>)
      requires forall id :: id in runs ==> runs[id].id == id
      modifies this
      ensures var s := State(EMPTY_TABLE.(runs := old(runs)), old(promptSnaps), map[], map[]);
              match Look(s, runId)
              case NotFound => snapshot == None && runs == old(runs) && promptSnaps == old(promptSnaps)
              case Hit(found) => snapshot == Some(found) && runs == old(runs) && promptSnaps == old(promptSnaps)
              case MustBuild(run) =>
                var built := Build(run, agentId, content, now, digest);
                && snapshot == Some(built)
                && runs == Store(s, runId, built).table.runs && promptSnaps == Store(s, runId, built).snaps
      ensures snapshot.Some? ==> runId in runs
      ensures snapshot.Some? && (old(runs)[runId].snapshotId == "" || old(runs)[runId].snapshotId !in old(promptSnaps)) ==>
                var run := old(runs)[runId];
                && snapshot.value.content == content && snapshot.value.runId == runId && snapshot.value.created == now
                && snapshot.value.agentId == (if agentId != "" then agentId else run.agentId)
                && (run.snapshotId != "" ==> snapshot.value.id == run.snapshotId)
                && (run.snapshotId == "" ==> snapshot.value.id == SnapshotId(runId, content, digest))
                && promptSnaps == old(promptSnaps)[snapshot.value.id := snapshot.value]
                && runs == old(runs)[runId := run.(snapshotId := snapshot.value.id)]
    {
      if runId !in runs {
        return None;
      }
      var run := runs[runId];
      if run.snapshotId != "" {
        if run.snapshotId in promptSnaps {
          return Some(promptSnaps[run.snapshotId]);
        }
      }
      var id := SnapshotId(run.id, content, digest);
      if run.snapshotId != "" {
        id := run.snapshotId;
      }
      var built := Snapshot(id, run.id, OrElse(agentId, run.agentId), content, now);
      runs := runs[runId := run.(snapshotId := id)];
      promptSnaps := promptSnaps[id := built];
      snapshot := Some(built);
    }
  }

  // ---- what every reachable state satisfies ----

  /** A run's snapshot id always points at the snapshot last stored for it. */
  ghost predicate PointsAtLast(s: State) {
    forall id :: id in s.table.runs && s.table.runs[id].snapshotId != "" ==>
      id in s.last && s.table.runs[id].snapshotId in s.snaps && s.snaps[s.table.runs[id].snapshotId] == s.last[id]
  }

  ghost predicate Named(s: State, digest: Digest) {
    && Keyed(s.table)
    && (forall c :: c in s.building ==> s.building[c].id in s.table.runs && s.building[c].snapshotId == "")
    && (forall id :: id in s.last ==> id in s.table.runs && s.last[id].runId == id &&
                                      s.last[id].id == SnapshotId(id, s.last[id].content, digest))
    && (forall id :: id in s.table.runs ==> (s.table.runs[id].snapshotId == if id in s.last then s.last[id].id else ""))
  }

  lemma RunStepKeeps(s: State, r: Runs.Step, digest: Digest)
    requires Named(s, digest) && PointsAtLast(s) && Drawn(s.table, r)
    ensures Named(Apply(s, RunStep(r), digest), digest) && PointsAtLast(Apply(s, RunStep(r), digest))
  {
  }

  lemma StoreKeepsNamed(s: State, run: Run, snapshot: Snapshot, digest: Digest)
    requires Named(s, digest) && run.id in s.table.runs && snapshot.runId == run.id
    requires snapshot.id == SnapshotId(run.id, snapshot.content, digest)
    ensures Named(Store(s, run.id, snapshot), digest)
  {
  }

  lemma StoreKeepsPointing(s: State, run: Run, snapshot: Snapshot, digest: Digest)
    requires FixedWidth(digest) && Named(s, digest) && PointsAtLast(s) && ApartWhenTrimmed(s.table.runs)
    requires run.id in s.table.runs && snapshot.id == SnapshotId(run.id, snapshot.content, digest)
    ensures PointsAtLast(Store(s, run.id, snapshot))
  {
    var s' := Store(s, run.id, snapshot);
    forall id | id in s'.table.runs && s'.table.runs[id].snapshotId != ""
      ensures id in s'.last && s'.table.runs[id].snapshotId in s'.snaps && s'.snaps[s'.table.runs[id].snapshotId] == s'.last[id]
    {
      if id != run.id {
        assert s'.table.runs[id] == s.table.runs[id] && id in s.last;
        SnapshotIdsApart(id, s.last[id].content, run.id, snapshot.content, digest);
      }
    }
  }

  lemma FinishKeeps(s: State, call: nat, agentId: string, content: string, now: int, digest: Digest)
    requires FixedWidth(digest) && Named(s, digest) && PointsAtLast(s) && ApartWhenTrimmed(s.table.runs) && call in s.building
    ensures var s' := Apply(s, FinishServe(call, agentId, content, now), digest); Named(s', digest) && PointsAtLast(s')
  {
    var run := s.building[call];
    var idle := s.(building := s.building - {call});
    var snapshot := Build(run, agentId, content, now, digest);
    StoreKeepsNamed(idle, run, snapshot, digest);
    StoreKeepsPointing(idle, run, snapshot, digest);
  }

  lemma {:induction false} Invariant(h: History<Step>, digest: Digest)
    requires FixedWidth(digest) && Plausible(h, digest)
    ensures Named(After(h, digest), digest) && PointsAtLast(After(h, digest)) && ApartWhenTrimmed(After(h, digest).table.runs)
  {
    match h
    case Empty =>
    case Then(before, step) =>
      Invariant(before, digest);
      var s := After(before, digest);
      match step {
        case RunStep(r) => RunStepKeeps(s, r, digest);
        case BeginServe(_, _) =>
        case FinishServe(call, agentId, content, now) =>
          if call in s.building {
            FinishKeeps(s, call, agentId, content, now, digest);
          }
      }
  }

  /** Under any interleaving, a call is answered from the table exactly when a
      snapshot was stored for its run, and then with the one stored last. */
  lemma AnswersWithLastStored(h: History<Step>, runId: string, digest: Digest)
    requires FixedWidth(digest) && Plausible(h, digest) && runId in After(h, digest).table.runs
    ensures var s := After(h, digest);
            Look(s, runId) == if runId in s.last then Hit(s.last[runId]) else MustBuild(s.table.runs[runId])
  {
    Invariant(h, digest);
    var s := After(h, digest);
    assert runId in s.last ==> s.last[runId].id != "";
  }

  /** No call is between its two lock holds for this run. */
  ghost predicate NotBuilding(s: State, runId: string) {
    forall c :: c in s.building ==> s.building[c].id != runId
  }

  lemma StepKeepsLast(s: State, step: Step, runId: string, digest: Digest)
    requires Named(s, digest) && PointsAtLast(s) && runId in s.last && s.last[runId].id != "" && NotBuilding(s, runId)
    ensures var s' := Apply(s, step, digest);
            runId in s'.last && s'.last[runId] == s.last[runId] && NotBuilding(s', runId)
  {
    if step.BeginServe? {
      assert step.runId == runId ==> Look(s, runId).Hit?;
    }
  }

  /** Once a run has a snapshot and no call is still building one for it, every
      later call is given that same snapshot: status updates, claims and the
      snapshots of other runs, atomic or not, change nothing about it. */
  lemma {:induction false} SnapshotStays(h: History<Step>, more: History<Step>, runId: string, digest: Digest)
    requires FixedWidth(digest) && Plausible(Concat(h, more), digest)
    requires runId in After(h, digest).last && NotBuilding(After(h, digest), runId)
    ensures var s := After(Concat(h, more), digest);
            && Look(s, runId) == Hit(After(h, digest).last[runId])
            && runId in s.last && s.last[runId] == After(h, digest).last[runId] && NotBuilding(s, runId)
  {
    if more.Then? {
      var before := Concat(h, more.before);
      SnapshotStays(h, more.before, runId, digest);
      Invariant(before, digest);
      StepKeepsLast(After(before, digest), more.last, runId, digest);
    }
    Invariant(Concat(h, more), digest);
    AnswersWithLastStored(Concat(h, more), runId, digest);
  }

  /** Every call from now on is answered with this snapshot. */
  ghost predicate Stable(h: History<Step>, runId: string, snapshot: Snapshot, digest: Digest) {
    forall more {:trigger Plausible(Concat(h, more), digest)} ::
      Plausible(Concat(h, more), digest) ==> Look(After(Concat(h, more), digest), runId) == Hit(snapshot)
  }

  /** A call that is still building replaces what was stored meanwhile, if its content differs. */
  lemma BuildingReplaces(h: History<Step>, runId: string, call: nat, content: string, digest: Digest) returns (more: History<Step>)
    requires FixedWidth(digest) && Plausible(h, digest) && runId in After(h, digest).last
    requires var s := After(h, digest); call in s.building && s.building[call].id == runId
    ensures Plausible(Concat(h, more), digest)
    ensures Look(After(Concat(h, more), digest), runId).Hit?
    ensures Look(After(Concat(h, more), digest), runId).snapshot.content == content
  {
    more := Then(Empty, FinishServe(call, "", content, 1));
    assert Concat(h, more) == Then(h, more.last);
    Invariant(h, digest);
    var s, s' := After(h, digest), After(Concat(h, more), digest);
    assert s'.table.runs.Keys == s.table.runs.Keys;
    AnswersWithLastStored(Concat(h, more), runId, digest);
  }

  /** A run's stored snapshot is stable exactly if no call is between its two lock holds for the run. */
  lemma SnapshotIsStable(h: History<Step>, runId: string, digest: Digest)
    requires FixedWidth(digest) && Plausible(h, digest) && runId in After(h, digest).last
    ensures Stable(h, runId, After(h, digest).last[runId], digest) <==> NotBuilding(After(h, digest), runId)
  {
    var s := After(h, digest);
    if NotBuilding(s, runId) {
      forall more | Plausible(Concat(h, more), digest) ensures Look(After(Concat(h, more), digest), runId) == Hit(s.last[runId]) {
        SnapshotStays(h, more, runId, digest);
      }
    } else {
      var call :| call in s.building && s.building[call].id == runId;
      var more := BuildingReplaces(h, runId, call, s.last[runId].content + "!", digest);
      assert Look(After(Concat(h, more), digest), runId) != Hit(s.last[runId]);
    }
  }

  /** A run made by a status update, and two calls for its prompt under way at the same time. */
  lemma TwoBuilding(digest: Digest) returns (h: History<Step>)
    requires FixedWidth(digest)
    ensures Plausible(h, digest) && "r1" in After(h, digest).table.runs && After(h, digest).table.runs.Keys == {"r1"}
    ensures var s := After(h, digest); var run := s.table.runs["r1"];
            run.id == "r1" && run.snapshotId == "" && s.snaps == map[] && s.building == map[0 := run, 1 := run] && s.last == map[]
  {
    var update := UpdateStep(UpdateInput("r1", "a", Queued, "", "", "", 1, "e1"), _ => ("c", "p"));
    h := Then(Empty, RunStep(update));
    assert After(Empty, digest) == INITIAL;
    var run := After(h, digest).table.runs["r1"];
    assert After(h, digest).table.runs == map["r1" := run] && run.id == "r1" && run.snapshotId == "";
    h := Then(h, BeginServe(0, "r1"));
    assert After(h, digest).building == map[0 := run];
    h := Then(h, BeginServe(1, "r1"));
  }

  /** Two calls that build at the same time from different contents: the caller
      of the first is answered with a snapshot that no later call is ever given. */
  lemma OverlappingBuildsDiffer(a: string, b: string, digest: Digest) returns (h: History<Step>)
    requires FixedWidth(digest) && a != b
    ensures h.Then? && Plausible(h, digest)
    ensures Look(After(h.before, digest), "r1").Hit? && Look(After(h.before, digest), "r1").snapshot.content == a
    ensures forall more {:trigger Plausible(Concat(h, more), digest)} :: Plausible(Concat(h, more), digest) ==>
              var answer := Look(After(Concat(h, more), digest), "r1");
              answer.Hit? && answer.snapshot.content == b && answer != Look(After(h.before, digest), "r1")
  {
    h := TwoBuilding(digest);
    var run := After(h, digest).table.runs["r1"];
    h := Then(h, FinishServe(0, "", a, 1));
    var first := After(h, digest);
    assert first.last == map["r1" := Build(run, "", a, 1, digest)] && first.building == map[1 := run];
    AnswersWithLastStored(h, "r1", digest);
    h := Then(h, FinishServe(1, "", b, 1));
    var second := After(h, digest);
    assert second.last == map["r1" := Build(run, "", b, 1, digest)] && second.building == map[];
    assert NotBuilding(second, "r1");
    SnapshotIsStable(h, "r1", digest);
  }
}

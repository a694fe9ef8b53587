/** The same protocol with the two reads of replay, reserve, the effect and the
    two writes of remember as separate steps of any number of interleaved calls. */
module IdempotencyRaces {
  import opened Basics
  import opened Histories
  import opened Idempotency

  /** Where a call stands; Granted onwards is past reserve. */
  datatype Stage =
    | Started
    | Looked
    | Missed
    | Granted
    | Effected(response: Response)
    | Cached(response: Response)
    | Finished

  datatype Caller = Caller(id: Id, stage: Stage)

  /** creators: the calls whose reserve made the record; late: those that
      reserve let through because the record was complete; ran: those whose effect has run. */
  datatype State = State(server: Server, callers: map<nat, Caller>, creators: set<nat>, late: set<nat>, ran: set<nat>)

  datatype Step =
    | Begin(caller: nat, id: Id)
    | DoLookup(caller: nat)
    | DoRead(caller: nat, fails: bool)
    | DoReserve(caller: nat, fails: bool)
    | DoEffect(caller: nat, effect: Option<Response>)
    | DoCacheWrite(caller: nat)
    | DoStoreWrite(caller: nat, fails: bool)
    | Restart

  const INITIAL := State(NEW_SERVER, map[], {}, {}, {})

  predicate PastReserve(stage: Stage) { stage.Granted? || stage.Effected? || stage.Cached? }

  predicate Enabled(s: State, step: Step) {
    if step.Restart? then true
    else if step.Begin? then step.caller !in s.callers
    else
      step.caller in s.callers &&
      var stage := s.callers[step.caller].stage;
      match step
      case DoLookup(_) => stage.Started?
      case DoRead(_, _) => stage.Looked?
      case DoReserve(_, _) => stage.Missed?
      case DoEffect(_, _) => stage.Granted?
      case DoCacheWrite(_) => stage.Effected?
      case DoStoreWrite(_, _) => stage.Cached?
      case _ => true
  }

  function Move(s: State, c: nat, stage: Stage): State
    requires c in s.callers
  {
    s.(callers := s.callers[c := s.callers[c].(stage := stage)])
  }

  function Apply(s: State, step: Step): State
    requires Enabled(s, step)
  {
    match step
    case Begin(c, id) => s.(callers := s.callers[c := Caller(id, Started)])
    case DoLookup(c) => Move(s, c, if Lookup(s.server, s.callers[c].id).Some? then Finished else Looked)
    case DoRead(c, fails) => Move(s, c, if ReadRecord(s.server, s.callers[c].id, fails).Some? then Finished else Missed)
    case DoReserve(c, fails) =>
      var (server, grant) := Reserve(s.server, s.callers[c].id, fails);
      match grant {
        case Created => Move(s, c, Granted).(server := server, creators := s.creators + {c})
        case AlreadyComplete => Move(s, c, Granted).(late := s.late + {c})
        case _ => Move(s, c, Finished)
      }
    case DoEffect(c, effect) =>
      Move(s, c, if effect.Some? then Effected(effect.value) else Finished).(ran := s.ran + {c})
    case DoCacheWrite(c) =>
      var r := s.callers[c].stage.response;
      Move(s, c, Cached(r)).(server := CacheWrite(s.server, s.callers[c].id, r))
    case DoStoreWrite(c, fails) =>
      Move(s, c, Finished).(server := StoreWrite(s.server, s.callers[c].id, s.callers[c].stage.response, fails))
    case Restart =>
      s.(server := s.server.(cache := map[]),
         callers := map c | c in s.callers :: s.callers[c].(stage := Finished))
  }

  function Next(s: State, step: Step): State {
    if Enabled(s, step) then Apply(s, step) else s
  }

  function After(h: History<Step>): State {
    match h
    case Empty => INITIAL
    case Then(before, step) => Next(After(before), step)
  }

  ghost predicate Inv(s: State) {
    && s.ran <= s.creators + s.late <= s.callers.Keys
    && (forall c :: c in s.callers && PastReserve(s.callers[c].stage) ==> c in s.creators + s.late)
    && (forall c :: c in s.creators ==> s.callers[c].id in s.server.store)
    && (forall c, d :: c in s.creators && d in s.creators && s.callers[c].id == s.callers[d].id ==> c == d)
    && (forall c :: c in s.late ==> s.callers[c].id in s.server.store && s.server.store[s.callers[c].id].Completed?)
  }

  /** Whose a call is never changes, and no call is forgotten. */
  lemma IdsStay(s: State, step: Step)
    requires Enabled(s, step)
    ensures forall c :: c in s.callers ==> c in Apply(s, step).callers && Apply(s, step).callers[c].id == s.callers[c].id
    ensures forall id :: id in s.server.store ==> id in Apply(s, step).server.store
    ensures forall id :: id in s.server.store && s.server.store[id].Completed? ==> Apply(s, step).server.store[id].Completed?
  {
  }

  lemma ReserveKeepsInv(s: State, c: nat, fails: bool)
    requires Inv(s) && Enabled(s, DoReserve(c, fails))
    ensures Inv(Apply(s, DoReserve(c, fails)))
  {
    var s' := Apply(s, DoReserve(c, fails));
    IdsStay(s, DoReserve(c, fails));
    assert s'.callers.Keys == s.callers.Keys;
    if s'.creators != s.creators {
      assert s.callers[c].id !in s.server.store;
    }
  }

  lemma OtherStepKeepsInv(s: State, step: Step)
    requires Inv(s) && Enabled(s, step) && !step.DoReserve?
    ensures Inv(Apply(s, step))
  {
    var s' := Apply(s, step);
    IdsStay(s, step);
    assert s'.creators == s.creators && s'.late == s.late;
    assert s.callers.Keys <= s'.callers.Keys;
    forall c | c in s'.callers && PastReserve(s'.callers[c].stage) ensures c in s.creators + s.late {
      assert c in s.callers && PastReserve(s.callers[c].stage);
    }
  }

  lemma {:induction false} Invariant(h: History<Step>)
    ensures Inv(After(h))
  {
    match h
    case Empty =>
    case Then(before, step) =>
      Invariant(before);
      if Enabled(After(before), step) {
        if step.DoReserve? {
          ReserveKeepsInv(After(before), step.caller, step.fails);
        } else {
          OtherStepKeepsInv(After(before), step);
        }
      }
  }

  /** While a record is pending, at most one caller is past reserve for its key, and it is the one that made the record. */
  lemma OnePastReserveWhilePending(h: History<Step>, c: nat, d: nat)
    requires var s := After(h);
             && c in s.callers && d in s.callers && s.callers[c].id == s.callers[d].id
             && PastReserve(s.callers[c].stage) && PastReserve(s.callers[d].stage)
             && s.callers[c].id in s.server.store && s.server.store[s.callers[c].id].Pending?
    ensures c == d && c in After(h).creators
  {
    Invariant(h);
  }

  /** A record never disappears and never leaves completed. */
  lemma {:induction false} CompletedForGood(h: History<Step>, more: History<Step>, id: Id)
    requires id in After(h).server.store
    ensures var store := After(Concat(h, more)).server.store;
            id in store && (After(h).server.store[id].Completed? ==> store[id].Completed?)
  {
    match more
    case Empty =>
    case Then(before, _) => CompletedForGood(h, before, id);
  }

  ghost predicate MakerRan(s: State, id: Id) {
    exists d :: d in s.creators && d in s.ran && d in s.callers && s.callers[d].id == id
  }

  ghost predicate Origins(s: State) {
    && s.creators !! s.late
    && (forall c :: c in s.callers && (s.callers[c].stage.Started? || s.callers[c].stage.Looked? || s.callers[c].stage.Missed?) ==> c !in s.creators + s.late)
    && (forall c :: c in s.callers && (s.callers[c].stage.Effected? || s.callers[c].stage.Cached?) ==> c in s.ran)
  }

  ghost predicate CompletedByMaker(s: State) {
    forall id :: id in s.server.store && s.server.store[id].Completed? ==> MakerRan(s, id)
  }

  lemma StepKeepsOrigins(s: State, step: Step)
    requires Inv(s) && Origins(s) && Enabled(s, step)
    ensures Origins(Apply(s, step))
  {
  }

  lemma StepKeepsMaker(s: State, step: Step, id: Id)
    requires Enabled(s, step) && MakerRan(s, id)
    ensures MakerRan(Apply(s, step), id)
  {
    var d :| d in s.creators && d in s.ran && d in s.callers && s.callers[d].id == id;
    assert d in Apply(s, step).callers && Apply(s, step).callers[d].id == id;
  }

  lemma StepKeepsCompletedByMaker(s: State, step: Step)
    requires Inv(s) && Origins(s) && CompletedByMaker(s) && Enabled(s, step)
    ensures CompletedByMaker(Apply(s, step))
  {
    var s' := Apply(s, step);
    forall id | id in s'.server.store && s'.server.store[id].Completed? ensures MakerRan(s', id) {
      if !(id in s.server.store && s.server.store[id].Completed?) {
        assert step.DoStoreWrite? && s.callers[step.caller].id == id;
        assert step.caller in s.creators && step.caller in s.ran;
      }
      StepKeepsMaker(s, step, id);
    }
  }

  lemma {:induction false} OriginsInvariant(h: History<Step>)
    ensures Inv(After(h)) && Origins(After(h)) && CompletedByMaker(After(h))
  {
    Invariant(h);
    match h
    case Empty =>
    case Then(before, step) =>
      OriginsInvariant(before);
      if Enabled(After(before), step) {
        StepKeepsOrigins(After(before), step);
        StepKeepsCompletedByMaker(After(before), step);
      }
  }

  ghost predicate RanTwice(s: State, id: Id) {
    exists c, d :: c in s.ran && d in s.ran && c != d && c in s.callers && d in s.callers && s.callers[c].id == s.callers[d].id == id
  }

  /** The effect runs more than once for a key exactly when some call that
      reserve let through, its record being complete already, ran it. */
  lemma RunsTwiceIffLate(h: History<Step>, id: Id)
    ensures var s := After(h);
            RanTwice(s, id) <==> exists c :: c in s.ran && c in s.late && c in s.callers && s.callers[c].id == id
  {
    OriginsInvariant(h);
    var s := After(h);
    if c :| c in s.ran && c in s.late && c in s.callers && s.callers[c].id == id {
      assert MakerRan(s, id);
      var d :| d in s.creators && d in s.ran && d in s.callers && s.callers[d].id == id;
      assert c != d;
    }
  }

  // ---- callers that are answered ----

  /** A call whose key has an answer in the map, or in the record when it reads
      that, is through: it is not let past reserve, nor does its effect run. */
  lemma AnsweredIsThrough(h: History<Step>, c: nat, step: Step)
    requires Enabled(After(h), step) && (step == DoLookup(c) || step == DoRead(c, false))
    requires var s, id := After(h), After(h).callers[c].id;
             (step.DoLookup? && CacheKey(id.0, id.1) in s.server.cache) ||
             (step.DoRead? && id in s.server.store && s.server.store[id].Completed?)
    ensures var s' := After(Then(h, step)); c in s'.callers && s'.callers[c].stage == Finished && s'.server == After(h).server
  {
  }

  /** What is through stays so, and its effect runs no more. */
  lemma {:induction false} ThroughIsThrough(h: History<Step>, more: History<Step>, c: nat)
    requires c in After(h).callers && After(h).callers[c].stage == Finished
    ensures c in After(Concat(h, more)).callers && After(Concat(h, more)).callers[c].stage == Finished
    ensures c in After(Concat(h, more)).ran <==> c in After(h).ran
  {
    match more
    case Empty =>
    case Then(before, _) => ThroughIsThrough(h, before, c);
  }

  /** Every effect counts as run, one that ends in an error reply too; such a call writes nothing. */
  lemma EffectCounts(h: History<Step>, c: nat, effect: Option<Response>)
    requires Enabled(After(h), DoEffect(c, effect))
    ensures var s, s' := After(h), After(Then(h, DoEffect(c, effect)));
            && s'.ran == s.ran + {c} && s'.server == s.server && c in s'.callers
            && s'.callers[c].stage == if effect == None then Finished else Effected(effect.value)
  {
  }

  // ---- whether a completed record keeps its response ----

  ghost predicate MakersPending(s: State) {
    forall c :: c in s.creators && c in s.callers && PastReserve(s.callers[c].stage) ==>
      s.callers[c].id in s.server.store && s.server.store[s.callers[c].id].Pending?
  }

  lemma StepKeepsMakersPending(s: State, step: Step)
    requires Inv(s) && Origins(s) && MakersPending(s) && Enabled(s, step)
    ensures MakersPending(Apply(s, step))
  {
    var s' := Apply(s, step);
    forall c | c in s'.creators && c in s'.callers && PastReserve(s'.callers[c].stage)
      ensures s'.callers[c].id in s'.server.store && s'.server.store[s'.callers[c].id].Pending?
    {
      if step.DoStoreWrite? && step.caller != c {
        assert step.caller in s.creators + s.late;
      }
    }
  }

  lemma {:induction false} AlwaysMakersPending(h: History<Step>)
    ensures Inv(After(h)) && MakersPending(After(h))
  {
    Invariant(h);
    match h
    case Empty =>
    case Then(before, step) =>
      AlwaysMakersPending(before);
      OriginsInvariant(before);
      if Enabled(After(before), step) {
        StepKeepsMakersPending(After(before), step);
      }
  }

  /** A call that reserve let through after completion writes another response to the record. */
  predicate LateWrite(s: State, step: Step, id: Id) {
    && step.DoStoreWrite? && !step.fails
    && step.caller in s.late && step.caller in s.callers
    && s.callers[step.caller].id == id && s.callers[step.caller].stage.Cached?
    && id in s.server.store && s.server.store[id] != Completed(s.callers[step.caller].stage.response)
  }

  /** A completed record changes its response exactly by such a write. */
  lemma ResponseChangesIff(h: History<Step>, step: Step, id: Id)
    requires id in After(h).server.store && After(h).server.store[id].Completed?
    ensures var store' := After(Then(h, step)).server.store;
            id in store' && (store'[id] != After(h).server.store[id] <==> LateWrite(After(h), step, id))
  {
    AlwaysMakersPending(h);
  }

  predicate EverLateWrite(h: History<Step>, more: History<Step>, id: Id) {
    match more
    case Empty => false
    case Then(before, step) => EverLateWrite(h, before, id) || LateWrite(After(Concat(h, before)), step, id)
  }

  /** Without one, whatever else is interleaved, the response stays. */
  lemma {:induction false} ResponseStays(h: History<Step>, more: History<Step>, id: Id)
    requires id in After(h).server.store && After(h).server.store[id].Completed? && !EverLateWrite(h, more, id)
    ensures var store := After(Concat(h, more)).server.store; id in store && store[id] == After(h).server.store[id]
  {
    match more
    case Empty =>
    case Then(before, step) =>
      ResponseStays(h, before, id);
      ResponseChangesIff(Concat(h, before), step, id);
  }

  // ---- what callers are answered ----

  /** No method name has a colon. */
  ghost predicate RealMethods(h: History<Step>) {
    match h
    case Empty => true
    case Then(before, step) => RealMethods(before) && (step.Begin? ==> ':' !in step.id.0)
  }

  ghost predicate RealCallers(s: State) {
    forall c :: c in s.callers ==> ':' !in s.callers[c].id.0
  }

  lemma {:induction false} AlwaysRealCallers(h: History<Step>)
    requires RealMethods(h)
    ensures RealCallers(After(h))
  {
    match h
    case Empty =>
    case Then(before, _) => AlwaysRealCallers(before);
  }

  ghost predicate CachedIsMapped(s: State) {
    forall c :: c in s.callers && s.callers[c].stage.Cached? ==> Lookup(s.server, s.callers[c].id).Some?
  }

  lemma StepKeepsMapped(s: State, step: Step, c: nat)
    requires CachedIsMapped(s) && Enabled(s, step) && c in Apply(s, step).callers && Apply(s, step).callers[c].stage.Cached?
    ensures Lookup(Apply(s, step).server, Apply(s, step).callers[c].id).Some?
  {
  }

  lemma {:induction false} AlwaysCachedIsMapped(h: History<Step>)
    ensures CachedIsMapped(After(h))
  {
    match h
    case Empty =>
    case Then(before, step) =>
      AlwaysCachedIsMapped(before);
      var s := After(before);
      if Enabled(s, step) {
        forall c | c in After(h).callers && After(h).callers[c].stage.Cached? ensures Lookup(After(h).server, After(h).callers[c].id).Some? {
          StepKeepsMapped(s, step, c);
        }
      }
  }

  /** What a call of the key is answered now, if it is. */
  function Answer(s: State, id: Id): Option<Response> { Replay(s.server, id, false) }

  /** A caller that reserve let through after completion writes another response to the map. */
  predicate LateMapWrite(s: State, step: Step, id: Id) {
    && step.DoCacheWrite? && Enabled(s, step)
    && step.caller in s.late && s.callers[step.caller].id == id
    && Answer(s, id) != Some(s.callers[step.caller].stage.response)
  }

  /** The map is lost while it differs from the record. */
  predicate Reverts(s: State, step: Step, id: Id) {
    step.Restart? && Answer(s, id) != ReadRecord(s.server, id, false)
  }

  /** The answer for a key with a completed record changes exactly when a late
      caller writes a different one to the map, or when the server restarts
      with such a one in the map that did not get to the record. */
  lemma AnswerChangesIff(h: History<Step>, step: Step, id: Id)
    requires RealMethods(h) && ':' !in id.0
    requires id in After(h).server.store && After(h).server.store[id].Completed?
    ensures Answer(After(Then(h, step)), id) != Answer(After(h), id) <==>
            LateMapWrite(After(h), step, id) || Reverts(After(h), step, id)
  {
    AlwaysMakersPending(h);
    AlwaysRealCallers(h);
    AlwaysCachedIsMapped(h);
    var s := After(h);
    if step.DoCacheWrite? && Enabled(s, step) {
      CacheKeyInjective(id.0, id.1, s.callers[step.caller].id.0, s.callers[step.caller].id.1);
    }
  }

  predicate EverAnswerMoves(h: History<Step>, more: History<Step>, id: Id) {
    match more
    case Empty => false
    case Then(before, step) =>
      EverAnswerMoves(h, before, id) ||
      LateMapWrite(After(Concat(h, before)), step, id) || Reverts(After(Concat(h, before)), step, id)
  }

  /** Without either, whatever else is interleaved, everybody gets the same answer. */
  lemma {:induction false} AnswerStays(h: History<Step>, more: History<Step>, id: Id)
    requires RealMethods(Concat(h, more)) && ':' !in id.0 && !EverAnswerMoves(h, more, id)
    requires id in After(h).server.store && After(h).server.store[id].Completed?
    ensures Answer(After(Concat(h, more)), id) == Answer(After(h), id)
  {
    match more
    case Empty =>
    case Then(before, step) =>
      AnswerStays(h, before, id);
      CompletedForGood(h, before, id);
      AnswerChangesIff(Concat(h, before), step, id);
  }

  // ---- keys that are stuck ----

  /** The record is pending, the map has no entry, and nobody past reserve is left to change that. */
  ghost predicate StuckFor(s: State, id: Id) {
    && Stuck(s.server, id)
    && forall c :: c in s.callers && s.callers[c].id == id ==> !PastReserve(s.callers[c].stage)
  }

  ghost predicate NeverAnswered(h: History<Step>, id: Id) {
    forall more {:trigger RealMethods(more)} :: RealMethods(more) ==> Answer(After(Concat(h, more)), id) == None
  }

  lemma StepKeepsStuck(s: State, step: Step, id: Id)
    requires Enabled(s, step) && StuckFor(s, id) && RealCallers(s) && ':' !in id.0
    ensures StuckFor(Apply(s, step), id)
  {
    if step.DoCacheWrite? {
      CacheKeyInjective(id.0, id.1, s.callers[step.caller].id.0, s.callers[step.caller].id.1);
    }
  }

  lemma {:induction false} StaysStuck(h: History<Step>, more: History<Step>, id: Id)
    requires RealMethods(h) && RealMethods(more) && StuckFor(After(h), id) && ':' !in id.0
    ensures StuckFor(After(Concat(h, more)), id) && RealMethods(Concat(h, more))
  {
    match more
    case Empty =>
    case Then(before, step) =>
      StaysStuck(h, before, id);
      AlwaysRealCallers(Concat(h, before));
      if Enabled(After(Concat(h, before)), step) {
        StepKeepsStuck(After(Concat(h, before)), step, id);
      }
  }

  /** Whoever is past reserve can still get the key answered. */
  lemma HolderAnswers(h: History<Step>, c: nat) returns (more: History<Step>)
    requires c in After(h).callers && PastReserve(After(h).callers[c].stage)
    ensures RealMethods(more) && Answer(After(Concat(h, more)), After(h).callers[c].id).Some?
  {
    more := Empty;
    assert Concat(h, more) == h;
    var id := After(h).callers[c].id;
    if After(h).callers[c].stage.Granted? {
      more := Then(more, DoEffect(c, Some("{}")));
    }
    if !After(h).callers[c].stage.Cached? {
      assert After(Concat(h, more)).callers[c].stage.Effected? && After(Concat(h, more)).callers[c].id == id;
      more := Then(more, DoCacheWrite(c));
    } else {
      AlwaysCachedIsMapped(h);
    }
  }

  /** A first call of the key can get it answered. */
  lemma FirstCallReserves(h: History<Step>, id: Id) returns (more: History<Step>, c: nat)
    requires id !in After(h).server.store && Lookup(After(h).server, id).None? && ':' !in id.0
    ensures RealMethods(more)
    ensures var s := After(Concat(h, more)); c in s.callers && s.callers[c] == Caller(id, Granted)
  {
    var s := After(h);
    c := FreeNumber(s.callers.Keys);
    more := Then(Empty, Begin(c, id));
    assert RealMethods(Empty) && Concat(h, more) == Then(h, Begin(c, id));
    assert After(Concat(h, more)) == s.(callers := s.callers[c := Caller(id, Started)]);
    more := Then(more, DoLookup(c));
    assert After(Concat(h, more)) == s.(callers := s.callers[c := Caller(id, Looked)]);
    assert RealMethods(more);
    more := Then(more, DoRead(c, false));
    assert After(Concat(h, more)) == s.(callers := s.callers[c := Caller(id, Missed)]);
    more := Then(more, DoReserve(c, false));
  }

  lemma {:induction false} ConcatTwice(h: History<Step>, more: History<Step>, last: History<Step>)
    ensures Concat(h, Concat(more, last)) == Concat(Concat(h, more), last)
    ensures RealMethods(Concat(more, last)) <==> RealMethods(more) && RealMethods(last)
  {
    if last.Then? {
      ConcatTwice(h, more, last.before);
    }
  }

  lemma CanBeAnswered(h: History<Step>, id: Id) returns (more: History<Step>)
    requires !StuckFor(After(h), id) && ':' !in id.0
    ensures RealMethods(more) && Answer(After(Concat(h, more)), id).Some?
  {
    var s := After(h);
    if Answer(s, id).Some? {
      more := Empty;
    } else if c :| c in s.callers && s.callers[c].id == id && PastReserve(s.callers[c].stage) {
      more := HolderAnswers(h, c);
    } else {
      var first, c := FirstCallReserves(h, id);
      var last := HolderAnswers(Concat(h, first), c);
      ConcatTwice(h, first, last);
      more := Concat(first, last);
    }
  }

  /** Under any interleaving: a key is never answered again exactly if its record
      is pending, the map has no entry and no call of it is past reserve. */
  lemma NeverAnsweredIff(h: History<Step>, id: Id)
    requires RealMethods(h) && ':' !in id.0
    ensures NeverAnswered(h, id) <==> StuckFor(After(h), id)
  {
    if StuckFor(After(h), id) {
      forall more | RealMethods(more) ensures Answer(After(Concat(h, more)), id) == None {
        StaysStuck(h, more, id);
      }
    } else {
      var more := CanBeAnswered(h, id);
    }
  }

  /** Two calls of one key that both find neither map entry nor record. */
  lemma BothMissed(id: Id) returns (h: History<Step>)
    ensures After(h) == INITIAL.(callers := map[0 := Caller(id, Missed), 1 := Caller(id, Missed)])
  {
    h := Then(Empty, Begin(0, id));
    assert After(h) == INITIAL.(callers := map[0 := Caller(id, Started)]);
    h := Then(h, DoLookup(0));
    assert After(h) == INITIAL.(callers := map[0 := Caller(id, Looked)]);
    h := Then(h, DoRead(0, false));
    assert After(h) == INITIAL.(callers := map[0 := Caller(id, Missed)]);
    h := Then(h, Begin(1, id));
    assert After(h) == INITIAL.(callers := map[0 := Caller(id, Missed), 1 := Caller(id, Started)]);
    h := Then(h, DoLookup(1));
    assert After(h) == INITIAL.(callers := map[0 := Caller(id, Missed), 1 := Caller(id, Looked)]);
    h := Then(h, DoRead(1, false));
  }

  /** A state a run can reach in which call 0 is complete and call 1 missed its replay before that. */
  lemma FirstCallDone(id: Id, r: Response) returns (h: History<Step>)
    ensures var s := After(h);
            && s.server == Server(map[CacheKey(id.0, id.1) := r], map[id := Completed(r)]) && s.callers.Keys == {0, 1}
            && s.callers[1] == Caller(id, Missed) && s.callers[0] == Caller(id, Finished)
            && s.ran == {0} && s.creators == {0} && s.late == {}
  {
    h := BothMissed(id);
    h := Then(h, DoReserve(0, false));
    h := Then(h, DoEffect(0, Some(r)));
    assert After(h) == State(Server(map[], map[id := Pending]),
                             map[0 := Caller(id, Effected(r)), 1 := Caller(id, Missed)], {0}, {}, {0});
    h := Then(h, DoCacheWrite(0));
    h := Then(h, DoStoreWrite(0, false));
  }

  /** It does happen: a caller that missed its replay early, and reserves after the completion. */
  lemma LateCallerRunsAgain(id: Id, r: Response) returns (h: History<Step>)
    ensures var s := After(h);
            0 in s.ran && 1 in s.ran && 0 in s.callers && 1 in s.callers && s.callers[0].id == s.callers[1].id == id
    ensures After(h).late == {1}
  {
    h := FirstCallDone(id, r);
    h := Then(h, DoReserve(1, false));
    assert After(h).callers[1].stage == Granted;
    h := Then(h, DoEffect(1, Some(r)));
  }

  /** From there on call 1 is let through, and writes another response to the map. */
  lemma LateCallerCached(h: History<Step>, id: Id, r: Response, other: Response) returns (late: History<Step>)
    requires var s := After(h);
             && s.server == Server(map[CacheKey(id.0, id.1) := r], map[id := Completed(r)]) && s.callers.Keys == {0, 1}
             && s.callers[1] == Caller(id, Missed) && s.ran == {0} && s.creators == {0} && s.late == {}
    ensures After(Concat(h, late)) == State(Server(map[CacheKey(id.0, id.1) := other], map[id := Completed(r)]),
                                            After(h).callers[1 := Caller(id, Cached(other))], {0}, {1}, {0, 1})
    ensures !EverLateWrite(h, late, id)
  {
    var done := After(h);
    late := Then(Empty, DoReserve(1, false));
    assert Concat(h, late) == Then(h, late.last);
    assert After(Concat(h, late)) == done.(callers := done.callers[1 := Caller(id, Granted)], late := {1});
    assert !EverLateWrite(h, late, id);
    late := Then(late, DoEffect(1, Some(other)));
    assert After(Concat(h, late)) == done.(callers := done.callers[1 := Caller(id, Effected(other))], late := {1}, ran := {0, 1});
    late := Then(late, DoCacheWrite(1));
  }

  /** And then the answer to everybody changes: calls got r, and from then on get other. */
  lemma LateCallerOverwrites(id: Id, r: Response, other: Response) returns (h: History<Step>, late: History<Step>)
    requires r != other
    ensures After(h).server.store == map[id := Completed(r)]
    ensures Replay(After(h).server, id, false) == Some(r)
    ensures Replay(After(Concat(h, late)).server, id, false) == Some(other)
    ensures EverLateWrite(h, late, id)
    ensures After(Concat(h, late)).server.store == map[id := Completed(other)]
  {
    h := FirstCallDone(id, r);
    late := LateCallerCached(h, id, r, other);
    late := Then(late, DoStoreWrite(1, false));
    assert LateWrite(After(Concat(h, late.before)), late.last, id);
  }

  /** The same with the record's write failing: the record keeps r, everybody is
      answered other, and a restart turns the answer back to r. */
  lemma LateCallerFlickers(id: Id, r: Response, other: Response) returns (h: History<Step>, late: History<Step>)
    requires r != other
    ensures Answer(After(h), id) == Some(r) && After(h).server.store == map[id := Completed(r)]
    ensures !EverLateWrite(h, late, id) && After(Concat(h, late)).server.store == map[id := Completed(r)]
    ensures Answer(After(Concat(h, late)), id) == Some(other)
    ensures Answer(After(Concat(h, Then(late, Step.Restart))), id) == Some(r)
  {
    h := FirstCallDone(id, r);
    late := LateCallerCached(h, id, r, other);
    late := Then(late, DoStoreWrite(1, true));
  }
}

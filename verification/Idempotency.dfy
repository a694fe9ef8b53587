/** Idempotent calls: replay, reserve, remember. A map in memory speeds up a
    durable table of records; the table inserts a record only if the key has
    none, and completing a record sets its response. */
module Idempotency {
  import opened Basics
  import opened Histories

  /** A marshaled response, which is never empty. */
  type Response = s: string | s != "" witness "{}"

  datatype Record = Pending | Completed(response: Response)

  type Id = (string, string)

  datatype Server = Server(cache: map<string, Response>, store: map<Id, Record>)

  const NEW_SERVER := Server(map[], map[])

  /** The caller's idempotency key, or failing that its request id. */
  function CallKey(requestId: string, idempotencyKey: string): string {
    if idempotencyKey != "" then idempotencyKey else requestId
  }

  function CacheKey(method_: string, key: string): string { method_ + ":" + key }

  /** The key of the map identifies method and key exactly, as no method name has a colon. */
  lemma {:induction false} CacheKeyInjective(m1: string, k1: string, m2: string, k2: string)
    requires ':' !in m1 && ':' !in m2
    ensures CacheKey(m1, k1) == CacheKey(m2, k2) <==> m1 == m2 && k1 == k2
  {
    var a, b := CacheKey(m1, k1), CacheKey(m2, k2);
    if a == b {
      assert a[|m1|] == ':' && b[|m2|] == ':';
      assert forall i :: 0 <= i < |m1| ==> a[i] == m1[i] && m1[i] in m1;
      assert forall i :: 0 <= i < |m2| ==> b[i] == m2[i] && m2[i] in m2;
      assert m1 == a[..|m1|] && m2 == b[..|m2|];
      assert k1 == a[|m1| + 1..] && k2 == b[|m2| + 1..];
    }
  }

  // ---- the three parts, one lock hold or store call each ----

  datatype Grant = Created | AlreadyComplete | InProgress | StoreFault

  /** The map, under the lock. */
  function Lookup(s: Server, id: Id): Option<Response> {
    var ck := CacheKey(id.0, id.1);
    if ck in s.cache then Some(s.cache[ck]) else None
  }

  /** The table. */
  function ReadRecord(s: Server, id: Id, fails: bool): Option<Response> {
    if !fails && id in s.store && s.store[id].Completed? then Some(s.store[id].response) else None
  }

  function Replay(s: Server, id: Id, readFails: bool): Option<Response> {
    if Lookup(s, id).Some? then Lookup(s, id) else ReadRecord(s, id, readFails)
  }

  function Reserve(s: Server, id: Id, fails: bool): (Server, Grant) {
    if fails then (s, StoreFault)
    else if id !in s.store then (s.(store := s.store[id := Pending]), Created)
    else if s.store[id].Completed? then (s, AlreadyComplete)
    else (s, InProgress)
  }

  function CacheWrite(s: Server, id: Id, r: Response): Server {
    s.(cache := s.cache[CacheKey(id.0, id.1) := r])
  }

  function StoreWrite(s: Server, id: Id, r: Response, fails: bool): Server {
    if fails || id !in s.store then s else s.(store := s.store[id := Completed(r)])
  }

  class IdempotentServer {
    var idempotency: map<string, Response>
    var records: map<Id, Record>

    function State(): Server
      reads this
    {
      Server(idempotency, records)
    }

    constructor ()
      ensures State() == NEW_SERVER
    {
      idempotency, records := map[], map[];
    }

    method ReplayCall(method_: string, requestId: string, idempotencyKey: string, readFails: bool)
      returns (r: Option<Response>)
      ensures idempotencyKey != "" ==> r == Replay(State(), (method_, idempotencyKey), readFails)
      ensures idempotencyKey == "" && requestId != "" ==> r == Replay(State(), (method_, requestId), readFails)
      ensures idempotencyKey == "" && requestId == "" ==> r == None
    {
      var key := CallKey(requestId, idempotencyKey);
      if key == "" {
        return None;
      }
      var cacheKey := CacheKey(method_, key);
      if cacheKey in idempotency {
        return Some(idempotency[cacheKey]);
      }
      if readFails || (method_, key) !in records || records[(method_, key)].Pending? {
        return None;
      }
      return Some(records[(method_, key)].response);
    }

    method ReserveCall(method_: string, requestId: string, idempotencyKey: string, fails: bool) returns (proceed: bool)
      modifies this
      ensures idempotency == old(idempotency)
      ensures requestId == "" && idempotencyKey == "" ==> proceed && records == old(records)
      ensures (requestId != "" || idempotencyKey != "") && fails ==> !proceed && records == old(records)
      ensures (requestId != "" || idempotencyKey != "") && !fails ==>
                var id := (method_, if idempotencyKey != "" then idempotencyKey else requestId);
                && (proceed <==> id !in old(records) || old(records)[id].Completed?)
                && records == if id in old(records) then old(records) else old(records)[id := Pending]
      ensures requestId != "" || idempotencyKey != "" ==>
                var (s, g) := Reserve(old(State()), (method_, if idempotencyKey != "" then idempotencyKey else requestId), fails);
                State() == s && (proceed <==> g == Created || g == AlreadyComplete)
    {
      var key := CallKey(requestId, idempotencyKey);
      if key == "" {
        return true;
      }
      if fails {
        return false;
      }
      var id := (method_, key);
      if id !in records {
        records := records[id := Pending];
        return true;
      }
      return records[id].Completed?;
    }

    method RememberCall(method_: string, requestId: string, idempotencyKey: string, response: Response, writeFails: bool)
      modifies this
      ensures requestId == "" && idempotencyKey == "" ==> State() == old(State())
      ensures requestId != "" || idempotencyKey != "" ==>
                var id := (method_, if idempotencyKey != "" then idempotencyKey else requestId);
                && idempotency == old(idempotency)[method_ + ":" + id.1 := response]
                && records == (if writeFails || id !in old(records) then old(records) else old(records)[id := Completed(response)])
                && State() == StoreWrite(CacheWrite(old(State()), id, response), id, response, writeFails)
    {
      var key := CallKey(requestId, idempotencyKey);
      if key == "" {
        return;
      }
      idempotency := idempotency[CacheKey(method_, key) := response];
      if !writeFails && (method_, key) in records {
        records := records[(method_, key) := Completed(response)];
      }
    }
  }

  // ---- retries ----

  /** A keyed call that went through, and its retry: the idempotency key alone
      identifies them, so the retry is given the remembered response under any
      request id, and would make no second record. */
  method RetryWithKey(s: IdempotentServer, m: string, first: string, second: string, key: string, response: Response, readFails: bool)
    returns (proceed: bool, replayed: Option<Response>)
    requires key != ""
    modifies s
    ensures proceed ==> replayed == Some(response) && s.records.Keys == old(s.records).Keys + {(m, key)}
    ensures proceed ==> s.records[(m, key)] == Completed(response)
  {
    proceed := s.ReserveCall(m, first, key, false);
    if proceed {
      s.RememberCall(m, first, key, response, false);
      replayed := s.ReplayCall(m, second, key, readFails);
      var _ := s.ReserveCall(m, second, key, false);
    } else {
      replayed := None;
    }
  }

  /** Without a key, the request id plays that part. */
  method RetryWithRequestId(s: IdempotentServer, m: string, request: string, response: Response, readFails: bool)
    returns (proceed: bool, replayed: Option<Response>)
    requires request != ""
    modifies s
    ensures proceed ==> replayed == Some(response) && s.records.Keys == old(s.records).Keys + {(m, request)}
    ensures proceed ==> s.records[(m, request)] == Completed(response)
  {
    proceed := s.ReserveCall(m, request, "", false);
    if proceed {
      s.RememberCall(m, request, "", response, false);
      replayed := s.ReplayCall(m, request, "", readFails);
      var _ := s.ReserveCall(m, request, "", false);
    } else {
      replayed := None;
    }
  }

  /** Another call never shares the answer: what is remembered for one method and
      key leaves what every other method or key is answered as it was. */
  method OtherKeysKeepTheirAnswer(s: IdempotentServer, m: string, request: string, key: string, response: Response, writeFails: bool,
                                  other: string, otherRequest: string, otherKey: string, readFails: bool)
    returns (before: Option<Response>, after: Option<Response>)
    requires ':' !in m && ':' !in other && key != "" && otherKey != "" && (m != other || key != otherKey)
    modifies s
    ensures after == before
  {
    CacheKeyInjective(m, key, other, otherKey);
    before := s.ReplayCall(other, otherRequest, otherKey, readFails);
    s.RememberCall(m, request, key, response, writeFails);
    after := s.ReplayCall(other, otherRequest, otherKey, readFails);
  }

  // ---- whole calls, one at a time, and restarts ----

  datatype Outcome = Replayed(response: Response) | Refused | Failed | Replied(response: Response)

  /** Which store calls fail, and what the method itself does: None is an error reply. */
  datatype Circumstance = Circumstance(readFails: bool, reserveFails: bool, writeFails: bool, effect: Option<Response>)

  datatype Result = Result(server: Server, outcome: Outcome, ran: bool)

  /** One keyed call: the effect runs exactly when ran is set. */
  function Call(s: Server, id: Id, c: Circumstance): Result {
    var replayed := Replay(s, id, c.readFails);
    if replayed.Some? then Result(s, Replayed(replayed.value), false)
    else
      var (s1, grant) := Reserve(s, id, c.reserveFails);
      if grant == InProgress || grant == StoreFault then Result(s1, Refused, false)
      else if c.effect.None? then Result(s1, Failed, true)
      else Result(StoreWrite(CacheWrite(s1, id, c.effect.value), id, c.effect.value, c.writeFails), Replied(c.effect.value), true)
  }

  datatype Op = CallOp(id: Id, c: Circumstance) | Restart

  /** The server and the ids whose effect has run, in order. */
  datatype World = World(server: Server, ran: seq<Id>)

  function Perform(w: World, op: Op): World {
    match op
    case Restart => w.(server := w.server.(cache := map[]))
    case CallOp(id, c) =>
      var r := Call(w.server, id, c);
      World(r.server, if r.ran then w.ran + [id] else w.ran)
  }

  function After(h: History<Op>): World {
    match h
    case Empty => World(NEW_SERVER, [])
    case Then(before, op) => Perform(After(before), op)
  }

  /** No method name has a colon. */
  ghost predicate RealMethods(h: History<Op>) {
    match h
    case Empty => true
    case Then(before, op) => RealMethods(before) && (op.CallOp? ==> ':' !in op.id.0)
  }

  /** The table could be read whenever the id was called; other ids may fail. */
  ghost predicate ReadsWork(h: History<Op>, id: Id) {
    match h
    case Empty => true
    case Then(before, op) => ReadsWork(before, id) && (op.CallOp? && op.id == id ==> !op.c.readFails)
  }

  // ---- how often an effect runs ----

  /** Reserve lets a call of a completed record through: the map has no entry
      for it, and the table could not be read but could be written. */
  predicate LetThrough(s: Server, id: Id, c: Circumstance) {
    id in s.store && s.store[id].Completed? && CacheKey(id.0, id.1) !in s.cache && c.readFails && !c.reserveFails
  }

  predicate EverLetThrough(h: History<Op>, id: Id) {
    match h
    case Empty => false
    case Then(before, op) => EverLetThrough(before, id) || (op.CallOp? && op.id == id && LetThrough(After(before).server, id, op.c))
  }

  predicate RunsOnce(ran: seq<Id>, id: Id) {
    forall i, j :: 0 <= i < j < |ran| && ran[i] == id ==> ran[j] != id
  }

  ghost predicate RecordsTellRuns(w: World) {
    && (forall id :: id in w.ran ==> id in w.server.store)
    && (forall id :: id in w.server.store && w.server.store[id].Completed? ==> id in w.ran)
  }

  lemma RunsIff(s: Server, id: Id, c: Circumstance)
    ensures Call(s, id, c).ran <==>
            LetThrough(s, id, c) || (id !in s.store && CacheKey(id.0, id.1) !in s.cache && !c.reserveFails)
  {
  }

  lemma CallKeepsRecords(w: World, op: Op)
    requires RecordsTellRuns(w)
    ensures RecordsTellRuns(Perform(w, op))
  {
  }

  lemma RanAppend(ran: seq<Id>, id: Id, x: Id)
    ensures RunsOnce(ran + [x], id) <==> RunsOnce(ran, id) && (x == id ==> id !in ran)
  {
    var all := ran + [x];
    if RunsOnce(all, id) {
      forall i, j | 0 <= i < j < |ran| && ran[i] == id ensures ran[j] != id {
        assert all[i] == ran[i] && all[j] == ran[j];
      }
      forall i | 0 <= i < |ran| && x == id ensures ran[i] != id {
        assert all[i] == ran[i] && all[|ran|] == x;
      }
    }
  }

  /** Over every history of calls and restarts, an effect runs more than once for
      a method and key exactly if some call of it was let through, its record
      being complete, the map empty of it and the read failing. */
  lemma {:induction false} AtMostOnceIff(h: History<Op>, id: Id)
    ensures RecordsTellRuns(After(h))
    ensures RunsOnce(After(h).ran, id) <==> !EverLetThrough(h, id)
  {
    match h
    case Empty =>
    case Then(before, op) =>
      AtMostOnceIff(before, id);
      var w := After(before);
      CallKeepsRecords(w, op);
      if op.CallOp? {
        RunsIff(w.server, op.id, op.c);
        RanAppend(w.ran, id, op.id);
      }
  }

  /** So while the table can be read for it, an effect runs at most once. */
  lemma {:induction false} AtMostOnce(h: History<Op>, id: Id)
    requires ReadsWork(h, id)
    ensures RunsOnce(After(h).ran, id)
  {
    match h
    case Empty =>
    case Then(before, op) =>
      AtMostOnce(before, id);
      AtMostOnceIff(before, id);
      AtMostOnceIff(h, id);
  }

  lemma ReadFailureRunsTwice(id: Id, r: Response)
    ensures var fine := Circumstance(false, false, false, Some(r));
            var h := Then(Then(Then(Empty, CallOp(id, fine)), Restart), CallOp(id, fine.(readFails := true)));
            After(h).ran == [id, id]
  {
    var fine := Circumstance(false, false, false, Some(r));
    var first := Call(NEW_SERVER, id, fine);
    assert first.ran && first.server.store[id] == Completed(r);
    var restarted := first.server.(cache := map[]);
    assert After(Then(Then(Empty, CallOp(id, fine)), Restart)) == World(restarted, [id]) by {
      assert After(Empty) == World(NEW_SERVER, []);
      assert After(Then(Empty, CallOp(id, fine))) == World(first.server, [] + [id]);
    }
    assert Call(restarted, id, fine.(readFails := true)).ran;
  }

  // ---- what is answered ----

  /** The map entry, if any, belongs to a record and never contradicts it once complete. */
  ghost predicate Faithful(s: Server, id: Id) {
    CacheKey(id.0, id.1) in s.cache ==>
      id in s.store && (s.store[id].Completed? ==> s.store[id].response == s.cache[CacheKey(id.0, id.1)])
  }

  /** Some call of it was answered and could not complete its record. */
  ghost predicate EverUnrecorded(h: History<Op>, id: Id) {
    match h
    case Empty => false
    case Then(before, op) => EverUnrecorded(before, id) || (op.CallOp? && op.id == id && op.c.writeFails)
  }

  /** Any call, of this id or another, with a failing completion write or not. */
  lemma CallKeepsFaithful(s: Server, id: Id, called: Id, c: Circumstance)
    requires Faithful(s, id) && ':' !in id.0 && ':' !in called.0 && (called == id ==> !LetThrough(s, id, c))
    ensures Faithful(Call(s, called, c).server, id)
  {
    CacheKeyInjective(id.0, id.1, called.0, called.1);
  }

  /** Over every history, an entry of the map is the completed record of exactly
      its method and key, or that record is pending because completing it failed. */
  lemma {:induction false} CacheIsFaithful(h: History<Op>, id: Id)
    requires RealMethods(h) && !EverLetThrough(h, id) && ':' !in id.0
    ensures Faithful(After(h).server, id)
    ensures var s, ck := After(h).server, CacheKey(id.0, id.1);
            ck in s.cache ==> id in s.store && (s.store[id] == Completed(s.cache[ck]) || (s.store[id].Pending? && EverUnrecorded(h, id)))
  {
    match h
    case Empty =>
    case Then(before, op) =>
      CacheIsFaithful(before, id);
      if op.CallOp? {
        CacheKeyInjective(op.id.0, op.id.1, id.0, id.1);
        CallKeepsFaithful(After(before).server, id, op.id, op.c);
      }
  }

  lemma StepKeepsRecord(w: World, op: Op, id: Id)
    requires id in w.server.store && w.server.store[id].Completed? && (op.CallOp? && op.id == id ==> !LetThrough(w.server, id, op.c))
    ensures var store := Perform(w, op).server.store; id in store && store[id] == w.server.store[id]
  {
  }

  lemma {:induction false} RecordStays(h: History<Op>, more: History<Op>, id: Id)
    requires !EverLetThrough(Concat(h, more), id) && id in After(h).server.store && After(h).server.store[id].Completed?
    ensures var store := After(Concat(h, more)).server.store; id in store && store[id] == After(h).server.store[id]
  {
    match more
    case Empty =>
    case Then(before, op) =>
      RecordStays(h, before, id);
      StepKeepsRecord(After(Concat(h, before)), op, id);
  }

  /** Once its record is complete, whatever happens after, restarts, failing reads
      and writes and calls of other keys included, a method and key get that same
      answer and asking changes nothing, as long as no call of it was let through. */
  lemma AnswerIsStable(h: History<Op>, more: History<Op>, id: Id, again: Circumstance)
    requires RealMethods(Concat(h, more)) && !EverLetThrough(Concat(h, more), id) && ':' !in id.0 && !again.readFails
    requires id in After(h).server.store && After(h).server.store[id].Completed?
    ensures var s := After(Concat(h, more)).server;
            && id in s.store && s.store[id] == After(h).server.store[id]
            && Call(s, id, again) == Result(s, Replayed(s.store[id].response), false)
  {
    RecordStays(h, more, id);
    CacheIsFaithful(Concat(h, more), id);
  }

  ghost predicate AlwaysAnswered(h: History<Op>, id: Id, r: Response) {
    forall more: History<Op>, again: Circumstance {:trigger Call(After(Concat(h, more)).server, id, again)} ::
      RealMethods(Concat(h, more)) && !EverLetThrough(Concat(h, more), id) && !again.readFails ==>
      Call(After(Concat(h, more)).server, id, again).outcome == Replayed(r)
  }

  /** And only then: an answer is given for good exactly if it is the record's. */
  lemma AnswerIsStableIff(h: History<Op>, id: Id, r: Response)
    requires RealMethods(h) && !EverLetThrough(h, id) && ':' !in id.0
    ensures AlwaysAnswered(h, id, r) <==> id in After(h).server.store && After(h).server.store[id] == Completed(r)
  {
    if id in After(h).server.store && After(h).server.store[id] == Completed(r) {
      forall more: History<Op>, again: Circumstance | RealMethods(Concat(h, more)) && !EverLetThrough(Concat(h, more), id) && !again.readFails
        ensures Call(After(Concat(h, more)).server, id, again).outcome == Replayed(r)
      {
        AnswerIsStable(h, more, id, again);
      }
    } else {
      var more, again := Then(Empty, Restart), Circumstance(false, false, false, None);
      assert Concat(h, more) == Then(h, Restart);
      assert Call(After(Concat(h, more)).server, id, again).outcome != Replayed(r);
    }
  }

  // ---- records left pending ----

  predicate Stuck(s: Server, id: Id) {
    id in s.store && s.store[id].Pending? && CacheKey(id.0, id.1) !in s.cache
  }

  lemma RefusedIff(s: Server, id: Id)
    ensures (forall c :: Call(s, id, c).outcome == Refused) <==> Stuck(s, id)
  {
    var fine := Circumstance(false, false, false, None);
    assert Call(s, id, fine).outcome == Refused <==> Stuck(s, id);
  }

  lemma {:induction false} StuckStays(h: History<Op>, more: History<Op>, id: Id)
    requires ':' !in id.0 && RealMethods(more) && Stuck(After(h).server, id)
    ensures Stuck(After(Concat(h, more)).server, id)
  {
    match more
    case Empty =>
    case Then(before, op) =>
      StuckStays(h, before, id);
      if op.CallOp? {
        CacheKeyInjective(id.0, id.1, op.id.0, op.id.1);
      }
  }

  ghost predicate RefusedForEver(h: History<Op>, id: Id) {
    forall more: History<Op>, c: Circumstance {:trigger Call(After(Concat(h, more)).server, id, c)} ::
      RealMethods(more) ==> Call(After(Concat(h, more)).server, id, c).outcome == Refused
  }

  /** A key is refused for ever exactly when its record is pending and the map has no entry for it. */
  lemma PendingIsStuck(h: History<Op>, id: Id)
    requires ':' !in id.0
    ensures RefusedForEver(h, id) <==> Stuck(After(h).server, id)
  {
    if Stuck(After(h).server, id) {
      forall more, c | RealMethods(more) ensures Call(After(Concat(h, more)).server, id, c).outcome == Refused {
        StuckStays(h, more, id);
        RefusedIff(After(Concat(h, more)).server, id);
      }
    } else {
      RefusedIff(After(h).server, id);
      var c :| Call(After(h).server, id, c).outcome != Refused;
      assert Concat(h, Empty) == h;
      assert Call(After(Concat(h, Empty)).server, id, c).outcome != Refused;
    }
  }

  /** It happens: at once after an error reply, and after an answer whose record
      could not be completed as soon as the server restarts. */
  lemma FailuresGetStuck(id: Id, r: Response)
    requires ':' !in id.0
    ensures RefusedForEver(Then(Empty, CallOp(id, Circumstance(false, false, false, None))), id)
    ensures var answered := CallOp(id, Circumstance(false, false, true, Some(r)));
            !RefusedForEver(Then(Empty, answered), id) && RefusedForEver(Then(Then(Empty, answered), Restart), id)
  {
    var failed, answered := CallOp(id, Circumstance(false, false, false, None)), CallOp(id, Circumstance(false, false, true, Some(r)));
    assert After(Empty) == World(NEW_SERVER, []);
    assert Stuck(After(Then(Empty, failed)).server, id);
    PendingIsStuck(Then(Empty, failed), id);
    PendingIsStuck(Then(Empty, answered), id);
    PendingIsStuck(Then(Then(Empty, answered), Restart), id);
  }
}

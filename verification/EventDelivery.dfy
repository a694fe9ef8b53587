/** Server event queue, event streams and daemon acknowledgements, composed as
    interleaved atomic steps. Any number of subscriptions come and go; streams
    break at any point; handling fails; acknowledgements are lost, late or
    repeated. */
module EventDelivery {
  import opened Basics
  import opened Histories
  import opened ServerEvents

  /** The server's side of one subscription: batch is what the current tick has
      yet to send, out what was sent after the ping, due the ids queued and
      matching at the latest tick. */
  datatype Stream = Stream(req: Request, sent: set<string>, batch: seq<Event>, out: seq<Event>, due: set<string>)

  /** A stream and the daemon loop reading it: wire is what the daemon has yet to
      receive, inHand the event it has handled and not yet acknowledged. */
  datatype Session = Session(live: bool, stream: Stream, wire: seq<Event>, inHand: Option<string>)

  /** ever: every event queued so far; handled: the ids some daemon has handled
      without error; acks: acknowledgements on their way. */
  datatype State = State(queue: Queue, ever: map<string, Event>, pings: set<string>,
                         handled: set<string>, acks: set<string>, sessions: map<nat, Session>)

  datatype Step =
    | Enqueue(event: Event, freshId: string)
    | TakeSequence
    | Subscribe(sid: nat, req: Request, pingId: string)
    | Tick(sid: nat, pending: seq<Event>)
    | Send(sid: nat)
    | Break(sid: nat, leaked: bool)
    | DropWire(sid: nat)
    | Handle(sid: nat, ok: bool)
    | SendAck(sid: nat)
    | ApplyAck(id: string)

  const INITIAL := State(Queue(0, map[]), map[], {}, {}, {}, map[])

  function PingEvent(id: string, sequence: int, computerId: string): Event {
    Event(id, sequence, computerId, computerId, Ping, OtherOperation, NoPayload)
  }

  /** Ids come from a 128-bit random source; they are taken never to repeat. */
  ghost predicate FreshId(s: State, id: string) {
    id != "" && id !in s.ever && id !in s.pings
  }

  ghost predicate Enabled(s: State, step: Step) {
    match step
    case Enqueue(e, id) => e.id == "" && e.sequence == 0 && FreshId(s, id)
    case TakeSequence => true
    case Subscribe(sid, _, id) => sid !in s.sessions && FreshId(s, id)
    case Tick(sid, pending) =>
      sid in s.sessions && s.sessions[sid].live && s.sessions[sid].stream.batch == [] &&
      IsPending(s.queue, s.sessions[sid].stream.req, s.sessions[sid].stream.sent, pending)
    case Send(sid) => sid in s.sessions && s.sessions[sid].live && s.sessions[sid].stream.batch != []
    case Break(sid, _) => sid in s.sessions && s.sessions[sid].live
    case DropWire(sid) => sid in s.sessions && !s.sessions[sid].live
    case Handle(sid, _) => sid in s.sessions && s.sessions[sid].wire != [] && s.sessions[sid].inHand.None?
    case SendAck(sid) => sid in s.sessions && s.sessions[sid].inHand.Some?
    case ApplyAck(id) => id in s.acks
  }

  /** The ids queued and matching: what a fresh subscription is owed. */
  ghost function MatchingIds(q: Queue, req: Request): set<string> {
    set id | id in q.events && Matches(req, q.events[id])
  }

  ghost function Ids(es: seq<Event>): set<string> { set e | e in es :: e.id }

  ghost function Ticked(q: Queue, c: Stream, pending: seq<Event>): Stream {
    c.(batch := pending, due := MatchingIds(q, c.req))
  }

  function SentOne(c: Stream): Stream
    requires c.batch != []
  {
    c.(batch := c.batch[1..], out := c.out + [c.batch[0]], sent := c.sent + {c.batch[0].id})
  }

  function With(s: State, sid: nat, session: Session): State {
    s.(sessions := s.sessions[sid := session])
  }

  ghost function Apply(s: State, step: Step): State
    requires Enabled(s, step)
  {
    match step
    case Enqueue(e, id) =>
      s.(queue := Enqueued(s.queue, e, id), ever := s.ever[id := Numbered(s.queue, e, id)])
    case TakeSequence => s.(queue := s.queue.(eventSeq := s.queue.eventSeq + 1))
    case Subscribe(sid, req, id) =>
      var n := s.queue.eventSeq + 1;
      With(s.(queue := s.queue.(eventSeq := n), pings := s.pings + {id}), sid,
           Session(true, Stream(req, {}, [], [], {}), [PingEvent(id, n, req.computerId)], None))
    case Tick(sid, pending) =>
      var c := s.sessions[sid];
      With(s, sid, c.(stream := Ticked(s.queue, c.stream, pending)))
    case Send(sid) =>
      var c := s.sessions[sid];
      With(s, sid, c.(stream := SentOne(c.stream), wire := c.wire + [c.stream.batch[0]]))
    case Break(sid, leaked) =>
      // A failed Send may still have reached the daemon.
      var c := s.sessions[sid];
      With(s, sid, c.(live := false, wire := if leaked && c.stream.batch != [] then c.wire + [c.stream.batch[0]] else c.wire))
    case DropWire(sid) => With(s, sid, s.sessions[sid].(wire := []))
    case Handle(sid, ok) =>
      var c := s.sessions[sid];
      var e := c.wire[0];
      if ok then With(s.(handled := s.handled + {e.id}), sid, c.(wire := c.wire[1..], inHand := Some(e.id)))
      else With(s, sid, c.(wire := c.wire[1..]))
    case SendAck(sid) =>
      var c := s.sessions[sid];
      With(s.(acks := s.acks + {c.inHand.value}), sid, c.(inHand := None))
    case ApplyAck(id) => s.(queue := s.queue.(events := s.queue.events - {id}))
  }

  /** Every history is a run: a step that is not enabled does nothing. */
  ghost function Next(s: State, step: Step): State {
    if Enabled(s, step) then Apply(s, step) else s
  }

  ghost function After(h: History<Step>): State {
    match h
    case Empty => INITIAL
    case Then(before, step) => Next(After(before), step)
  }

  // ---- what every reachable state satisfies ----

  /** Each event ever queued is still queued, or was handled without error; only handled ids are acknowledged. */
  ghost predicate NothingLost(s: State) {
    && (forall id :: id in s.ever ==> (id in s.queue.events && s.queue.events[id] == s.ever[id]) || id in s.handled)
    && s.acks <= s.handled
    && (forall sid :: sid in s.sessions && s.sessions[sid].inHand.Some? ==> s.sessions[sid].inHand.value in s.handled)
  }

  ghost predicate Numbering(s: State) {
    && (forall id :: id in s.ever ==> s.ever[id].id == id && 0 < s.ever[id].sequence <= s.queue.eventSeq)
    && (forall a, b :: a in s.ever && b in s.ever && a != b ==> s.ever[a].sequence != s.ever[b].sequence)
    && (forall id :: id in s.queue.events ==> id in s.ever && s.ever[id] == s.queue.events[id])
  }

  /** Whatever a daemon receives or has handled is an event once queued, or a ping. */
  ghost predicate Known(s: State) {
    && s.handled <= s.ever.Keys + s.pings
    && (forall sid, e :: sid in s.sessions && e in s.sessions[sid].wire ==> e.id in s.ever.Keys + s.pings)
  }

  /** The stream's own order: what was sent, then what this tick has yet to
      send, is strictly increasing, and anything that a later tick may add
      comes after all of it. */
  ghost predicate StreamOrder(q: Queue, ever: map<string, Event>, c: Stream) {
    var all := c.out + c.batch;
    && Increasing(all)
    && c.sent == Ids(c.out)
    && (forall e :: e in all ==> e.id in ever && ever[e.id] == e && Matches(c.req, e))
    && (forall id, x :: id in q.events && Matches(c.req, q.events[id]) && q.events[id] !in all && x in all ==>
          x.sequence < q.events[id].sequence)
    && c.due <= Ids(all)
  }

  ghost predicate Ordered(s: State) {
    forall sid :: sid in s.sessions ==> StreamOrder(s.queue, s.ever, s.sessions[sid].stream)
  }

  ghost predicate Inv(s: State) {
    NothingLost(s) && Numbering(s) && Known(s) && Ordered(s)
  }

  lemma TickKeepsOrder(q: Queue, ever: map<string, Event>, c: Stream, pending: seq<Event>)
    requires forall id :: id in q.events ==> id in ever && ever[id] == q.events[id] && ever[id].id == id
    requires StreamOrder(q, ever, c) && c.batch == [] && IsPending(q, c.req, c.sent, pending)
    ensures StreamOrder(q, ever, Ticked(q, c, pending))
  {
    assert c.out + c.batch == c.out;
    var all := c.out + pending;
    forall id | id in MatchingIds(q, c.req) ensures q.events[id] in all && id in Ids(all) {
      if id in c.sent {
        var x :| x in c.out && x.id == id;
        assert x == q.events[id];
      }
      assert q.events[id] in all;
    }
    forall e | e in pending ensures e !in c.out {
      assert e in c.out ==> e.id in Ids(c.out);
    }
    forall i, j | 0 <= i < j < |all| ensures all[i].sequence < all[j].sequence {
      if i < |c.out| <= j {
        assert pending[j - |c.out|] !in c.out;
      }
    }
  }

  lemma SendKeepsOrder(q: Queue, ever: map<string, Event>, c: Stream)
    requires StreamOrder(q, ever, c) && c.batch != []
    ensures StreamOrder(q, ever, SentOne(c))
    ensures c.batch[0].id in ever
  {
    assert c.batch[0] in c.out + c.batch;
    assert (c.out + [c.batch[0]]) + c.batch[1..] == c.out + c.batch;
    assert Ids(c.out + [c.batch[0]]) == Ids(c.out) + {c.batch[0].id};
  }

  /** A new event is numbered beyond everything a stream has sent or is sending; acknowledging only shrinks the queue. */
  lemma QueueStepKeepsOrder(s: State, step: Step, c: Stream)
    requires Numbering(s) && Enabled(s, step)
    requires step.Enqueue? || step.TakeSequence? || step.Subscribe? || step.ApplyAck?
    requires StreamOrder(s.queue, s.ever, c)
    ensures var s' := Apply(s, step); StreamOrder(s'.queue, s'.ever, c)
  {
  }

  lemma StreamStepKeepsOrder(s: State, step: Step, sid: nat)
    requires Numbering(s) && Ordered(s) && Enabled(s, step) && sid in s.sessions
    requires !(step.Enqueue? || step.TakeSequence? || step.Subscribe? || step.ApplyAck?)
    ensures sid in Apply(s, step).sessions && StreamOrder(s.queue, s.ever, Apply(s, step).sessions[sid].stream)
  {
    var c := s.sessions[sid].stream;
    if step.Tick? && step.sid == sid {
      TickKeepsOrder(s.queue, s.ever, c, step.pending);
    } else if step.Send? && step.sid == sid {
      SendKeepsOrder(s.queue, s.ever, c);
    }
  }

  lemma StepKeepsOrdered(s: State, step: Step)
    requires Numbering(s) && Ordered(s) && Enabled(s, step)
    ensures Ordered(Apply(s, step))
  {
    var s' := Apply(s, step);
    forall sid | sid in s'.sessions ensures StreamOrder(s'.queue, s'.ever, s'.sessions[sid].stream) {
      if sid in s.sessions {
        var c := s.sessions[sid].stream;
        if step.Enqueue? || step.TakeSequence? || step.Subscribe? || step.ApplyAck? {
          QueueStepKeepsOrder(s, step, c);
        } else {
          StreamStepKeepsOrder(s, step, sid);
        }
      }
    }
  }

  lemma StepKeepsNumbering(s: State, step: Step)
    requires Numbering(s) && Enabled(s, step)
    ensures Numbering(Apply(s, step))
  {
  }

  lemma StepKeepsKnown(s: State, step: Step)
    requires Known(s) && Ordered(s) && Enabled(s, step)
    ensures Known(Apply(s, step))
  {
    var s' := Apply(s, step);
    assert s.ever.Keys + s.pings <= s'.ever.Keys + s'.pings;
    forall sid, e | sid in s'.sessions && e in s'.sessions[sid].wire ensures e.id in s'.ever.Keys + s'.pings {
      if sid in s.sessions && e !in s.sessions[sid].wire {
        SendKeepsOrder(s.queue, s.ever, s.sessions[sid].stream);
      }
    }
  }

  lemma StepKeepsNothingLost(s: State, step: Step)
    requires NothingLost(s) && Numbering(s) && Enabled(s, step)
    ensures NothingLost(Apply(s, step))
  {
  }

  lemma {:induction false} Invariant(h: History<Step>)
    ensures Inv(After(h))
  {
    match h
    case Empty =>
    case Then(before, step) =>
      Invariant(before);
      if Enabled(After(before), step) {
        StepKeepsOrdered(After(before), step);
        StepKeepsNumbering(After(before), step);
        StepKeepsKnown(After(before), step);
        StepKeepsNothingLost(After(before), step);
      }
  }

  // ---- the guarantees ----

  /** At least once: whatever breaks, every event ever queued is still in the
      queue, unchanged, or some daemon handled it without error. */
  lemma AtLeastOnce(h: History<Step>, id: string)
    requires id in After(h).ever
    ensures var s := After(h);
            (id in s.queue.events && s.queue.events[id] == s.ever[id]) || id in s.handled
  {
    Invariant(h);
  }

  lemma OnlyAcksRemove(s: State, step: Step, id: string)
    requires Enabled(s, step) && id in s.queue.events && id !in Apply(s, step).queue.events
    ensures step == ApplyAck(id)
  {
  }

  /** Removal happens only by an acknowledgement, and only of a handled event. */
  lemma RemovedOnlyOnceHandled(h: History<Step>, step: Step, id: string)
    requires id in After(h).queue.events && id !in After(Then(h, step)).queue.events
    ensures step == ApplyAck(id) && id in After(h).acks && id in After(h).handled
  {
    Invariant(h);
    OnlyAcksRemove(After(h), step, id);
  }

  /** Over a whole subscription: sequences strictly increase (so nothing is
      sent twice), only matching events go out, and whenever a tick has sent
      its batch, every matching event queued at that tick has been sent. */
  lemma SubscriptionOrder(h: History<Step>, sid: nat)
    requires sid in After(h).sessions
    ensures var c := After(h).sessions[sid].stream;
            && Increasing(c.out)
            && (forall i, j :: 0 <= i < j < |c.out| ==> c.out[i].id != c.out[j].id)
            && (forall e :: e in c.out ==> e.id in After(h).ever && After(h).ever[e.id] == e && Matches(c.req, e))
            && (c.batch == [] ==> c.due <= Ids(c.out))
  {
    Invariant(h);
    var c := After(h).sessions[sid].stream;
    assert c.out == (c.out + c.batch)[..|c.out|];
    if c.batch == [] {
      assert c.out + c.batch == c.out;
    }
  }

  /** The first tick of a subscription offers every matching event still queued. */
  lemma FreshSubscriptionOffersAll(h: History<Step>, sid: nat, pending: seq<Event>)
    requires Enabled(After(h), Tick(sid, pending))
    requires After(h).sessions[sid].stream.out == []
    ensures Ids(pending) == MatchingIds(After(h).queue, After(h).sessions[sid].stream.req)
  {
    Invariant(h);
    var s := After(h);
    forall id | id in MatchingIds(s.queue, s.sessions[sid].stream.req) ensures id in Ids(pending) {
      assert s.queue.events[id] in pending;
    }
  }

  /** What a daemon asks for: controls, messages and runs of every agent. */
  function DaemonRequest(computerId: string): Request {
    Request(computerId, [AgentControl, ServerEvents.Message, RunAssigned], true, false, [], [])
  }

  /** So a daemon is offered at every tick exactly the queued controls, messages
      and runs not yet sent to it, whatever computer or agent they are for. */
  lemma DaemonIsOffered(h: History<Step>, sid: nat, pending: seq<Event>, computerId: string, id: string)
    requires Enabled(After(h), Tick(sid, pending)) && After(h).sessions[sid].stream.req == DaemonRequest(computerId)
    requires id in After(h).queue.events && id !in After(h).sessions[sid].stream.sent
    ensures var e := After(h).queue.events[id];
            e in pending <==> e.kind == AgentControl || e.kind == ServerEvents.Message || e.kind == RunAssigned
  {
    OfferedWithAll(After(h).queue, DaemonRequest(computerId), After(h).sessions[sid].stream.sent, pending, id);
  }

  /** A subscription opens with a ping of its own number, meant for the computer that asked. */
  lemma SubscriptionPings(h: History<Step>, sid: nat, req: Request, pingId: string)
    requires Enabled(After(h), Subscribe(sid, req, pingId))
    ensures var s, s' := After(h), After(Then(h, Subscribe(sid, req, pingId)));
            && sid in s'.sessions && s'.sessions[sid].live && s'.sessions[sid].stream.req == req
            && s'.sessions[sid].stream.sent == {} && s'.sessions[sid].stream.out == []
            && |s'.sessions[sid].wire| == 1
            && var ping := s'.sessions[sid].wire[0];
               && ping.id == pingId && ping.kind == Ping && ping.sequence == s.queue.eventSeq + 1 == s'.queue.eventSeq
               && ping.aggregateId == ping.target == req.computerId
  {
  }

  /** What a tick offers after the first: a matching event that was sent in
      this subscription is not offered again, even if handling it failed. */
  lemma NotOfferedAgain(h: History<Step>, sid: nat, pending: seq<Event>, e: Event)
    requires Enabled(After(h), Tick(sid, pending))
    requires e in After(h).sessions[sid].stream.out
    ensures e !in pending
  {
    Invariant(h);
    assert e.id in Ids(After(h).sessions[sid].stream.out);
  }

  // ---- what reaches a daemon ----

  /** What a step puts on a stream: the ping, an event sent, or one that got through although sending it failed. */
  function PutBy(s: State, step: Step, sid: nat): seq<Event>
    requires Enabled(s, step)
  {
    match step
    case Subscribe(x, req, id) => if x == sid then [PingEvent(id, s.queue.eventSeq + 1, req.computerId)] else []
    case Send(x) => if x == sid then [s.sessions[sid].stream.batch[0]] else []
    case Break(x, leaked) => if x == sid && leaked && s.sessions[sid].stream.batch != [] then [s.sessions[sid].stream.batch[0]] else []
    case _ => []
  }

  /** What a step takes off a stream to handle it. */
  function TakenBy(s: State, step: Step, sid: nat): seq<Event>
    requires Enabled(s, step)
  {
    if step == Handle(sid, true) || step == Handle(sid, false) then [s.sessions[sid].wire[0]] else []
  }

  /** All that was put on a stream, in order. */
  ghost function Put(h: History<Step>, sid: nat): seq<Event> {
    match h
    case Empty => []
    case Then(before, step) => Put(before, sid) + if Enabled(After(before), step) then PutBy(After(before), step, sid) else []
  }

  /** All that was taken off it, in order. */
  ghost function Taken(h: History<Step>, sid: nat): seq<Event> {
    match h
    case Empty => []
    case Then(before, step) => Taken(before, sid) + if Enabled(After(before), step) then TakenBy(After(before), step, sid) else []
  }

  ghost predicate Dropped(h: History<Step>, sid: nat) {
    match h
    case Empty => false
    case Then(before, step) => Dropped(before, sid) || (step == DropWire(sid) && Enabled(After(before), step))
  }

  /** What was put on a stream is a ping, all that counts as sent, and perhaps a leak at the end. */
  predicate StreamSoFar(c: Session, put: seq<Event>) {
    && put != [] && put[0].kind == Ping
    && c.stream.out <= put[1..]
    && |put| <= |c.stream.out| + (if c.live then 1 else 2)
  }

  ghost predicate WireSoFar(c: Session, dropped: bool, put: seq<Event>, taken: seq<Event>) {
    if dropped then taken <= put && c.wire == [] && !c.live else taken + c.wire == put
  }

  lemma StepKeepsStream(s: State, step: Step, sid: nat, put: seq<Event>)
    requires Enabled(s, step) && sid in s.sessions && StreamSoFar(s.sessions[sid], put)
    ensures sid in Apply(s, step).sessions && StreamSoFar(Apply(s, step).sessions[sid], put + PutBy(s, step, sid))
  {
    var all := put + PutBy(s, step, sid);
    assert all[1..] == put[1..] + PutBy(s, step, sid);
  }

  lemma StepKeepsWire(s: State, step: Step, sid: nat, dropped: bool, put: seq<Event>, taken: seq<Event>)
    requires Enabled(s, step) && sid in s.sessions && WireSoFar(s.sessions[sid], dropped, put, taken)
    ensures sid in Apply(s, step).sessions
    ensures WireSoFar(Apply(s, step).sessions[sid], dropped || step == DropWire(sid), put + PutBy(s, step, sid), taken + TakenBy(s, step, sid))
  {
    if !dropped && step != DropWire(sid) {
      assert (taken + TakenBy(s, step, sid)) + Apply(s, step).sessions[sid].wire == put + PutBy(s, step, sid);
    }
  }

  lemma SubscribeStarts(s: State, step: Step, sid: nat)
    requires Enabled(s, step) && sid !in s.sessions
    ensures if sid in Apply(s, step).sessions
            then StreamSoFar(Apply(s, step).sessions[sid], PutBy(s, step, sid)) && Apply(s, step).sessions[sid].wire == PutBy(s, step, sid) &&
                 step != DropWire(sid)
            else PutBy(s, step, sid) == []
    ensures TakenBy(s, step, sid) == []
  {
  }

  lemma {:induction false} StreamHistory(h: History<Step>, sid: nat)
    ensures if sid in After(h).sessions
            then StreamSoFar(After(h).sessions[sid], Put(h, sid)) && WireSoFar(After(h).sessions[sid], Dropped(h, sid), Put(h, sid), Taken(h, sid))
            else Put(h, sid) == [] && Taken(h, sid) == [] && !Dropped(h, sid)
  {
    match h
    case Empty =>
    case Then(before, step) =>
      StreamHistory(before, sid);
      var s := After(before);
      if Enabled(s, step) {
        if sid in s.sessions {
          StepKeepsStream(s, step, sid, Put(before, sid));
          StepKeepsWire(s, step, sid, Dropped(before, sid), Put(before, sid), Taken(before, sid));
        } else {
          SubscribeStarts(s, step, sid);
        }
      }
  }

  /** A stream is first in, first out, and loses nothing until it is given up: a
      daemon takes off it exactly what was put on it, in that order, but for what is
      still on the wire or was dropped with it. What is put on it is a ping, then the
      events sent, and at most one more that got through as it broke. */
  lemma StreamIsFifo(h: History<Step>, sid: nat)
    requires sid in After(h).sessions
    ensures Taken(h, sid) <= Put(h, sid)
    ensures !Dropped(h, sid) ==> Taken(h, sid) + After(h).sessions[sid].wire == Put(h, sid)
    ensures var c, put := After(h).sessions[sid], Put(h, sid);
            && put != [] && put[0].kind == Ping && c.stream.out <= put[1..]
            && |put| - 1 - |c.stream.out| <= if c.live then 0 else 1
  {
    StreamHistory(h, sid);
  }

  // ---- every event can still get through ----

  lemma LongerThanAll(ss: set<string>) returns (n: nat)
    ensures forall x :: x in ss ==> |x| < n
  {
    if ss == {} {
      n := 0;
    } else {
      var x :| x in ss;
      n := LongerThanAll(ss - {x});
      assert forall y :: y in ss ==> y == x || y in ss - {x};
      n := if n <= |x| then |x| + 1 else n;
    }
  }

  lemma FreshIdExists(s: State) returns (id: string)
    ensures FreshId(s, id)
  {
    var n := LongerThanAll(s.ever.Keys + s.pings);
    id := seq(n + 1, _ => 'x');
  }

  /** Some events of the queue, in any order. */
  lemma Collected(q: Queue, ids: set<string>) returns (es: seq<Event>)
    requires ValidQueue(q) && ids <= q.events.Keys
    ensures forall e :: e in es <==> e.id in ids && q.events[e.id] == e
    ensures Apart(es)
  {
    if ids == {} {
      es := [];
    } else {
      var id :| id in ids;
      var rest := Collected(q, ids - {id});
      es := rest + [q.events[id]];
      assert forall i :: 0 <= i < |rest| ==> rest[i] in rest;
    }
  }

  lemma PendingExists(q: Queue, req: Request) returns (batch: seq<Event>)
    requires ValidQueue(q)
    ensures IsPending(q, req, {}, batch)
  {
    var es := Collected(q, MatchingIds(q, req));
    SortIncreasing(es);
    batch := SortBySequence(es);
  }

  const EVERYTHING := Request("", [], true, true, [], [])

  /** A subscription to everything. */
  lemma Subscribed(h: History<Step>) returns (more: History<Step>, sid: nat)
    ensures var s, s' := After(h), After(Concat(h, more));
            && s'.queue.events == s.queue.events && sid in s'.sessions
            && var c := s'.sessions[sid];
               c.live && c.inHand == None && |c.wire| == 1 && c.stream.req == EVERYTHING && c.stream.sent == {} && c.stream.batch == []
  {
    var s := After(h);
    var pingId := FreshIdExists(s);
    sid := FreeNumber(s.sessions.Keys);
    more := Then(Empty, Subscribe(sid, EVERYTHING, pingId));
    assert Concat(h, more) == Then(h, more.last);
  }

  lemma EverythingPending(q: Queue) returns (batch: seq<Event>)
    requires ValidQueue(q)
    ensures IsPending(q, EVERYTHING, {}, batch)
    ensures forall id :: id in q.events ==> q.events[id] in batch
  {
    batch := PendingExists(q, EVERYTHING);
    forall id | id in q.events ensures q.events[id] in batch {
      assert Matches(EVERYTHING, q.events[id]);
    }
  }

  lemma TickEffect(h: History<Step>, sid: nat, pending: seq<Event>)
    requires Enabled(After(h), Tick(sid, pending))
    ensures var s, s' := After(h), After(Then(h, Tick(sid, pending)));
            && s'.queue == s.queue && sid in s'.sessions
            && s'.sessions[sid].live && s'.sessions[sid].stream.batch == pending
            && s'.sessions[sid].inHand == s.sessions[sid].inHand && s'.sessions[sid].wire == s.sessions[sid].wire
  {
  }

  /** And its first tick. */
  lemma FirstTick(h: History<Step>, sid: nat) returns (more: History<Step>)
    requires sid in After(h).sessions
    requires var c := After(h).sessions[sid];
             c.live && c.inHand == None && |c.wire| == 1 && c.stream.req == EVERYTHING && c.stream.sent == {} && c.stream.batch == []
    ensures var s, s' := After(h), After(Concat(h, more));
            && s'.queue.events == s.queue.events
            && sid in s'.sessions && s'.sessions[sid].live && s'.sessions[sid].inHand == None && |s'.sessions[sid].wire| == 1
            && forall id :: id in s.queue.events ==> s.queue.events[id] in s'.sessions[sid].stream.batch
  {
    Invariant(h);
    var pending := EverythingPending(After(h).queue);
    more := Then(Empty, Tick(sid, pending));
    assert Concat(h, more) == Then(h, more.last);
    TickEffect(h, sid, pending);
  }

  /** The batch is sent as far as the event, which is then on the wire. */
  lemma {:induction false} SentAsFarAs(h: History<Step>, sid: nat, i: nat) returns (more: History<Step>)
    requires var s := After(h); sid in s.sessions && s.sessions[sid].live && i < |s.sessions[sid].stream.batch|
    ensures var s, s' := After(h), After(Concat(h, more));
            && s'.queue.events == s.queue.events
            && sid in s'.sessions && s'.sessions[sid].inHand == s.sessions[sid].inHand
            && s'.sessions[sid].wire == s.sessions[sid].wire + s.sessions[sid].stream.batch[..i + 1]
            && s'.sessions[sid].live && s'.sessions[sid].stream.batch == s.sessions[sid].stream.batch[i + 1..]
    decreases i
  {
    var s, batch := After(h), After(h).sessions[sid].stream.batch;
    if i == 0 {
      more := Empty;
      assert Concat(h, more) == h;
    } else {
      more := SentAsFarAs(h, sid, i - 1);
    }
    var s1 := After(Concat(h, more));
    var left := s1.sessions[sid].stream.batch;
    assert left == batch[i..] && left != [];
    assert batch[..i + 1] == batch[..i] + [batch[i]];
    if i == 0 {
      assert batch[..0] == [] && s1.sessions[sid].wire + [] == s1.sessions[sid].wire;
    }
    more := Then(more, Send(sid));
    assert left[1..] == batch[i + 1..] && left[0] == batch[i];
  }

  lemma OneTaken(h: History<Step>, sid: nat)
    requires var s := After(h); sid in s.sessions && s.sessions[sid].inHand == None && s.sessions[sid].wire != []
    ensures var s, s' := After(h), After(Then(h, Handle(sid, false)));
            && s'.queue == s.queue
            && sid in s'.sessions && s'.sessions[sid].inHand == None && s'.sessions[sid].wire == s.sessions[sid].wire[1..]
  {
  }

  /** Events ahead of it on the wire are taken, and their handling may fail. */
  lemma {:induction false} TakenAsFarAs(h: History<Step>, sid: nat, i: nat) returns (more: History<Step>)
    requires var s := After(h); sid in s.sessions && s.sessions[sid].inHand == None && i < |s.sessions[sid].wire|
    ensures var s, s' := After(h), After(Concat(h, more));
            && s'.queue.events == s.queue.events
            && sid in s'.sessions && s'.sessions[sid].inHand == None && s'.sessions[sid].wire == s.sessions[sid].wire[i..]
    decreases i
  {
    if i == 0 {
      more := Empty;
      assert Concat(h, more) == h;
    } else {
      more := TakenAsFarAs(h, sid, i - 1);
      var left := After(Concat(h, more)).sessions[sid].wire;
      assert left[1..] == After(h).sessions[sid].wire[i..];
      OneTaken(Concat(h, more), sid);
      more := Then(more, Handle(sid, false));
    }
  }

  /** The event at the head of the wire is handled, acknowledged and removed. */
  lemma HandledAndRemoved(h: History<Step>, sid: nat) returns (more: History<Step>)
    requires var s := After(h); sid in s.sessions && s.sessions[sid].inHand == None && s.sessions[sid].wire != []
    ensures var s, s' := After(h), After(Concat(h, more));
            var id := s.sessions[sid].wire[0].id; id in s'.handled && id in s'.acks && s'.queue.events == s.queue.events - {id}
  {
    var s := After(h);
    var id := s.sessions[sid].wire[0].id;
    more := Then(Empty, Handle(sid, true));
    assert Concat(h, more) == Then(h, more.last);
    var s1 := After(Concat(h, more));
    assert id in s1.handled && s1.sessions[sid].inHand == Some(id) && s1.queue == s.queue;
    more := Then(more, SendAck(sid));
    var s2 := After(Concat(h, more));
    assert id in s2.acks && id in s2.handled && s2.queue == s.queue;
    more := Then(more, ApplyAck(id));
  }

  lemma {:induction false} ConcatTwice(h: History<Step>, more: History<Step>, last: History<Step>)
    ensures Concat(h, Concat(more, last)) == Concat(Concat(h, more), last)
  {
    if last.Then? {
      ConcatTwice(h, more, last.before);
    }
  }

  /** In every state, however many streams are broken or acknowledgements lost, each
      queued event can still be subscribed to, sent, handled, acknowledged and removed. */
  lemma EveryEventCanGetThrough(h: History<Step>, id: string) returns (more: History<Step>)
    requires id in After(h).queue.events
    ensures id in After(Concat(h, more)).handled && id !in After(Concat(h, more)).queue.events
  {
    Invariant(h);
    var event := After(h).queue.events[id];
    var start, sid := Subscribed(h);
    var tick := FirstTick(Concat(h, start), sid);
    ConcatTwice(h, start, tick);
    var first := Concat(start, tick);
    var s1 := After(Concat(h, first));
    var i: nat :| i < |s1.sessions[sid].stream.batch| && s1.sessions[sid].stream.batch[i] == event;
    var second := SentAsFarAs(Concat(h, first), sid, i);
    ConcatTwice(h, first, second);
    more := Concat(first, second);
    var s2 := After(Concat(h, more));
    assert s2.sessions[sid].wire[i + 1] == event;
    var third := TakenAsFarAs(Concat(h, more), sid, i + 1);
    ConcatTwice(h, more, third);
    more := Concat(more, third);
    assert After(Concat(h, more)).sessions[sid].wire[0] == event;
    var fourth := HandledAndRemoved(Concat(h, more), sid);
    ConcatTwice(h, more, fourth);
    more := Concat(more, fourth);
  }

  // ---- the daemon's loop ----

  class EventConsumer {
    var handled: set<string>
    var acked: set<string>

    constructor ()
      ensures handled == {} && acked == {}
    {
      handled, acked := {}, {};
    }

    /** Handles what one stream delivers, in order. An event is acknowledged
        after it was handled; one whose handling failed, or that has no id, is not. */
    method ReceiveUntilBroken(received: seq<Event>, handles: nat -> bool)
      modifies this
      ensures handled == old(handled) + set k | 0 <= k < |received| && handles(k) :: received[k].id
      ensures acked == old(acked) + set k | 0 <= k < |received| && handles(k) && received[k].id != "" :: received[k].id
    {
      for i := 0 to |received|
        invariant handled == old(handled) + set k | 0 <= k < i && handles(k) :: received[k].id
        invariant acked == old(acked) + set k | 0 <= k < i && handles(k) && received[k].id != "" :: received[k].id
      {
        var event := received[i];
        if !handles(i) {
          continue;
        }
        handled := handled + {event.id};
        if event.id != "" {
          acked := acked + {event.id};
        }
      }
    }
  }
}

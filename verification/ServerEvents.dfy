/** The server's queue of undelivered events: sequence numbers, subscriptions and acknowledgements. */
module ServerEvents {
  datatype Kind = Ping | AgentControl | Message | OutboundDelivery | RunAssigned | OtherKind

  datatype Operation = Created | Updated | Appended | OtherOperation

  datatype Payload =
    | NoPayload
    | ControlOf(computerId: string, agentId: string)
    | MessageOf(target: string)
    | DeliveryOf(deliveryTarget: string)
    | RunOf(runComputerId: string, runAgentId: string)

  datatype Event = Event(id: string, sequence: int, aggregateId: string, target: string,
                         kind: Kind, operation: Operation, payload: Payload)

  datatype Request = Request(computerId: string, kinds: seq<Kind>, includeAllAgents: bool, includeAllScopes: bool,
                             agentIds: seq<string>, targets: seq<string>)

  predicate Matches(req: Request, e: Event) {
    if req.kinds != [] && e.kind !in req.kinds then false
    else if req.includeAllAgents || req.includeAllScopes then true
    else match e.payload
      case ControlOf(computer, agent) => (computer != "" && computer == req.computerId) || agent in req.agentIds
      case MessageOf(target) => e.aggregateId in req.agentIds || target in req.targets
      case DeliveryOf(target) => target in req.targets
      case RunOf(computer, agent) => (computer != "" && computer == req.computerId) || agent in req.agentIds
      case NoPayload => e.target == req.computerId
  }

  datatype Queue = Queue(eventSeq: nat, events: map<string, Event>)

  /** An event gets an id and a sequence number only where it has none. */
  function Numbered(q: Queue, e: Event, freshId: string): Event {
    e.(id := if e.id == "" then freshId else e.id, sequence := if e.sequence == 0 then q.eventSeq + 1 else e.sequence)
  }

  /** Numbering and insertion under one lock hold. */
  function Enqueued(q: Queue, e: Event, freshId: string): Queue {
    var n := Numbered(q, e, freshId);
    Queue(if e.sequence == 0 then q.eventSeq + 1 else q.eventSeq, q.events[n.id := n])
  }

  ghost predicate Increasing(es: seq<Event>) {
    forall i, j :: 0 <= i < j < |es| ==> es[i].sequence < es[j].sequence
  }

  /** Exactly the queued, matching, unsent events, by strictly increasing sequence. */
  ghost predicate IsPending(q: Queue, req: Request, sent: set<string>, batch: seq<Event>) {
    && Increasing(batch)
    && (forall e :: e in batch ==> e.id !in sent && e.id in q.events && q.events[e.id] == e && Matches(req, e))
    && (forall id :: id in q.events && id !in sent && Matches(req, q.events[id]) ==> q.events[id] in batch)
  }

  /** What the queue always looks like: keyed by id, numbered apart and no further than the counter. */
  ghost predicate ValidQueue(q: Queue) {
    && (forall id :: id in q.events ==> q.events[id].id == id && 0 < q.events[id].sequence <= q.eventSeq)
    && (forall a, b :: a in q.events && b in q.events && a != b ==> q.events[a].sequence != q.events[b].sequence)
  }

  // ---- sorting ----

  ghost predicate Apart(es: seq<Event>) {
    forall i, j :: 0 <= i < j < |es| ==> es[i].sequence != es[j].sequence
  }

  /** Inserts after every event that is not later, which keeps the sort stable. */
  function Insert(e: Event, es: seq<Event>): (r: seq<Event>)
    ensures forall x :: x in r <==> x == e || x in es
  {
    if es == [] || es[|es| - 1].sequence <= e.sequence then es + [e]
    else Insert(e, es[..|es| - 1]) + [es[|es| - 1]]
  }

  function SortBySequence(es: seq<Event>): (r: seq<Event>)
    ensures forall x :: x in r <==> x in es
  {
    if es == [] then [] else Insert(es[|es| - 1], SortBySequence(es[..|es| - 1]))
  }

  lemma {:induction false} InsertIncreasing(e: Event, es: seq<Event>)
    requires Increasing(es)
    requires forall x :: x in es ==> x.sequence != e.sequence
    ensures Increasing(Insert(e, es))
  {
    if es != [] && es[|es| - 1].sequence > e.sequence {
      var front, last := es[..|es| - 1], es[|es| - 1];
      InsertIncreasing(e, front);
      var r := Insert(e, front);
      forall i | 0 <= i < |r| ensures r[i].sequence < last.sequence {
        assert r[i] == e || r[i] in front;
      }
    }
  }

  /** Events with different sequences are sorted into strictly increasing order. */
  lemma {:induction false} SortIncreasing(es: seq<Event>)
    requires Apart(es)
    ensures Increasing(SortBySequence(es))
  {
    if es != [] {
      SortIncreasing(es[..|es| - 1]);
      InsertIncreasing(es[|es| - 1], SortBySequence(es[..|es| - 1]));
    }
  }

  // ---- the server's lock holds ----

  class EventServer {
    var eventSeq: nat
    var serverEvents: map<string, Event>

    function State(): Queue
      reads this
    {
      Queue(eventSeq, serverEvents)
    }

    constructor ()
      ensures State() == Queue(0, map[])
    {
      eventSeq, serverEvents := 0, map[];
    }

    method NextSequence() returns (n: nat)
      modifies this
      ensures n == old(eventSeq) + 1 && State() == Queue(n, old(serverEvents))
    {
      eventSeq := eventSeq + 1;
      n := eventSeq;
    }

    /** serverEventLocked and the insertion that follows it in every caller. */
    method Enqueue(event: Event, freshId: string) returns (queued: Event)
      modifies this
      ensures queued == Numbered(old(State()), event, freshId)
      ensures State() == Enqueued(old(State()), event, freshId)
      ensures queued.id == (if event.id != "" then event.id else freshId) && queued == event.(id := queued.id, sequence := queued.sequence)
      ensures if event.sequence == 0 then queued.sequence == eventSeq == old(eventSeq) + 1
              else queued.sequence == event.sequence && eventSeq == old(eventSeq)
      ensures serverEvents == old(serverEvents)[queued.id := queued]
    {
      queued := event;
      if queued.id == "" {
        queued := queued.(id := freshId);
      }
      if queued.sequence == 0 {
        eventSeq := eventSeq + 1;
        queued := queued.(sequence := eventSeq);
      }
      serverEvents := serverEvents[queued.id := queued];
    }

    method AcknowledgeServerEvents(eventIds: seq<string>)
      modifies this
      ensures State() == Queue(old(eventSeq), old(serverEvents) - (set id | id in eventIds))
    {
      for i := 0 to |eventIds|
        invariant eventSeq == old(eventSeq)
        invariant serverEvents == old(serverEvents) - (set id | id in eventIds[..i])
      {
        serverEvents := serverEvents - {eventIds[i]};
      }
      assert eventIds[..|eventIds|] == eventIds;
    }

    /** The map is walked in no particular order; the sort makes the result a function of the state. */
    method PendingServerEvents(req: Request, sent: set<string>) returns (events: seq<Event>)
      requires ValidQueue(State())
      ensures IsPending(State(), req, sent, events)
    {
      events := [];
      var todo := serverEvents.Keys;
      while todo != {}
        invariant todo <= serverEvents.Keys
        invariant forall e :: e in events ==> e.id !in todo && e.id !in sent && e.id in serverEvents &&
                                              serverEvents[e.id] == e && Matches(req, e)
        invariant forall id :: id in serverEvents && id !in todo && id !in sent && Matches(req, serverEvents[id]) ==>
                                 serverEvents[id] in events
        invariant Apart(events)
        decreases todo
      {
        var id :| id in todo;
        todo := todo - {id};
        var event := serverEvents[id];
        if id !in sent && Matches(req, event) {
          events := events + [event];
        }
      }
      SortIncreasing(events);
      events := SortBySequence(events);
    }
  }

  /** With either include-all flag, every kind asked for (or any kind at all) is offered, whatever the payload. */
  lemma OfferedWithAll(q: Queue, req: Request, sent: set<string>, batch: seq<Event>, id: string)
    requires IsPending(q, req, sent, batch) && id in q.events && id !in sent
    requires req.includeAllAgents || req.includeAllScopes
    ensures q.events[id] in batch <==> req.kinds == [] || q.events[id].kind in req.kinds
  {
  }

  /** Without, the payload decides: a control or a run by its computer, if it has
      one, or by its agent; a message by aggregate or target; a delivery by its
      target; anything else by the target of the event. */
  lemma OfferedByPayload(q: Queue, req: Request, sent: set<string>, batch: seq<Event>, id: string)
    requires IsPending(q, req, sent, batch) && id in q.events && id !in sent
    requires !req.includeAllAgents && !req.includeAllScopes
    ensures var e := q.events[id];
            var offered := e in batch;
            var wanted := req.kinds == [] || e.kind in req.kinds;
            match e.payload
            case ControlOf(computer, agent) =>
              offered <==> wanted && ((computer == req.computerId && computer != "") || agent in req.agentIds)
            case RunOf(computer, agent) =>
              offered <==> wanted && ((computer == req.computerId && computer != "") || agent in req.agentIds)
            case MessageOf(target) => offered <==> wanted && (e.aggregateId in req.agentIds || target in req.targets)
            case DeliveryOf(target) => offered <==> wanted && target in req.targets
            case NoPayload => offered <==> wanted && e.target == req.computerId
  {
  }

  /** The pending list is determined by the queue, the request and what was sent. */
  lemma {:induction false} PendingIsUnique(q: Queue, req: Request, sent: set<string>, a: seq<Event>, b: seq<Event>)
    requires IsPending(q, req, sent, a) && IsPending(q, req, sent, b)
    ensures a == b
  {
    forall e ensures e in a <==> e in b {
    }
    IncreasingUnique(a, b);
  }

  lemma {:induction false} IncreasingUnique(a: seq<Event>, b: seq<Event>)
    requires Increasing(a) && Increasing(b)
    requires forall e :: e in a <==> e in b
    ensures a == b
  {
    if b != [] {
      assert b[|b| - 1] in a;
    }
    if a != [] {
      assert a[|a| - 1] in b;
      var x, y := a[|a| - 1], b[|b| - 1];
      assert x in b && y in a;
      assert x == y;
      var a', b' := a[..|a| - 1], b[..|b| - 1];
      forall e ensures e in a' <==> e in b' {
        if e in a' { assert e in a && e != x; }
        if e in b' { assert e in b && e != y; }
      }
      IncreasingUnique(a', b');
    }
  }
}

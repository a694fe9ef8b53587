/** Outbound deliveries of one message: the endpoint it came from, then the
    endpoints its notification routes name, each at most once, each announced
    by one event. */
module OutboundRouting {
  import opened Basics
  import opened ServerEvents

  datatype Endpoint = Endpoint(id: string, kind: string, outboundEnabled: bool)

  datatype Message = Message(id: string, target: string, threadId: string, replyTo: string, requestId: string,
                             sourceEndpointId: string, externalId: string)

  datatype Delivery = Delivery(id: string, target: string, messageId: string, endpointId: string,
                               endpointKind: string, externalId: string, requestId: string)

  function RequestIdFor(msg: Message, endpointId: string): string {
    if msg.requestId != "" then msg.requestId else msg.id + ":" + endpointId
  }

  // ---- the source endpoint ----

  predicate HasSource(m: Message) { m.sourceEndpointId != "" && m.externalId != "" }

  /** The message whose external origin a reply answers: itself, its parent or its thread's root. */
  function SourceMessage(msg: Message, messages: map<(string, string), Message>): Option<Message> {
    if HasSource(msg) then Some(msg)
    else if msg.replyTo == "" || (msg.target, msg.replyTo) !in messages then None
    else
      var parent := messages[(msg.target, msg.replyTo)];
      if HasSource(parent) then Some(parent)
      else if parent.threadId == "" || parent.threadId == parent.id then None
      else if (parent.target, parent.threadId) !in messages then None
      else
        var root := messages[(parent.target, parent.threadId)];
        if HasSource(root) then Some(root) else None
  }

  /** Where a reply goes back to: its own origin if it has one; else its parent's, if
      the parent is found; else that of the root of the parent's thread, if that is
      another message and is found. */
  lemma SourceMeaning(msg: Message, messages: map<(string, string), Message>)
    ensures var source := SourceMessage(msg, messages);
            var parentKey := (msg.target, msg.replyTo);
            if msg.sourceEndpointId != "" && msg.externalId != "" then source == Some(msg)
            else if msg.replyTo == "" || parentKey !in messages then source == None
            else
              var parent := messages[parentKey];
              var rootKey := (parent.target, parent.threadId);
              if parent.sourceEndpointId != "" && parent.externalId != "" then source == Some(parent)
              else if parent.threadId in {"", parent.id} || rootKey !in messages then source == None
              else if messages[rootKey].sourceEndpointId != "" && messages[rootKey].externalId != "" then source == Some(messages[rootKey])
              else source == None
  {
  }

  predicate Usable(endpoints: map<string, Endpoint>, id: string) {
    id in endpoints && endpoints[id].outboundEnabled
  }

  function SourceEndpoint(msg: Message, messages: map<(string, string), Message>, endpoints: map<string, Endpoint>,
                          suppressed: bool): Option<string> {
    var source := SourceMessage(msg, messages);
    if source.Some? && Usable(endpoints, source.value.sourceEndpointId) && !suppressed
    then Some(source.value.sourceEndpointId) else None
  }

  // ---- the routes ----

  /** The usable endpoints the routes name, other than those already served, at their first mention. */
  function Selected(routes: seq<string>, endpoints: map<string, Endpoint>, served: set<string>): seq<string> {
    if routes == [] then []
    else
      var before, id := Selected(routes[..|routes| - 1], endpoints, served), routes[|routes| - 1];
      if id in served || id in before || !Usable(endpoints, id) then before else before + [id]
  }

  function Members(ids: seq<string>): set<string> { set id | id in ids }

  ghost predicate FirstMention(routes: seq<string>, i: nat, id: string) {
    i < |routes| && routes[i] == id && id !in routes[..i]
  }

  /** No endpoint twice; every usable route endpoint that was not served yet; in order of first mention. */
  lemma {:induction false} SelectedMeaning(routes: seq<string>, endpoints: map<string, Endpoint>, served: set<string>)
    ensures var ids := Selected(routes, endpoints, served);
            && (forall i, j :: 0 <= i < j < |ids| ==> ids[i] != ids[j])
            && (forall id :: id in ids <==> id in routes && id in endpoints && endpoints[id].outboundEnabled && id !in served)
            && (forall i, j, a: nat, b: nat :: 0 <= i < j < |ids| && FirstMention(routes, a, ids[i]) && FirstMention(routes, b, ids[j]) ==> a < b)
  {
    if routes != [] {
      var front, last := routes[..|routes| - 1], routes[|routes| - 1];
      SelectedMeaning(front, endpoints, served);
      var before, ids := Selected(front, endpoints, served), Selected(routes, endpoints, served);
      forall i, j, a: nat, b: nat | 0 <= i < j < |ids| && FirstMention(routes, a, ids[i]) && FirstMention(routes, b, ids[j])
        ensures a < b
      {
        assert ids[i] in before;
        var k :| 0 <= k < |front| && front[k] == ids[i];
        assert forall m :: 0 <= m < a ==> routes[..a][m] == routes[m];
        assert a <= k && routes[..a] == front[..a] && FirstMention(front, a, ids[i]);
        if b < |front| {
          assert front[b] == ids[j] && ids[j] in front && ids[j] in before;
          var n :| 0 <= n < |before| && before[n] == ids[j];
          assert n == j && routes[..b] == front[..b] && FirstMention(front, b, ids[j]);
        }
      }
    }
  }

  // ---- the calls ----

  function EndpointIds(ds: seq<Delivery>): (ids: seq<string>)
    ensures |ids| == |ds|
  {
    seq(|ds|, i requires 0 <= i < |ds| => ds[i].endpointId)
  }

  /** The row for one endpoint; its request id is the message's, or made of message and endpoint. */
  predicate IsRow(d: Delivery, id: string, msg: Message, endpoints: map<string, Endpoint>, externalId: string) {
    && d.endpointId in endpoints
    && d == Delivery(id, msg.target, msg.id, d.endpointId, endpoints[d.endpointId].kind, externalId,
                     if msg.requestId != "" then msg.requestId else msg.id + ":" + d.endpointId)
  }

  /** The rows after those made before: none of them answers an outside message. */
  predicate PlainRows(before: seq<Delivery>, made: seq<Delivery>, newId: nat -> string, msg: Message, endpoints: map<string, Endpoint>) {
    before <= made && forall n: nat :: |before| <= n < |made| ==> IsRow(made[n], newId(n), msg, endpoints, "")
  }

  lemma OneMorePlain(before: seq<Delivery>, made: seq<Delivery>, d: Delivery, newId: nat -> string, msg: Message, endpoints: map<string, Endpoint>)
    requires PlainRows(before, made, newId, msg, endpoints) && IsRow(d, newId(|made|), msg, endpoints, "")
    ensures PlainRows(before, made + [d], newId, msg, endpoints)
  {
  }

  function CreatedEvent(d: Delivery): Event {
    Event("", 0, d.messageId, d.target, OutboundDelivery, Created, DeliveryOf(d.target))
  }

  /** Events queued one after the other, the n-th under the n-th id. */
  function EnqueuedAll(q: Queue, ds: seq<Delivery>, eventId: nat -> string): Queue {
    if ds == [] then q
    else Enqueued(EnqueuedAll(q, ds[..|ds| - 1], eventId), CreatedEvent(ds[|ds| - 1]), eventId(|ds| - 1))
  }

  predicate AllOf(msg: Message, ds: seq<Delivery>) {
    forall d :: d in ds ==> d.messageId == msg.id && d.target == msg.target
  }

  /** The endpoints a message is to reach, in order. */
  function Wanted(source: Option<string>, routes: Option<seq<string>>, endpoints: map<string, Endpoint>): seq<string> {
    var first := if source.Some? then [source.value] else [];
    var served := if source.Some? then {source.value} else {};
    if routes.Some? then first + Selected(routes.value, endpoints, served) else first
  }

  class OutboundServer {
    /** The delivery rows of the store. */
    var rows: seq<Delivery>
    const events: EventServer

    constructor ()
      ensures rows == [] && fresh(events) && events.State() == Queue(0, map[])
    {
      rows := [];
      events := new EventServer();
    }

    /** Creates the row and queues its CREATED event; a failed insert does neither. */
    method Deliver(msg: Message, endpoint: Endpoint, externalId: string, deliveryId: string, eventId: string, fails: bool)
      returns (made: Option<Delivery>)
      modifies this, events
      ensures fails ==> made == None && rows == old(rows) && events.State() == old(events.State())
      ensures !fails ==>
                && made == Some(Delivery(deliveryId, msg.target, msg.id, endpoint.id, endpoint.kind, externalId,
                                         if msg.requestId != "" then msg.requestId else msg.id + ":" + endpoint.id))
                && rows == old(rows) + [made.value]
                && events.State() == Enqueued(old(events.State()), CreatedEvent(made.value), eventId)
    {
      if fails {
        return None;
      }
      var d := Delivery(deliveryId, msg.target, msg.id, endpoint.id, endpoint.kind, externalId, RequestIdFor(msg, endpoint.id));
      rows := rows + [d];
      var _ := events.Enqueue(CreatedEvent(d), eventId);
      made := Some(d);
    }

    /** Every row made since base has its event, and there are no other new rows or events. */
    ghost predicate InStep(base: seq<Delivery>, baseQueue: Queue, made: seq<Delivery>, msg: Message, eventId: nat -> string)
      reads this, events
    {
      && rows == base + made
      && events.State() == EnqueuedAll(baseQueue, made, eventId)
      && AllOf(msg, made)
    }

    method DeliverNext(msg: Message, endpoint: Endpoint, externalId: string, deliveryId: string, eventId: nat -> string,
                       fails: bool, before: seq<Delivery>, ghost base: seq<Delivery>, ghost baseQueue: Queue)
      returns (made: seq<Delivery>, ok: bool)
      requires InStep(base, baseQueue, before, msg, eventId)
      modifies this, events
      ensures InStep(base, baseQueue, made, msg, eventId) && ok == !fails
      ensures if ok then EndpointIds(made) == EndpointIds(before) + [endpoint.id] && |made| == |before| + 1 else made == before
      ensures ok ==> made == before + [Delivery(deliveryId, msg.target, msg.id, endpoint.id, endpoint.kind, externalId,
                                                if msg.requestId != "" then msg.requestId else msg.id + ":" + endpoint.id)]
    {
      var d := Deliver(msg, endpoint, externalId, deliveryId, eventId(|before|), fails);
      if d.None? {
        return before, false;
      }
      made, ok := before + [d.value], true;
      assert made[..|before|] == before;
    }

    method EnqueueSourceOutboundDelivery(msg: Message, messages: map<(string, string), Message>, suppressed: bool,
                                         endpoints: map<string, Endpoint>, newId: string, eventId: nat -> string, fails: bool)
      returns (made: seq<Delivery>, ok: bool)
      requires forall id :: id in endpoints ==> endpoints[id].id == id
      modifies this, events
      ensures InStep(old(rows), old(events.State()), made, msg, eventId)
      ensures var source := SourceEndpoint(msg, messages, endpoints, suppressed);
              && ok == (source.None? || !fails)
              && EndpointIds(made) == if source.Some? && ok then [source.value] else []
      ensures made != [] ==> SourceMessage(msg, messages).Some? &&
                             IsRow(made[0], newId, msg, endpoints, SourceMessage(msg, messages).value.externalId)
    {
      ghost var base, baseQueue := rows, events.State();
      made, ok := [], true;
      assert base + [] == base;
      var source := SourceMessage(msg, messages);
      if source.None? || source.value.sourceEndpointId !in endpoints {
        return;
      }
      var endpoint := endpoints[source.value.sourceEndpointId];
      if !endpoint.outboundEnabled || suppressed {
        return;
      }
      made, ok := DeliverNext(msg, endpoint, source.value.externalId, newId, eventId, fails, made, base, baseQueue);
    }

    /** The loop over the routes, after the deliveries already made. */
    method DeliverRoutes(msg: Message, routes: seq<string>, endpoints: map<string, Endpoint>, before: seq<Delivery>,
                         newId: nat -> string, eventId: nat -> string, failsAt: nat -> bool,
                         ghost base: seq<Delivery>, ghost baseQueue: Queue)
      returns (made: seq<Delivery>, ok: bool)
      requires forall id :: id in endpoints ==> endpoints[id].id == id
      requires InStep(base, baseQueue, before, msg, eventId)
      modifies this, events
      ensures InStep(base, baseQueue, made, msg, eventId)
      ensures var all := EndpointIds(before) + Selected(routes, endpoints, set d | d in before :: d.endpointId);
              if ok then EndpointIds(made) == all else EndpointIds(made) <= all && failsAt(|made|)
      ensures PlainRows(before, made, newId, msg, endpoints)
    {
      var seen := set d | d in before :: d.endpointId;
      made, ok := before, true;
      ghost var first, served := EndpointIds(made), seen;
      for i := 0 to |routes|
        invariant ok && InStep(base, baseQueue, made, msg, eventId)
        invariant Reached(routes, i, endpoints, served, first, EndpointIds(made), seen)
        invariant PlainRows(before, made, newId, msg, endpoints)
      {
        var id := routes[i];
        ReachedStep(routes, i, endpoints, served, first, EndpointIds(made), seen);
        if id in seen || !Usable(endpoints, id) {
          continue;
        }
        ghost var sofar := made;
        made, ok := DeliverNext(msg, endpoints[id], "", newId(|made|), eventId, failsAt(|made|), made, base, baseQueue);
        if !ok {
          ReachedPart(routes, i, endpoints, served, first, EndpointIds(made), seen);
          return;
        }
        OneMorePlain(before, sofar, made[|sofar|], newId, msg, endpoints);
        seen := seen + {id};
      }
      ReachedPart(routes, |routes|, endpoints, served, first, EndpointIds(made), seen);
    }

    /** failsAt(n) says whether the store refuses the n-th new row, and newId(n)
        and eventId(n) are its fresh ids. routes is None where the store calls the
        target invalid. Success or not, every row made has its event and there
        are no others. */
    method EnqueueRoutedOutboundDeliveries(msg: Message, includeSource: bool, messages: map<(string, string), Message>,
                                           suppressed: bool, routes: Option<seq<string>>, endpoints: map<string, Endpoint>,
                                           newId: nat -> string, eventId: nat -> string, failsAt: nat -> bool)
      returns (made: seq<Delivery>, ok: bool)
      requires forall id :: id in endpoints ==> endpoints[id].id == id
      modifies this, events
      ensures InStep(old(rows), old(events.State()), made, msg, eventId)
      ensures var source := if includeSource then SourceEndpoint(msg, messages, endpoints, suppressed) else None;
              if ok then EndpointIds(made) == Wanted(source, routes, endpoints)
              else EndpointIds(made) <= Wanted(source, routes, endpoints) && failsAt(|made|)
      ensures var source := if includeSource then SourceEndpoint(msg, messages, endpoints, suppressed) else None;
              forall n :: 0 <= n < |made| ==>
                if n == 0 && source.Some?
                then SourceMessage(msg, messages).Some? && IsRow(made[0], newId(0), msg, endpoints, SourceMessage(msg, messages).value.externalId)
                else IsRow(made[n], newId(n), msg, endpoints, "")
    {
      ghost var base, baseQueue := rows, events.State();
      made, ok := [], true;
      assert base + [] == base;
      if includeSource {
        made, ok := EnqueueSourceOutboundDelivery(msg, messages, suppressed, endpoints, newId(0), eventId, failsAt(0));
        if !ok {
          return;
        }
      }
      if routes.None? {
        return;
      }
      ghost var source := if includeSource then SourceEndpoint(msg, messages, endpoints, suppressed) else None;
      ServedBySource(made, source);
      made, ok := DeliverRoutes(msg, routes.value, endpoints, made, newId, eventId, failsAt, base, baseQueue);
    }
  }

  lemma ServedBySource(made: seq<Delivery>, source: Option<string>)
    requires EndpointIds(made) == if source.Some? then [source.value] else []
    ensures (set d | d in made :: d.endpointId) == if source.Some? then {source.value} else {}
  {
    if source.Some? {
      assert |made| == 1 && EndpointIds(made)[0] == made[0].endpointId;
    }
  }

  /** After the first i routes, the endpoints of all deliveries and those that will not get another. */
  ghost predicate Reached(routes: seq<string>, i: nat, endpoints: map<string, Endpoint>, served: set<string>,
                          first: seq<string>, ids: seq<string>, seen: set<string>)
  {
    && i <= |routes|
    && ids == first + Selected(routes[..i], endpoints, served)
    && seen == served + Members(Selected(routes[..i], endpoints, served))
  }

  lemma ReachedStep(routes: seq<string>, i: nat, endpoints: map<string, Endpoint>, served: set<string>,
                    first: seq<string>, ids: seq<string>, seen: set<string>)
    requires i < |routes| && Reached(routes, i, endpoints, served, first, ids, seen)
    ensures if routes[i] in seen || !Usable(endpoints, routes[i])
            then Reached(routes, i + 1, endpoints, served, first, ids, seen)
            else Reached(routes, i + 1, endpoints, served, first, ids + [routes[i]], seen + {routes[i]})
  {
    SelectedStep(routes, i, endpoints, served);
  }

  lemma ReachedPart(routes: seq<string>, i: nat, endpoints: map<string, Endpoint>, served: set<string>,
                    first: seq<string>, ids: seq<string>, seen: set<string>)
    requires Reached(routes, i, endpoints, served, first, ids, seen)
    ensures ids <= first + Selected(routes, endpoints, served)
    ensures i == |routes| ==> ids == first + Selected(routes, endpoints, served)
  {
    SelectedGrows(routes, i, endpoints, served);
    assert routes[..|routes|] == routes;
  }

  lemma SelectedStep(routes: seq<string>, i: nat, endpoints: map<string, Endpoint>, served: set<string>)
    requires i < |routes|
    ensures var before, id := Selected(routes[..i], endpoints, served), routes[i];
            Selected(routes[..i + 1], endpoints, served) ==
            if id in served + Members(before) || !Usable(endpoints, id) then before else before + [id]
    ensures var before := Selected(routes[..i], endpoints, served);
            Members(before + [routes[i]]) == Members(before) + {routes[i]}
  {
    assert routes[..i + 1][..i] == routes[..i];
  }

  lemma {:induction false} SelectedGrows(routes: seq<string>, i: nat, endpoints: map<string, Endpoint>, served: set<string>)
    requires i <= |routes|
    ensures Selected(routes[..i], endpoints, served) <= Selected(routes, endpoints, served)
    decreases |routes| - i
  {
    if i == |routes| {
      assert routes[..i] == routes;
    } else {
      SelectedStep(routes, i, endpoints, served);
      SelectedGrows(routes, i + 1, endpoints, served);
    }
  }

  /** The source endpoint gets one exactly if there is a source message whose
      endpoint exists and is enabled, and nothing suppresses it. */
  lemma SourceEndpointMeaning(msg: Message, messages: map<(string, string), Message>, endpoints: map<string, Endpoint>, suppressed: bool, id: string)
    ensures SourceEndpoint(msg, messages, endpoints, suppressed) == Some(id) <==>
            && !suppressed && id in endpoints && endpoints[id].outboundEnabled
            && SourceMessage(msg, messages).Some? && SourceMessage(msg, messages).value.sourceEndpointId == id
  {
  }

  /** Without routes, as for a target the store calls invalid, the source is all there is. */
  lemma WantedWithoutRoutes(source: Option<string>, endpoints: map<string, Endpoint>)
    ensures Wanted(source, None, endpoints) == if source.Some? then [source.value] else []
  {
  }

  /** One message, all its deliveries: the source first if it is made, no endpoint
      twice, and exactly the source and the usable endpoints of the routes. */
  lemma DeliveredOnceToEach(source: Option<string>, routes: seq<string>, endpoints: map<string, Endpoint>)
    ensures var all := Wanted(source, Some(routes), endpoints);
            && (forall i, j :: 0 <= i < j < |all| ==> all[i] != all[j])
            && (forall id :: id in all <==> source == Some(id) || (id in routes && id in endpoints && endpoints[id].outboundEnabled))
            && (source.Some? ==> all != [] && all[0] == source.value)
  {
    SelectedMeaning(routes, endpoints, if source.Some? then {source.value} else {});
  }

  /** The queue gained exactly one CREATED event per delivery, numbered in order. */
  ghost predicate GainedEach(q: Queue, q': Queue, ds: seq<Delivery>, eventId: nat -> string) {
    && q'.eventSeq == q.eventSeq + |ds|
    && q'.events.Keys == q.events.Keys + (set n | 0 <= n < |ds| :: eventId(n))
    && (forall id :: id in q.events ==> q'.events[id] == q.events[id])
    && (forall n: nat :: n < |ds| ==> eventId(n) in q'.events && IsEventOf(q'.events[eventId(n)], ds[n], eventId(n), q.eventSeq + n + 1))
  }

  ghost predicate NewIds(q: Queue, count: nat, eventId: nat -> string) {
    && (forall m: nat, n: nat :: m < n < count ==> eventId(m) != eventId(n))
    && (forall n: nat :: n < count ==> eventId(n) !in q.events)
  }

  predicate IsEventOf(e: Event, d: Delivery, id: string, sequence: nat) {
    e == Event(id, sequence, d.messageId, d.target, OutboundDelivery, Created, DeliveryOf(d.target))
  }

  lemma OneMoreGained(q: Queue, q': Queue, front: seq<Delivery>, d: Delivery, eventId: nat -> string)
    requires GainedEach(q, q', front, eventId) && NewIds(q, |front| + 1, eventId)
    ensures GainedEach(q, Enqueued(q', CreatedEvent(d), eventId(|front|)), front + [d], eventId)
  {
    var q'' := Enqueued(q', CreatedEvent(d), eventId(|front|));
    assert IsEventOf(q''.events[eventId(|front|)], d, eventId(|front|), q.eventSeq + |front| + 1);
  }

  /** One event for each delivery, no more, and the events queued before untouched. */
  lemma {:induction false} OneEventEach(q: Queue, ds: seq<Delivery>, eventId: nat -> string)
    requires NewIds(q, |ds|, eventId)
    ensures GainedEach(q, EnqueuedAll(q, ds, eventId), ds, eventId)
  {
    if ds != [] {
      var front, d := ds[..|ds| - 1], ds[|ds| - 1];
      assert front + [d] == ds;
      assert NewIds(q, |front|, eventId);
      OneEventEach(q, front, eventId);
      OneMoreGained(q, EnqueuedAll(q, front, eventId), front, d, eventId);
    }
  }
}

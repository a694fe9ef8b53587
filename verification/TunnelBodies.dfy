/** Request bodies of the preview tunnel. One stream carries the body chunks of
    many requests; each request's body is an in-memory pipe that the network side
    fills and closes and one local reader drains. */
module TunnelBodies {
  import opened Basics
  import opened Histories

  /** What one Read call does; Blocked means it is still waiting. */
  datatype ReadResult = Blocked | Eof | Data(bytes: seq<Byte>)

  datatype Body = Body(buf: seq<Byte>, closed: bool) {
    function Write(chunk: seq<Byte>): Body {
      if closed then this else Body(buf + chunk, closed)
    }

    function Close(): Body { Body(buf, true) }

    function Reading(n: nat): ReadResult {
      if buf != [] then Data(if n < |buf| then buf[..n] else buf)
      else if closed then Eof
      else Blocked
    }

    function AfterRead(n: nat): Body {
      if n < |buf| then Body(buf[n..], closed) else Body([], closed)
    }
  }

  /** Every body ever opened, in the order of the START frames, and the one each request id now names. */
  datatype Mux = Mux(open: map<string, nat>, bodies: seq<Body>)

  const EMPTY := Mux(map[], [])

  /** One frame received, or one call by the local reader of the k-th body; each is one lock hold. */
  datatype Step =
    | Start(id: string)
    | Chunk(id: string, bytes: seq<Byte>)
    | End(id: string)
    | Cancel(id: string)
    | StreamEnd
    | Read(k: nat, n: nat)
    | LocalClose(k: nat)

  function Update(m: Mux, k: nat, b: Body): Mux
    requires k < |m.bodies|
  {
    m.(bodies := m.bodies[k := b])
  }

  ghost predicate WellFormed(m: Mux) {
    forall id :: id in m.open ==> m.open[id] < |m.bodies|
  }

  function Opened(m: Mux, id: string): Mux {
    Mux(m.open[id := |m.bodies|], m.bodies + [Body([], false)])
  }

  function Written(m: Mux, id: string, chunk: seq<Byte>): Mux
    requires WellFormed(m)
  {
    if id in m.open then Update(m, m.open[id], m.bodies[m.open[id]].Write(chunk)) else m
  }

  function Closed(m: Mux, id: string): Mux
    requires WellFormed(m)
  {
    if id in m.open then
      Update(m.(open := m.open - {id}), m.open[id], m.bodies[m.open[id]].Close())
    else m
  }

  function AllClosed(m: Mux): Mux
    requires WellFormed(m)
  {
    Mux(map[], seq(|m.bodies|, k requires 0 <= k < |m.bodies| =>
      if k in m.open.Values then m.bodies[k].Close() else m.bodies[k]))
  }

  function Apply(m: Mux, s: Step): (r: Mux)
    requires WellFormed(m)
    ensures WellFormed(r)
    ensures |r.bodies| == |m.bodies| + if s.Start? then 1 else 0
  {
    match s
    case Start(id) => Opened(m, id)
    case Chunk(id, bytes) => Written(m, id, bytes)
    case End(id) => Closed(m, id)
    case Cancel(id) => Closed(m, id)
    case StreamEnd => AllClosed(m)
    case Read(k, n) => if k < |m.bodies| then Update(m, k, m.bodies[k].AfterRead(n)) else m
    case LocalClose(k) => if k < |m.bodies| then Update(m, k, m.bodies[k].Close()) else m
  }

  function Run(t: History<Step>): (m: Mux)
    ensures WellFormed(m) && |m.bodies| == Starts(t)
  {
    if t.Empty? then EMPTY else Apply(Run(t.before), t.last)
  }

  // ---- the same history seen by one request alone ----

  function Starts(t: History<Step>): nat {
    if t.Empty? then 0 else Starts(t.before) + if t.last.Start? then 1 else 0
  }

  /** Where the k-th request stands on the wire. A second START for the same id takes the id over. */
  datatype Phase = NotYet | Receiving(id: string) | Replaced | Over

  function WirePhase(t: History<Step>, k: nat): Phase {
    if t.Empty? then NotYet
    else
      var front, s := t.before, t.last;
      match WirePhase(front, k)
      case NotYet => if s.Start? && Starts(front) == k then Receiving(s.id) else NotYet
      case Receiving(id) =>
        if s == Start(id) then Replaced
        else if s == End(id) || s == Cancel(id) || s == StreamEnd then Over
        else Receiving(id)
      case Replaced => Replaced
      case Over => Over
  }

  /** All bytes the wire carried for the k-th request: its own chunks, in order, from its START to its end. */
  function Sent(t: History<Step>, k: nat): seq<Byte> {
    if t.Empty? then []
    else
      var front, s := t.before, t.last;
      Sent(front, k) + if s.Chunk? && WirePhase(front, k) == Receiving(s.id) then s.bytes else []
  }

  predicate LocallyClosed(t: History<Step>, k: nat) {
    t.Then? && (LocallyClosed(t.before, k) || (t.last == LocalClose(k) && k < Starts(t.before)))
  }

  /** The part of Sent that came before the local side closed the body. */
  function Accepted(t: History<Step>, k: nat): seq<Byte> {
    if t.Empty? then []
    else
      var front, s := t.before, t.last;
      Accepted(front, k) +
      if s.Chunk? && WirePhase(front, k) == Receiving(s.id) && !LocallyClosed(front, k) then s.bytes else []
  }

  /** Everything the reader of the k-th body has been given. */
  function Delivered(t: History<Step>, k: nat): seq<Byte> {
    if t.Empty? then []
    else
      var front, s := t.before, t.last;
      var m := Run(front);
      Delivered(front, k) +
      if s.Read? && s.k == k && k < |m.bodies| && m.bodies[k].Reading(s.n).Data?
      then m.bodies[k].Reading(s.n).bytes else []
  }

  // ---- demultiplexing ----

  ghost predicate Routed(t: History<Step>) {
    var m := Run(t);
    && (forall k :: 0 <= k < |m.bodies| && WirePhase(t, k).Receiving? ==>
          var id := WirePhase(t, k).id; id in m.open && m.open[id] == k)
    && (forall id :: id in m.open ==> WirePhase(t, m.open[id]) == Receiving(id))
  }

  lemma {:induction false} NotYetStarted(t: History<Step>, k: nat)
    ensures WirePhase(t, k) == NotYet <==> Starts(t) <= k
    ensures Starts(t) <= k ==> Sent(t, k) == Accepted(t, k) == Delivered(t, k) == [] && !LocallyClosed(t, k)
  {
    if t.Then? {
      NotYetStarted(t.before, k);
    }
  }

  /** The id table always names exactly the requests still receiving. */
  lemma {:induction false} AlwaysRouted(t: History<Step>)
    ensures Routed(t)
  {
    if t.Then? {
      var front, s := t.before, t.last;
      AlwaysRouted(front);
      var m, r := Run(front), Run(t);
      forall k: nat | k <= Starts(front) {
        NotYetStarted(front, k);
      }
      forall id | id in r.open ensures WirePhase(t, r.open[id]) == Receiving(id) {
        if !(s.Start? && s.id == id) {
          assert id in m.open && m.open[id] == r.open[id];
        }
      }
    }
  }

  /** The shared table acts on the k-th body as if that request were alone on the stream. */
  lemma ActsAlone(t: History<Step>, k: nat)
    requires t.Then? && k < Starts(t.before)
    ensures var front, s := t.before, t.last;
            var b := Run(front).bodies[k];
            Run(t).bodies[k] ==
            if s.Chunk? && WirePhase(front, k) == Receiving(s.id) then b.Write(s.bytes)
            else if s == LocalClose(k) || (WirePhase(front, k) != Over && WirePhase(t, k) == Over) then b.Close()
            else if s.Read? && s.k == k then b.AfterRead(s.n)
            else b
  {
    var front, s := t.before, t.last;
    AlwaysRouted(front);
    NotYetStarted(front, k);
    var m := Run(front);
    if s.StreamEnd? {
      assert k in m.open.Values <==> WirePhase(front, k).Receiving? by {
        if k in m.open.Values {
          var id :| id in m.open && m.open[id] == k;
        }
      }
    }
  }

  ghost predicate Conserved(t: History<Step>, k: nat)
    requires k < Starts(t)
  {
    Delivered(t, k) + Run(t).bodies[k].buf == Accepted(t, k)
  }

  lemma StartConserves(t: History<Step>, k: nat)
    requires t.Then? && k < Starts(t) && Starts(t.before) <= k
    ensures Conserved(t, k) && !Run(t).bodies[k].closed && !WirePhase(t, k).Over? && !LocallyClosed(t, k)
  {
    NotYetStarted(t.before, k);
  }

  lemma ReadConserves(t: History<Step>, k: nat)
    requires t.Then? && t.last.Read? && k < Starts(t.before) && Conserved(t.before, k)
    ensures Conserved(t, k)
  {
    ActsAlone(t, k);
    if t.last.k == k {
      var b, n := Run(t.before).bodies[k], t.last.n;
      assert b.buf == (if n < |b.buf| then b.buf[..n] else b.buf) + b.AfterRead(n).buf;
    }
  }

  lemma OtherConserves(t: History<Step>, k: nat)
    requires t.Then? && !t.last.Read? && k < Starts(t.before) && Conserved(t.before, k)
    requires Run(t.before).bodies[k].closed <==> WirePhase(t.before, k).Over? || LocallyClosed(t.before, k)
    ensures Conserved(t, k)
  {
    ActsAlone(t, k);
  }

  lemma ClosedStep(t: History<Step>, k: nat)
    requires t.Then? && k < Starts(t.before)
    requires Run(t.before).bodies[k].closed <==> WirePhase(t.before, k).Over? || LocallyClosed(t.before, k)
    ensures Run(t).bodies[k].closed <==> WirePhase(t, k).Over? || LocallyClosed(t, k)
  {
    ActsAlone(t, k);
  }

  /** For any interleaving of frames and reads, and for each request on its own:
      what was read, followed by what is buffered, is exactly what was accepted,
      and the pipe is closed exactly when the wire or the local side closed it. */
  lemma {:induction false} Demultiplexed(t: History<Step>, k: nat)
    requires k < Starts(t)
    ensures Delivered(t, k) + Run(t).bodies[k].buf == Accepted(t, k)
    ensures Run(t).bodies[k].closed <==> WirePhase(t, k).Over? || LocallyClosed(t, k)
  {
    if Starts(t.before) <= k {
      StartConserves(t, k);
    } else {
      Demultiplexed(t.before, k);
      ClosedStep(t, k);
      if t.last.Read? {
        ReadConserves(t, k);
      } else {
        OtherConserves(t, k);
      }
    }
  }

  lemma {:induction false} AcceptedIsPrefix(t: History<Step>, k: nat)
    ensures Accepted(t, k) <= Sent(t, k)
    ensures !LocallyClosed(t, k) ==> Accepted(t, k) == Sent(t, k)
  {
    if t.Then? {
      AcceptedIsPrefix(t.before, k);
    }
  }

  /** The reader only ever sees a prefix of its own request's bytes. */
  lemma ReadsOwnPrefix(t: History<Step>, k: nat)
    requires k < Starts(t)
    ensures Delivered(t, k) <= Accepted(t, k) <= Sent(t, k)
  {
    Demultiplexed(t, k);
    AcceptedIsPrefix(t, k);
  }

  /** A read reports the end exactly when the body is closed and everything
      accepted has been read; if the local side did not close it first, that is
      every byte the wire ever carries for the request. A read waits exactly
      when nothing is buffered and the body is still open. */
  lemma EofIsComplete(t: History<Step>, k: nat, n: nat)
    requires k < Starts(t)
    ensures var r := Run(t).bodies[k].Reading(n);
            && (r == Eof <==> (WirePhase(t, k).Over? || LocallyClosed(t, k)) && Delivered(t, k) == Accepted(t, k))
            && (r == Blocked <==> !WirePhase(t, k).Over? && !LocallyClosed(t, k) && Delivered(t, k) == Sent(t, k))
            && (r == Eof && !LocallyClosed(t, k) ==> Delivered(t, k) == Sent(t, k))
  {
    Demultiplexed(t, k);
    AcceptedIsPrefix(t, k);
  }

  /** How far a read of n bytes gets. */
  function Reaches(t: History<Step>, k: nat, n: nat): nat {
    if |Delivered(t, k)| + n < |Accepted(t, k)| then |Delivered(t, k)| + n else |Accepted(t, k)|
  }

  /** Every read makes progress: it hands over exactly the next n bytes that were
      accepted, or all that are left. */
  lemma ReadHandsOverNext(t: History<Step>, k: nat, n: nat)
    requires k < Starts(t) && |Delivered(t, k)| < |Accepted(t, k)|
    ensures |Delivered(t, k)| <= Reaches(t, k, n) <= |Accepted(t, k)|
    ensures Delivered(Then(t, Read(k, n)), k) == Accepted(t, k)[..Reaches(t, k, n)]
    ensures Run(t).bodies[k].Reading(n) == Data(Accepted(t, k)[|Delivered(t, k)|..Reaches(t, k, n)])
  {
    Demultiplexed(t, k);
    var buf := Run(t).bodies[k].buf;
    var all, given := Accepted(t, k), Delivered(t, k);
    assert buf == all[|given|..];
    assert all[|given|..Reaches(t, k, n)] == if n < |buf| then buf[..n] else buf;
    assert all[..Reaches(t, k, n)] == given + all[|given|..Reaches(t, k, n)];
  }

  /** At the end, as while waiting, there is nothing to hand over. */
  lemma ReadAtTheEnd(t: History<Step>, k: nat, n: nat)
    requires k < Starts(t) && Delivered(t, k) == Accepted(t, k)
    ensures Delivered(Then(t, Read(k, n)), k) == Delivered(t, k)
    ensures Run(t).bodies[k].Reading(n) == if WirePhase(t, k).Over? || LocallyClosed(t, k) then Eof else Blocked
  {
    Demultiplexed(t, k);
    assert Run(t).bodies[k].buf == [];
  }

  /** The reader reads on, n bytes at a time. */
  function Reads(t: History<Step>, k: nat, n: nat, times: nat): History<Step> {
    if times == 0 then t else Then(Reads(t, k, n, times - 1), Read(k, n))
  }

  lemma ReadKeepsTheRest(t: History<Step>, k: nat, n: nat)
    ensures var u := Then(t, Read(k, n));
            && Starts(u) == Starts(t) && Accepted(u, k) == Accepted(t, k) && WirePhase(u, k) == WirePhase(t, k)
            && (LocallyClosed(u, k) <==> LocallyClosed(t, k))
  {
  }

  /** One read gets on by a byte at least, if there is one left. */
  lemma ReadAdvances(t: History<Step>, k: nat, n: nat)
    requires k < Starts(t) && n > 0
    ensures var given := Delivered(Then(t, Read(k, n)), k);
            |given| <= |Accepted(t, k)| && (|given| > |Delivered(t, k)| || given == Accepted(t, k))
    ensures Delivered(t, k) == Accepted(t, k) ==> Delivered(Then(t, Read(k, n)), k) == Accepted(t, k)
  {
    ReadsOwnPrefix(t, k);
    if |Delivered(t, k)| < |Accepted(t, k)| {
      ReadHandsOverNext(t, k, n);
    } else {
      ReadAtTheEnd(t, k, n);
    }
  }

  lemma {:induction false} ReadsAdvance(t: History<Step>, k: nat, n: nat, times: nat)
    requires k < Starts(t) && n > 0
    ensures var u := Reads(t, k, n, times);
            && Starts(u) == Starts(t) && Accepted(u, k) == Accepted(t, k) && WirePhase(u, k) == WirePhase(t, k)
            && (LocallyClosed(u, k) <==> LocallyClosed(t, k))
    ensures var given := Delivered(Reads(t, k, n, times), k);
            |given| <= |Accepted(t, k)| && (|given| >= |Delivered(t, k)| + times || given == Accepted(t, k))
  {
    if times == 0 {
      ReadsOwnPrefix(t, k);
    } else {
      ReadsAdvance(t, k, n, times - 1);
      ReadKeepsTheRest(Reads(t, k, n, times - 1), k, n);
      ReadAdvances(Reads(t, k, n, times - 1), k, n);
    }
  }

  /** A reader that keeps reading gets everything: once the request is over, or
      was closed on this side, as many reads as there are bytes left reach the
      last one, and the next is told of the end. */
  lemma ReaderFinishes(t: History<Step>, k: nat, n: nat, times: nat)
    requires k < Starts(t) && n > 0 && (WirePhase(t, k).Over? || LocallyClosed(t, k))
    requires times >= |Accepted(t, k)| - |Delivered(t, k)|
    ensures var u := Reads(t, k, n, times); Starts(u) == Starts(t)
    ensures Delivered(Reads(t, k, n, times), k) == Accepted(t, k)
    ensures Run(Reads(t, k, n, times)).bodies[k].Reading(n) == Eof
  {
    ReadsAdvance(t, k, n, times);
    ReadsOwnPrefix(Reads(t, k, n, times), k);
    ReadAtTheEnd(Reads(t, k, n, times), k, n);
  }

  /** Once a request is over on the wire, nothing that follows changes its bytes:
      a drained reader has seen all of them, then and later. */
  lemma {:induction false} OverIsFinal(t: History<Step>, more: History<Step>, k: nat)
    requires WirePhase(t, k).Over?
    ensures WirePhase(Concat(t, more), k).Over? && Sent(Concat(t, more), k) == Sent(t, k) && Accepted(Concat(t, more), k) == Accepted(t, k)
  {
    if more.Then? {
      OverIsFinal(t, more.before, k);
    }
  }

  // ---- the objects themselves ----

  class RequestBody {
    var buf: seq<Byte>
    var closed: bool

    ghost function State(): Body
      reads this
    {
      Body(buf, closed)
    }

    constructor ()
      ensures State() == Body([], false)
    {
      buf, closed := [], false;
    }

    /** Never waits: the buffer grows without bound. */
    method Write(chunk: seq<Byte>)
      modifies this
      ensures State() == old(State()).Write(chunk)
    {
      if closed {
        return;
      }
      buf := buf + chunk;
    }

    method Close()
      modifies this
      ensures State() == old(State()).Close()
    {
      if closed {
        return;
      }
      closed := true;
    }

    /** One attempt under the lock; Blocked leaves the caller waiting for the next write or close. */
    method Read(n: nat) returns (r: ReadResult)
      modifies this
      ensures r == old(State()).Reading(n) && State() == old(State()).AfterRead(n)
      ensures old(buf) != [] ==>
                var taken := if n < |old(buf)| then n else |old(buf)|;
                r == Data(old(buf)[..taken]) && buf == old(buf)[taken..] && closed == old(closed)
      ensures old(buf) == [] ==> r == (if old(closed) then Eof else Blocked) && buf == old(buf) && closed == old(closed)
    {
      if |buf| == 0 && !closed {
        return Blocked;
      }
      if |buf| == 0 && closed {
        return Eof;
      }
      var take := if n < |buf| then n else |buf|;
      r := Data(buf[..take]);
      buf := buf[take..];
    }
  }

  class RequestBodyMux {
    var bodies: map<string, RequestBody>
    ghost var all: seq<RequestBody>
    ghost var slot: map<string, nat>

    ghost predicate Valid()
      reads this
    {
      && bodies.Keys == slot.Keys
      && (forall id :: id in bodies ==> slot[id] < |all| && bodies[id] == all[slot[id]])
      && (forall i, j :: 0 <= i < j < |all| ==> all[i] != all[j])
    }

    ghost function Model(): (m: Mux)
      requires Valid()
      reads this, all
      ensures WellFormed(m)
    {
      Mux(slot, seq(|all|, i requires 0 <= i < |all| reads this, all => all[i].State()))
    }

    constructor ()
      ensures Valid() && Model() == EMPTY
    {
      bodies, all, slot := map[], [], map[];
    }

    method Open(id: string) returns (body: RequestBody)
      requires Valid()
      modifies this
      ensures Valid() && fresh(body) && all == old(all) + [body]
      ensures Model() == Opened(old(Model()), id)
    {
      body := new RequestBody();
      bodies := bodies[id := body];
      slot := slot[id := |all|];
      all := all + [body];
    }

    method Write(id: string, chunk: seq<Byte>)
      requires Valid()
      modifies all
      ensures Valid() && Model() == Written(old(Model()), id, chunk)
    {
      if id in bodies {
        bodies[id].Write(chunk);
      }
    }

    method Close(id: string)
      requires Valid()
      modifies this, all
      ensures Valid() && all == old(all) && Model() == Closed(old(Model()), id)
    {
      if id in bodies {
        var body := bodies[id];
        bodies, slot := bodies - {id}, slot - {id};
        body.Close();
      }
    }

    /** What serveOne does with one frame it received. */
    method Dispatch(frame: Step)
      requires Valid() && (frame.Start? || frame.Chunk? || frame.End? || frame.Cancel?)
      modifies this, all
      ensures Valid() && Model() == Apply(old(Model()), frame)
      ensures all == if frame.Start? then old(all) + [bodies[frame.id]] else old(all)
    {
      match frame
      case Start(id) => var body := Open(id);
      case Chunk(id, bytes) => Write(id, bytes);
      case End(id) => Close(id);
      case Cancel(id) => Close(id);
    }

    method CloseAll()
      requires Valid()
      modifies this, all
      ensures Valid() && all == old(all) && Model() == AllClosed(old(Model()))
    {
      var closing := bodies;
      ghost var before := Model();
      bodies, slot := map[], map[];
      var todo := closing.Keys;
      while todo != {}
        invariant todo <= closing.Keys
        invariant bodies == map[] && slot == map[] && all == old(all)
        invariant forall k :: 0 <= k < |all| ==>
          all[k].State() == if exists id :: id in closing.Keys - todo && before.open[id] == k
                            then before.bodies[k].Close() else before.bodies[k]
        decreases todo
      {
        var id :| id in todo;
        closing[id].Close();
        todo := todo - {id};
      }
    }
  }
}

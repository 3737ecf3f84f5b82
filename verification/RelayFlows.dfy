/**
 The flows of the protocol and the directions of a transfer: what a connection counts is what its directions deliver.
 The two directions of a transfer are run by the loops of `Forwarding`; each event of a direction that the protocol
 can see is one of its branches, and a flow that has ended is a stream that was delivered.
 */
module RelayFlows {
  import opened Wrappers
  import opened Bytes
  import opened Totals
  import opened RelayProtocol
  import opened RelayInvariant
  import opened RelayGuarantees
  import opened RelayMetrics
  import D = StreamDirection
  import RelayShutdown

  /** What the peer of one direction sends, and what an observer of that direction has seen. */
  datatype Trace = Trace(stream: seq<Byte>, window: nat, events: seq<D.Event>)

  ghost predicate Observed(t: Trace) {
    D.ObserveAll(t.stream, t.window, t.events).Some?
  }

  function Advanced(f: Flow, e: D.Event): Flow {
    match e
    case Delivered(bytes) => Flow(f.delivered + |bytes|, f.ended)
    case WriteShutDown => Flow(f.delivered, true)
    case _ => f
  }

  function FlowSeen(events: seq<D.Event>): Flow {
    if events == [] then Flow(0, false) else Advanced(FlowSeen(events[..|events| - 1]), events[|events| - 1])
  }

  lemma {:induction false} FlowFollowsDirection(t: Trace)
    requires Observed(t)
    ensures var d := D.ObserveAll(t.stream, t.window, t.events).value;
            FlowSeen(t.events) == Flow(|d.delivered|, d.shut)
    decreases |t.events|
  {
    if t.events == [] {
    } else {
      FlowFollowsDirection(t.(events := t.events[..|t.events| - 1]));
    }
  }

  /** A flow that has ended delivered exactly the stream of its source, and one that has not, a part of it. */
  lemma EndedFlowIsStream(t: Trace)
    requires Observed(t)
    ensures FlowSeen(t.events).delivered <= |t.stream|
    ensures FlowSeen(t.events).ended ==>
            D.Deliveries(t.events) == t.stream && FlowSeen(t.events).delivered == |t.stream|
  {
    FlowFollowsDirection(t);
    assert t.events[..|t.events|] == t.events;
    D.CutAnywhere(t.stream, t.window, t.events, |t.events|);
  }

  // ---------------------------------------------------------------------------------------------
  // The protocol and the directions of its transfers, run together
  // ---------------------------------------------------------------------------------------------

  /** The branch of the protocol that an event of a direction is, if it is one. */
  function BranchOf(e: D.Event, upward: bool): Option<Choice> {
    match e
    case Delivered(bytes) => Some(Deliver(upward, |bytes|))
    case WriteShutDown => Some(EndStream(upward))
    case _ => None
  }

  /** One direction of one connection. */
  datatype Way = Way(id: nat, upward: bool)

  /** What its peer sends, and how much may be in flight. */
  datatype Source = Source(stream: seq<Byte>, window: nat)

  /** The state of the protocol, and what each direction has done so far. */
  datatype Joint = Joint(state: State, events: map<Way, seq<D.Event>>)

  datatype Happening = ProtocolActs(action: Action) | DirectionActs(way: Way, event: D.Event)

  function TraceOf(sources: Way -> Source, j: Joint, w: Way): Trace {
    Trace(sources(w).stream, sources(w).window, if w in j.events then j.events[w] else [])
  }

  predicate Transfers(s: State, id: nat) {
    OfConnection(id) in s.procs && s.procs[OfConnection(id)].Connected?
    && s.procs[OfConnection(id)].connection.pc == Transferring
  }

  /** Bytes move, and streams end, in the protocol only by an event of a direction that the direction allows; events
      that the protocol does not see happen in the direction alone. */
  ghost function JointStep(c: Config, sources: Way -> Source, j: Joint, h: Happening): Option<Joint> {
    match h
    case ProtocolActs(a) => (
      if a.ProcSteps? && RelayShutdown.MovesBytes(a.choice) then None
      else match Step(c, j.state, a)
           case None => None
           case Some(t) => Some(Joint(t, j.events)))
    case DirectionActs(w, e) => (
      var before := TraceOf(sources, j, w);
      var after := before.(events := before.events + [e]);
      if !Transfers(j.state, w.id) || !Observed(after) then None
      else match BranchOf(e, w.upward)
           case None => Some(Joint(j.state, j.events[w := after.events]))
           case Some(choice) =>
             match Step(c, j.state, ProcSteps(OfConnection(w.id), choice))
             case None => None
             case Some(t) => Some(Joint(t, j.events[w := after.events])))
  }

  ghost function JointRun(c: Config, sources: Way -> Source, j: Joint, happenings: seq<Happening>): Option<Joint>
    decreases |happenings|
  {
    if happenings == [] then Some(j)
    else match JointStep(c, sources, j, happenings[0])
         case None => None
         case Some(k) => JointRun(c, sources, k, happenings[1..])
  }

  /** A connection counts what its direction has done; a direction without a connection has done nothing. */
  ghost predicate WayOk(sources: Way -> Source, j: Joint, w: Way) {
    var i := OfConnection(w.id);
    if i in j.state.procs && j.state.procs[i].Connected? then
      && Observed(TraceOf(sources, j, w))
      && FlowOf(j.state.procs[i].connection, w.upward) == FlowSeen(TraceOf(sources, j, w).events)
    else w !in j.events
  }

  ghost predicate Tracked(sources: Way -> Source, j: Joint) {
    forall w :: WayOk(sources, j, w)
  }

  lemma KeepsFlows(c: Config, s: State, p: Proc, choice: Choice)
    requires ProcEffect(c, s, p, choice).Some? && !RelayShutdown.MovesBytes(choice)
    ensures var e := ProcEffect(c, s, p, choice).value;
            && (p.Connected? ==> e.next.Connected? && e.child == None
                                 && e.next.connection.up == p.connection.up
                                 && e.next.connection.down == p.connection.down)
            && (p.Listening? ==> e.next.Listening?)
            && (e.child.Some? ==> e.child.value.connection.up == e.child.value.connection.down == Flow(0, false))
  {
  }

  lemma ProtocolKeepsTracked(c: Config, sources: Way -> Source, j: Joint, a: Action)
    requires Inv(c, j.state) && Tracked(sources, j) && JointStep(c, sources, j, ProtocolActs(a)).Some?
    ensures Tracked(sources, JointStep(c, sources, j, ProtocolActs(a)).value)
  {
    var k := JointStep(c, sources, j, ProtocolActs(a)).value;
    if a.ProcSteps? {
      var p := j.state.procs[a.who];
      var e := ProcEffect(c, j.state, p, a.choice).value;
      assert ProcOk(c, p);
      StepsAreLawful(c, j.state, p, a.choice);
      KeepsFlows(c, j.state, p, a.choice);
      assert e.child.Some? ==> OfConnection(e.child.value.id) !in j.state.procs;
      EffectKeepsTracked(sources, j, k, a.who, e);
    } else {
      forall w ensures WayOk(sources, k, w) {
        assert WayOk(sources, j, w);
      }
    }
  }

  lemma EffectKeepsTracked(sources: Way -> Source, j: Joint, k: Joint, who: ProcId, e: Effect)
    requires Tracked(sources, j) && who in j.state.procs && k.events == j.events
    requires k.state.procs == Spawn(j.state.procs[who := e.next], e.child)
    requires e.next.Connected? <==> j.state.procs[who].Connected?
    requires e.next.Connected? ==>
               && e.next.connection.up == j.state.procs[who].connection.up
               && e.next.connection.down == j.state.procs[who].connection.down
    requires e.child.Some? ==>
               && OfConnection(e.child.value.id) !in j.state.procs
               && e.child.value.connection.up == e.child.value.connection.down == Flow(0, false)
    ensures Tracked(sources, k)
  {
    forall w ensures WayOk(sources, k, w) {
      assert WayOk(sources, j, w);
      assert TraceOf(sources, k, w) == TraceOf(sources, j, w);
    }
  }

  lemma FlowSeenOneMore(events: seq<D.Event>, e: D.Event)
    ensures FlowSeen(events + [e]) == Advanced(FlowSeen(events), e)
  {
    assert (events + [e])[..|events|] == events;
  }

  lemma BranchMoves(c: Config, s: State, id: nat, k: Connection, e: D.Event, upward: bool)
    requires IsTransferring(s, id, k) && BranchOf(e, upward).Some?
    ensures var t := Step(c, s, ProcSteps(OfConnection(id), BranchOf(e, upward).value));
            t.Some? ==> t.value.procs ==
                        s.procs[OfConnection(id) := Connected(WithFlow(k, upward, Advanced(FlowOf(k, upward), e)))]
  {
  }

  lemma NothingMoves(s: State, id: nat, k: Connection, upward: bool)
    requires IsTransferring(s, id, k)
    ensures s.procs == s.procs[OfConnection(id) := Connected(WithFlow(k, upward, FlowOf(k, upward)))]
  {
    assert WithFlow(k, upward, FlowOf(k, upward)) == k;
  }

  /** What an event of a direction does to the connection. */
  lemma DirectionStep(c: Config, sources: Way -> Source, j: Joint, w: Way, e: D.Event)
    requires Tracked(sources, j) && JointStep(c, sources, j, DirectionActs(w, e)).Some?
    ensures var k, i := JointStep(c, sources, j, DirectionActs(w, e)).value, OfConnection(w.id);
            var next := TraceOf(sources, j, w).events + [e];
            && k.events == j.events[w := next] && i in j.state.procs && j.state.procs[i].Connected?
            && k.state.procs ==
               j.state.procs[i := Connected(WithFlow(j.state.procs[i].connection, w.upward, FlowSeen(next)))]
  {
    var connection := j.state.procs[OfConnection(w.id)].connection;
    assert WayOk(sources, j, w);
    FlowSeenOneMore(TraceOf(sources, j, w).events, e);
    if BranchOf(e, w.upward).Some? {
      BranchMoves(c, j.state, w.id, connection, e, w.upward);
    } else {
      NothingMoves(j.state, w.id, connection, w.upward);
    }
  }

  lemma DirectionKeepsTracked(c: Config, sources: Way -> Source, j: Joint, w: Way, e: D.Event)
    requires Tracked(sources, j) && JointStep(c, sources, j, DirectionActs(w, e)).Some?
    ensures Tracked(sources, JointStep(c, sources, j, DirectionActs(w, e)).value)
  {
    var k := JointStep(c, sources, j, DirectionActs(w, e)).value;
    DirectionStep(c, sources, j, w, e);
    forall v ensures WayOk(sources, k, v) {
      assert WayOk(sources, j, v);
      if v != w {
        assert TraceOf(sources, k, v) == TraceOf(sources, j, v);
      } else {
        assert TraceOf(sources, k, w).events == TraceOf(sources, j, w).events + [e];
      }
    }
  }

  /** A joint step is one step of the protocol or none. */
  lemma JointStepIsStep(c: Config, sources: Way -> Source, j: Joint, h: Happening)
    requires Inv(c, j.state) && JointStep(c, sources, j, h).Some?
    ensures var k := JointStep(c, sources, j, h).value;
            Inv(c, k.state) && (k.state == j.state || StepsTo(c, j.state, k.state))
  {
    var k := JointStep(c, sources, j, h).value;
    if h.ProtocolActs? {
      StepKeepsInv(c, j.state, h.action);
      assert Step(c, j.state, h.action) == Some(k.state);
    } else if BranchOf(h.event, h.way.upward).Some? {
      var a := ProcSteps(OfConnection(h.way.id), BranchOf(h.event, h.way.upward).value);
      StepKeepsInv(c, j.state, a);
      assert Step(c, j.state, a) == Some(k.state);
    }
  }

  lemma {:induction false} JointRunKeepsTracked(c: Config, sources: Way -> Source, j: Joint, happenings: seq<Happening>)
    requires Inv(c, j.state) && Tracked(sources, j) && JointRun(c, sources, j, happenings).Some?
    ensures var k := JointRun(c, sources, j, happenings).value;
            Tracked(sources, k) && RunsTo(c, j.state, k.state)
    decreases |happenings|
  {
    if happenings == [] {
      assert Run(c, j.state, []) == Some(j.state);
    } else {
      var h := happenings[0];
      var k := JointStep(c, sources, j, h).value;
      JointStepIsStep(c, sources, j, h);
      match h {
        case ProtocolActs(a) => ProtocolKeepsTracked(c, sources, j, a);
        case DirectionActs(w, e) => DirectionKeepsTracked(c, sources, j, w, e);
      }
      JointRunKeepsTracked(c, sources, k, happenings[1..]);
      if k.state != j.state {
        RunsOneMore(c, j.state, k.state, JointRun(c, sources, k, happenings[1..]).value.state);
      }
    }
  }

  function Together(c: Config): Joint {
    Joint(Init(c), map[])
  }

  /** In every state of a run of the protocol together with the directions of its transfers, each connection counts
      exactly what its directions have delivered, and that is a state the protocol reaches. */
  lemma TogetherTracked(c: Config, sources: Way -> Source, happenings: seq<Happening>)
    requires JointRun(c, sources, Together(c), happenings).Some?
    ensures var j := JointRun(c, sources, Together(c), happenings).value;
            Tracked(sources, j) && Reachable(c, j.state)
  {
    InitIsInv(c);
    JointRunKeepsTracked(c, sources, Together(c), happenings);
  }

  // ---------------------------------------------------------------------------------------------
  // Counters and streams
  // ---------------------------------------------------------------------------------------------

  /** What the sources of the recorded connections of relay `r` sent in this direction. */
  function RecordedStreams(s: State, r: nat, upward: bool, sources: Way -> Source): map<ProcId, seq<Byte>> {
    map i | i in s.procs && i.OfConnection? && RecordedTransfer(s.procs[i], r, upward) ::
      sources(Way(i.id, upward)).stream
  }

  /** In every state of every such run, each byte counter is the sum of the lengths of what the sources sent, over
      exactly the connections that have recorded that direction. */
  lemma ByteCountersSumSources(c: Config, sources: Way -> Source, happenings: seq<Happening>, r: nat, upward: bool)
    requires JointRun(c, sources, Together(c), happenings).Some?
    ensures var s := JointRun(c, sources, Together(c), happenings).value.state;
            Metered(s, ByteCounter(upward), r)
            == Sum(RecordedStreams(s, r, upward, sources), (stream: seq<Byte>) => |stream|)
  {
    var j := JointRun(c, sources, Together(c), happenings).value;
    TogetherTracked(c, sources, happenings);
    ByteCountersSumStreams(c, j.state, r, upward);
    var streams := RecordedStreams(j.state, r, upward, sources);
    var length: seq<Byte> -> int := stream => |stream|;
    forall i | i in j.state.procs
      ensures StreamLength(r, upward)(j.state.procs[i]) == (if i in streams then length(streams[i]) else 0)
    {
      LocalStateOk(c, j.state, i);
      if RecordedTransfer(j.state.procs[i], r, upward) {
        assert WayOk(sources, j, Way(i.id, upward));
        EndedFlowIsStream(TraceOf(sources, j, Way(i.id, upward)));
      }
    }
    SumOver(j.state.procs, StreamLength(r, upward), streams, length);
  }

  // ---------------------------------------------------------------------------------------------
  // Directions drive the protocol
  // ---------------------------------------------------------------------------------------------

  lemma RunsThenRuns(c: Config, s: State, t: State, u: State)
    requires RunsTo(c, s, t) && RunsTo(c, t, u)
    ensures RunsTo(c, s, u)
  {
    var first: seq<Action> :| Run(c, s, first) == Some(t);
    var second: seq<Action> :| Run(c, t, second) == Some(u);
    RunsCompose(c, s, first, second);
  }

  function WithFlow(k: Connection, upward: bool, f: Flow): Connection {
    if upward then k.(up := f) else k.(down := f)
  }

  predicate IsTransferring(s: State, id: nat, k: Connection) {
    OfConnection(id) in s.procs && s.procs[OfConnection(id)] == Connected(k) && k.pc == Transferring
  }

  lemma BranchIsTaken(c: Config, s: State, id: nat, k: Connection, e: D.Event, upward: bool)
    requires IsTransferring(s, id, k) && !FlowOf(k, upward).ended && BranchOf(e, upward).Some?
    ensures StepsTo(c, s, WithConnection(s, id, WithFlow(k, upward, Advanced(FlowOf(k, upward), e)), s.counters))
  {
    assert Step(c, s, ProcSteps(OfConnection(id), BranchOf(e, upward).value)) ==
           Some(WithConnection(s, id, WithFlow(k, upward, Advanced(FlowOf(k, upward), e)), s.counters));
  }

  lemma EventDrivesFlow(c: Config, s: State, id: nat, k: Connection, upward: bool, t: Trace)
    requires IsTransferring(s, id, k) && Observed(t) && t.events != []
    requires FlowOf(k, upward) == FlowSeen(t.events[..|t.events| - 1])
    ensures RunsTo(c, s, WithConnection(s, id, WithFlow(k, upward, FlowSeen(t.events)), s.counters))
  {
    var before, e := t.(events := t.events[..|t.events| - 1]), t.events[|t.events| - 1];
    var u := WithConnection(s, id, WithFlow(k, upward, FlowSeen(t.events)), s.counters);
    if BranchOf(e, upward).Some? {
      FlowFollowsDirection(before);
      BranchIsTaken(c, s, id, k, e, upward);
      RunsOne(c, s, u);
    } else {
      assert u == s;
      assert Run(c, s, []) == Some(s);
    }
  }

  /** Whatever a direction does, the protocol can do. */
  lemma {:induction false} DirectionDrivesFlow(c: Config, s: State, id: nat, k: Connection, upward: bool, t: Trace)
    requires IsTransferring(s, id, k) && FlowOf(k, upward) == Flow(0, false) && Observed(t)
    ensures RunsTo(c, s, WithConnection(s, id, WithFlow(k, upward, FlowSeen(t.events)), s.counters))
    decreases |t.events|
  {
    if t.events == [] {
      assert WithConnection(s, id, k, s.counters) == s;
      assert Run(c, s, []) == Some(s);
    } else {
      var before := t.(events := t.events[..|t.events| - 1]);
      var reached, last := WithFlow(k, upward, FlowSeen(before.events)), WithFlow(k, upward, FlowSeen(t.events));
      var u := WithConnection(s, id, reached, s.counters);
      DirectionDrivesFlow(c, s, id, k, upward, before);
      EventDrivesFlow(c, u, id, reached, upward, t);
      CountsAgain(s, id, reached, s.counters, last, s.counters);
      assert WithFlow(reached, upward, FlowSeen(t.events)) == last;
      RunsThenRuns(c, s, u, WithConnection(u, id, last, s.counters));
    }
  }

  /** A transfer whose two directions succeed ends with exactly the lengths of the two streams added to the counters. */
  lemma CompletedTransferCountsStreams(c: Config, s: State, id: nat, k: Connection, up: Trace, down: Trace)
    requires IsTransferring(s, id, k) && k.up == k.down == Flow(0, false)
    requires D.Forwards(up.stream, up.window, up.events, Ok(|up.stream|))
    requires D.Forwards(down.stream, down.window, down.events, Ok(|down.stream|))
    ensures var last := k.(pc := Releasing(4), outcome := Completed,
                           up := Flow(|up.stream|, true), down := Flow(|down.stream|, true));
            RunsTo(c, s, WithConnection(s, id, last, AfterClosed(s.counters, k.relay, |up.stream|, |down.stream|)))
  {
    BothStreamsEnd(c, s, id, k, up, down);
    var both := k.(up := Flow(|up.stream|, true), down := Flow(|down.stream|, true));
    var t := WithConnection(s, id, both, s.counters);
    Joins(c, t, id, both);
    var joined := both.(pc := LeavingActive, outcome := Completed);
    var u := WithConnection(t, id, joined, t.counters);
    LeavesLikeClosed(c, u, id, joined);
    var last, counters := joined.(pc := Releasing(4)), AfterClosed(s.counters, k.relay, |up.stream|, |down.stream|);
    CountsAgain(t, id, joined, t.counters, last, counters);
    CountsAgain(s, id, both, s.counters, last, counters);
    RunsOneMore(c, t, u, WithConnection(u, id, last, counters));
    RunsThenRuns(c, s, t, WithConnection(t, id, last, counters));
  }

  lemma BothStreamsEnd(c: Config, s: State, id: nat, k: Connection, up: Trace, down: Trace)
    requires IsTransferring(s, id, k) && k.up == k.down == Flow(0, false)
    requires D.Forwards(up.stream, up.window, up.events, Ok(|up.stream|))
    requires D.Forwards(down.stream, down.window, down.events, Ok(|down.stream|))
    ensures var both := k.(up := Flow(|up.stream|, true), down := Flow(|down.stream|, true));
            RunsTo(c, s, WithConnection(s, id, both, s.counters))
  {
    SucceededFlow(up);
    SucceededFlow(down);
    var first := k.(up := Flow(|up.stream|, true));
    var both := first.(down := Flow(|down.stream|, true));
    var t := WithConnection(s, id, first, s.counters);
    DirectionDrivesFlow(c, s, id, k, true, up);
    DirectionDrivesFlow(c, t, id, first, false, down);
    CountsAgain(s, id, first, s.counters, both, s.counters);
    RunsThenRuns(c, s, t, WithConnection(t, id, both, t.counters));
  }

  lemma SucceededFlow(t: Trace)
    requires D.Forwards(t.stream, t.window, t.events, Ok(|t.stream|))
    ensures FlowSeen(t.events) == Flow(|t.stream|, true)
  {
    FlowFollowsDirection(t);
    EndedFlowIsStream(t);
  }

  lemma Joins(c: Config, s: State, id: nat, k: Connection)
    requires IsTransferring(s, id, k) && BothEnded(k)
    ensures StepsTo(c, s, WithConnection(s, id, k.(pc := LeavingActive, outcome := Completed), s.counters))
  {
    assert Step(c, s, ProcSteps(OfConnection(id), JoinOk)) ==
           Some(WithConnection(s, id, k.(pc := LeavingActive, outcome := Completed), s.counters));
  }
}

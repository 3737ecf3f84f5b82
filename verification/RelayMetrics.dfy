/**
 The metrics of one relay as the object it is, and one client from the accept to the end of its connection as the
 code executes it; and the proof that the steps in which a connection leaves are one call of `closed`.
 */
module RelayMetrics {
  import opened Wrappers
  import opened RelayProtocol
  import opened RelayInvariant
  import opened RelayAdmission

  /** The exported numbers of one relay. */
  datatype Figures = Figures(
    accepted: int, active: int, rejected: int, closed: int,
    connectFailures: int, connectTimeouts: int, idleTimeouts: int,
    bytesUp: int, bytesDown: int)

  function FiguresOf(counters: map<Counter, int>, r: nat): Figures {
    Figures(
      Read(counters, Reported(Accepted, r)), Read(counters, Reported(Active, r)),
      Read(counters, Tallied(Rejected, r)), Read(counters, Reported(Closed, r)),
      Read(counters, Reported(ConnectFailures, r)), Read(counters, Reported(ConnectTimeouts, r)),
      Read(counters, Reported(IdleTimeouts, r)),
      Read(counters, Reported(BytesUp, r)), Read(counters, Reported(BytesDown, r)))
  }

  /** The figures after one more connection was closed. */
  function WithClosed(f: Figures, up: nat, down: nat): Figures {
    f.(active := f.active - 1, closed := f.closed + 1, bytesUp := f.bytesUp + up, bytesDown := f.bytesDown + down)
  }

  class RelayMetrics {
    var connectionsAccepted: int
    var activeConnections: int
    var connectionsRejected: int
    var connectionsClosed: int
    var upstreamConnectFailures: int
    var upstreamConnectTimeouts: int
    var idleTimeouts: int
    var bytesClientToUpstream: int
    var bytesUpstreamToClient: int

    function View(): Figures
      reads this
    {
      Figures(connectionsAccepted, activeConnections, connectionsRejected, connectionsClosed,
              upstreamConnectFailures, upstreamConnectTimeouts, idleTimeouts,
              bytesClientToUpstream, bytesUpstreamToClient)
    }

    constructor ()
      ensures View() == Figures(0, 0, 0, 0, 0, 0, 0, 0, 0)
    {
      connectionsAccepted, activeConnections, connectionsRejected, connectionsClosed := 0, 0, 0, 0;
      upstreamConnectFailures, upstreamConnectTimeouts, idleTimeouts := 0, 0, 0;
      bytesClientToUpstream, bytesUpstreamToClient := 0, 0;
    }

    method Accepted()
      modifies this
      ensures View() == old(View()).(accepted := old(View().accepted) + 1, active := old(View().active) + 1)
    {
      connectionsAccepted := connectionsAccepted + 1;
      activeConnections := activeConnections + 1;
    }

    method Rejected()
      modifies this
      ensures View() == old(View()).(rejected := old(View().rejected) + 1)
    {
      connectionsRejected := connectionsRejected + 1;
    }

    method Closed(clientToUpstream: nat, upstreamToClient: nat)
      modifies this
      ensures View() == WithClosed(old(View()), clientToUpstream, upstreamToClient)
    {
      activeConnections := activeConnections - 1;
      connectionsClosed := connectionsClosed + 1;
      bytesClientToUpstream := bytesClientToUpstream + clientToUpstream;
      bytesUpstreamToClient := bytesUpstreamToClient + upstreamToClient;
    }

    method UpstreamFailure()
      modifies this
      ensures View() == old(View()).(connectFailures := old(View().connectFailures) + 1)
    {
      upstreamConnectFailures := upstreamConnectFailures + 1;
    }

    method UpstreamTimeout()
      modifies this
      ensures View() == old(View()).(connectTimeouts := old(View().connectTimeouts) + 1)
    {
      upstreamConnectTimeouts := upstreamConnectTimeouts + 1;
    }

    method IdleTimeout()
      modifies this
      ensures View() == old(View()).(idleTimeouts := old(View().idleTimeouts) + 1)
    {
      idleTimeouts := idleTimeouts + 1;
    }
  }

  // ---------------------------------------------------------------------------------------------
  // One client
  // ---------------------------------------------------------------------------------------------

  /** What the first select of a connection yields, and what the second does. */
  datatype Upstream = Established | ConnectFails | ConnectTimesOut | ForcedWhileConnecting

  datatype Transfer = Transferred(up: nat, down: nat) | FailsTimedOut | FailsOtherwise | ForcedWhileTransferring

  /** How the figures of a relay differ after a connection that was counted active: it moves from active to closed
      whatever happens, raises at most the one failure counter its end calls for, and adds bytes only if both directions
      reached their end. */
  predicate LeavesOnce(before: Figures, after: Figures, upstream: Upstream, transfer: Transfer) {
    && after.active == before.active - 1 && after.closed == before.closed + 1
    && after.accepted == before.accepted && after.rejected == before.rejected
    && (after.connectFailures - before.connectFailures) + (after.connectTimeouts - before.connectTimeouts)
       + (after.idleTimeouts - before.idleTimeouts) <= 1
    && (after.connectFailures == before.connectFailures + 1 <==> upstream == ConnectFails)
    && (after.connectTimeouts == before.connectTimeouts + 1 <==> upstream == ConnectTimesOut)
    && (after.idleTimeouts == before.idleTimeouts + 1 <==> upstream == Established && transfer == FailsTimedOut)
    && before.connectFailures <= after.connectFailures && before.connectTimeouts <= after.connectTimeouts
    && before.idleTimeouts <= after.idleTimeouts
    && (if upstream == Established && transfer.Transferred?
        then after.bytesUp == before.bytesUp + transfer.up && after.bytesDown == before.bytesDown + transfer.down
        else after.bytesUp == before.bytesUp && after.bytesDown == before.bytesDown)
  }

  /** `handle_connection`: every exit path reports the end of the connection once and gives both connecting permits
      back. */
  method HandleConnection(
      metrics: RelayMetrics, semaphores: Semaphores, r: nat, permits: Permits, upstream: Upstream, transfer: Transfer)
    requires permits == ConfiguredPermits(semaphores.available, r)
    modifies metrics, semaphores
    ensures LeavesOnce(old(metrics.View()), metrics.View(), upstream, transfer)
    ensures semaphores.available == More(More(old(semaphores.available), RelayConnecting(r)), GlobalConnecting)
    ensures semaphores.available.Keys == old(semaphores.available.Keys)
  {
    if upstream != Established {
      match upstream {
        case ConnectFails => metrics.UpstreamFailure();
        case ConnectTimesOut => metrics.UpstreamTimeout();
        case _ =>
      }
      metrics.Closed(0, 0);
      semaphores.DropPermit(RelayConnecting(r), permits.relayConnecting);
      semaphores.DropPermit(GlobalConnecting, permits.globalConnecting);
      return;
    }
    MoreCommutes(semaphores.available, RelayConnecting(r), GlobalConnecting);
    semaphores.DropPermit(GlobalConnecting, permits.globalConnecting);
    semaphores.DropPermit(RelayConnecting(r), permits.relayConnecting);
    if transfer.ForcedWhileTransferring? {
      metrics.Closed(0, 0);
      return;
    }
    var up, down := 0, 0;
    match transfer {
      case Transferred(n, m) => up, down := n, m;
      case FailsTimedOut => metrics.IdleTimeout();
      case _ =>
    }
    metrics.Closed(up, down);
  }

  lemma MoreCommutes(available: map<Permit, nat>, x: Permit, y: Permit)
    ensures More(More(available, x), y) == More(More(available, y), x)
  {
  }

  /** One client, from the accept to the end of its connection, when nothing else happens meanwhile: whatever its
      limits, its upstream and its transfer do, every semaphore is as before and the gauge is too; an admitted client is
      accepted once and closed once, and a refused one is rejected once and changes nothing else. */
  method ServeClient(
      metrics: RelayMetrics, semaphores: Semaphores, r: nat, upstream: Upstream, transfer: Transfer)
    returns (admitted: bool)
    modifies metrics, semaphores
    ensures admitted <==> CanClimb(old(semaphores.available), r, 0)
    ensures semaphores.available == old(semaphores.available)
    ensures admitted ==>
              var before := old(metrics.View());
              LeavesOnce(before.(accepted := before.accepted + 1, active := before.active + 1), metrics.View(),
                  upstream, transfer)
    ensures !admitted ==> metrics.View() == old(metrics.View()).(rejected := old(metrics.View().rejected) + 1)
  {
    AdmittedIffNothingExhausted(semaphores.available, r, 0);
    ghost var before := semaphores.available;
    var permits := AcquireInOrder(semaphores, r);
    if permits == None {
      metrics.Rejected();
      return false;
    }
    UnwindsClimb(before, r, 0);
    UnwindIsFourDrops(semaphores.available, r);
    metrics.Accepted();
    HandleConnection(metrics, semaphores, r, permits.value, upstream, transfer);
    semaphores.DropPermit(RelayConnection(r), permits.value.relay);
    semaphores.DropPermit(GlobalConnection, permits.value.global);
    admitted := true;
  }

  lemma UnwindIsFourDrops(available: map<Permit, nat>, r: nat)
    ensures Unwind(available, r, 4) ==
            More(More(More(More(available, RelayConnecting(r)), GlobalConnecting), RelayConnection(r)),
                GlobalConnection)
  {
    var third := More(available, RelayConnecting(r));
    var second := More(third, GlobalConnecting);
    assert Unwind(available, r, 4) == Unwind(third, r, 3) == Unwind(second, r, 2);
    assert Unwind(second, r, 2) == Unwind(More(second, RelayConnection(r)), r, 1);
  }

  // ---------------------------------------------------------------------------------------------
  // The steps of the protocol do the same
  // ---------------------------------------------------------------------------------------------

  function Added(counters: map<Counter, int>, k: Counter, n: int): map<Counter, int> {
    ApplyToCounters(counters, Add(k, n))
  }

  function AfterClosed(counters: map<Counter, int>, r: nat, up: nat, down: nat): map<Counter, int> {
    Added(Added(Added(Added(counters, Reported(Active, r), -1), Reported(Closed, r), 1), Reported(BytesUp, r), up),
          Reported(BytesDown, r), down)
  }

  /** Of the relay itself `closed` moves the gauge, the closed connections and the bytes, and of other relays
      nothing. */
  lemma ClosedFigures(counters: map<Counter, int>, r: nat, up: nat, down: nat)
    ensures FiguresOf(AfterClosed(counters, r, up, down), r) == WithClosed(FiguresOf(counters, r), up, down)
    ensures forall q | q != r :: FiguresOf(AfterClosed(counters, r, up, down), q) == FiguresOf(counters, q)
  {
  }

  function WithConnection(s: State, id: nat, k: Connection, counters: map<Counter, int>): State {
    s.(procs := s.procs[OfConnection(id) := Connected(k)], counters := counters)
  }

  lemma CountsOne(c: Config, s: State, id: nat, k: Connection, next: Connection, x: Counter, n: int)
    requires OfConnection(id) in s.procs && s.procs[OfConnection(id)] == Connected(k)
    requires ConnectionProceeds(c, k) == Some(ConnectionEffect(next, Add(x, n)))
    ensures StepsTo(c, s, WithConnection(s, id, next, Added(s.counters, x, n)))
  {
    assert Step(c, s, ProcSteps(OfConnection(id), Proceed)) ==
        Some(WithConnection(s, id, next, Added(s.counters, x, n)));
  }

  lemma CountsAgain(s: State, id: nat, k: Connection, counters: map<Counter, int>, next: Connection,
      more: map<Counter, int>)
    ensures WithConnection(WithConnection(s, id, k, counters), id, next, more) == WithConnection(s, id, next, more)
  {
  }

  /** A connection that leaves, and is not interleaved with others, calls `closed` once, with its stream lengths if
      both directions ended and with zeros otherwise: the figures of its relay become what `RelayMetrics.Closed` makes
      of them, and those of every other relay stay. */
  lemma LeavesLikeClosed(c: Config, s: State, id: nat, k: Connection)
    requires OfConnection(id) in s.procs && s.procs[OfConnection(id)] == Connected(k) && k.pc == LeavingActive
    ensures var counters := AfterClosed(s.counters, k.relay, RecordedUp(k), RecordedDown(k));
            && RunsTo(c, s, WithConnection(s, id, k.(pc := Releasing(4)), counters))
            && FiguresOf(counters, k.relay) ==
               WithClosed(FiguresOf(s.counters, k.relay), RecordedUp(k), RecordedDown(k))
            && forall q | q != k.relay :: FiguresOf(counters, q) == FiguresOf(s.counters, q)
  {
    ClosedFigures(s.counters, k.relay, RecordedUp(k), RecordedDown(k));
    LeavingRuns(c, s, id, k);
  }

  lemma LeavingRuns(c: Config, s: State, id: nat, k: Connection)
    requires OfConnection(id) in s.procs && s.procs[OfConnection(id)] == Connected(k) && k.pc == LeavingActive
    ensures RunsTo(c, s, WithConnection(s, id, k.(pc := Releasing(4)),
                                        AfterClosed(s.counters, k.relay, RecordedUp(k), RecordedDown(k))))
  {
    var k1 := k.(pc := CountingClosed);
    var n1 := Added(s.counters, Reported(Active, k.relay), -1);
    var s1 := WithConnection(s, id, k1, n1);
    CountsOne(c, s, id, k, k1, Reported(Active, k.relay), -1);
    ClosingLikeClosed(c, s1, id, k1);
    var last, counters := k.(pc := Releasing(4)), AfterClosed(s.counters, k.relay, RecordedUp(k), RecordedDown(k));
    CountsAgain(s, id, k1, n1, last, counters);
    RunsOneMore(c, s, s1, WithConnection(s1, id, last, counters));
  }

  lemma ClosingLikeClosed(c: Config, s: State, id: nat, k: Connection)
    requires OfConnection(id) in s.procs && s.procs[OfConnection(id)] == Connected(k) && k.pc == CountingClosed
    ensures RunsTo(c, s, WithConnection(s, id, k.(pc := Releasing(4)), AfterLeaving(s.counters, k)))
  {
    var k1 := k.(pc := AddingBytesUp);
    var n1 := Added(s.counters, Reported(Closed, k.relay), 1);
    var s1 := WithConnection(s, id, k1, n1);
    CountsOne(c, s, id, k, k1, Reported(Closed, k.relay), 1);
    AddingLikeClosed(c, s1, id, k1);
    var last, counters := k.(pc := Releasing(4)), AfterLeaving(s.counters, k);
    CountsAgain(s, id, k1, n1, last, counters);
    RunsOneMore(c, s, s1, WithConnection(s1, id, last, counters));
  }

  /** What is left of `closed` after the gauge, and after the closed connections, were updated. */
  function AfterLeaving(counters: map<Counter, int>, k: Connection): map<Counter, int> {
    AfterBytes(Added(counters, Reported(Closed, k.relay), 1), k)
  }

  function AfterBytes(counters: map<Counter, int>, k: Connection): map<Counter, int> {
    Added(Added(counters, Reported(BytesUp, k.relay), RecordedUp(k)), Reported(BytesDown, k.relay), RecordedDown(k))
  }

  lemma AddingLikeClosed(c: Config, s: State, id: nat, k: Connection)
    requires OfConnection(id) in s.procs && s.procs[OfConnection(id)] == Connected(k) && k.pc == AddingBytesUp
    ensures RunsTo(c, s, WithConnection(s, id, k.(pc := Releasing(4)), AfterBytes(s.counters, k)))
  {
    var k1, k2 := k.(pc := AddingBytesDown), k.(pc := Releasing(4));
    var n1 := Added(s.counters, Reported(BytesUp, k.relay), RecordedUp(k));
    var s1 := WithConnection(s, id, k1, n1);
    CountsOne(c, s, id, k, k1, Reported(BytesUp, k.relay), RecordedUp(k));
    CountsOne(c, s1, id, k1, k2, Reported(BytesDown, k.relay), RecordedDown(k));
    CountsAgain(s, id, k1, n1, k2, AfterBytes(s.counters, k));
    RunsOne(c, s1, WithConnection(s1, id, k2, AfterBytes(s.counters, k)));
    RunsOneMore(c, s, s1, WithConnection(s1, id, k2, AfterBytes(s.counters, k)));
  }

  // ---------------------------------------------------------------------------------------------
  // An admitted client becomes a connection
  // ---------------------------------------------------------------------------------------------

  function WithPc(s: State, l: Listener, pc: ListenerPc, counters: map<Counter, int>): State {
    s.(procs := s.procs[OfListener(l.relay) := Listening(l.(pc := pc))], counters := counters)
  }

  predicate IsListening(s: State, l: Listener) {
    OfListener(l.relay) in s.procs && s.procs[OfListener(l.relay)] == Listening(l)
  }

  lemma WithPcAgain(s: State, l: Listener, pc: ListenerPc, counters: map<Counter, int>, next: ListenerPc,
      more: map<Counter, int>)
    ensures WithPc(WithPc(s, l, pc, counters), l.(pc := pc), next, more) == WithPc(s, l, next, more)
    ensures IsListening(WithPc(s, l, pc, counters), l.(pc := pc))
  {
  }

  /** The client of listener `l` has become the connection with the given id. */
  function Spawned(s: State, l: Listener, id: nat): State {
    s.(procs := s.procs[OfListener(l.relay) := Listening(Listener(l.relay, Polling, {}))]
                       [OfConnection(id) := Connected(NewConnection(l.relay, l.permits))])
  }

  lemma SpawnsOne(c: Config, s: State, l: Listener, id: nat)
    requires IsListening(s, l) && l.pc == Spawning(id)
    ensures StepsTo(c, s, Spawned(s, l, id))
  {
    assert Step(c, s, ProcSteps(OfListener(l.relay), Proceed)) == Some(Spawned(s, l, id));
  }

  lemma CountsActive(c: Config, s: State, l: Listener, id: nat)
    requires IsListening(s, l) && l.pc == CountingActive(id)
    ensures StepsTo(c, s, WithPc(s, l, Spawning(id), Added(s.counters, Reported(Active, l.relay), 1)))
  {
    var t := WithPc(s, l, Spawning(id), Added(s.counters, Reported(Active, l.relay), 1));
    assert Step(c, s, ProcSteps(OfListener(l.relay), Proceed)) == Some(t);
  }

  lemma CountsAccepted(c: Config, s: State, l: Listener, id: nat)
    requires IsListening(s, l) && l.pc == CountingAccepted(id)
    ensures StepsTo(c, s, WithPc(s, l, CountingActive(id), Added(s.counters, Reported(Accepted, l.relay), 1)))
  {
    var t := WithPc(s, l, CountingActive(id), Added(s.counters, Reported(Accepted, l.relay), 1));
    assert Step(c, s, ProcSteps(OfListener(l.relay), Proceed)) == Some(t);
  }

  lemma FetchesId(c: Config, s: State, l: Listener)
    requires IsListening(s, l) && l.pc == FetchingId
    ensures StepsTo(c, s, Fetched(s, l))
  {
    assert Step(c, s, ProcSteps(OfListener(l.relay), Proceed)) == Some(Fetched(s, l));
  }

  function AfterAccepted(counters: map<Counter, int>, r: nat): map<Counter, int> {
    Added(Added(counters, Reported(Accepted, r), 1), Reported(Active, r), 1)
  }

  lemma CountedIsSpawned(c: Config, s: State, l: Listener, id: nat)
    requires IsListening(s, l) && l.pc == CountingAccepted(id)
    ensures RunsTo(c, s, Spawned(s.(counters := AfterAccepted(s.counters, l.relay)), l, id))
  {
    var n1, n2 := Added(s.counters, Reported(Accepted, l.relay), 1), AfterAccepted(s.counters, l.relay);
    var s1, s2 := WithPc(s, l, CountingActive(id), n1), WithPc(s, l, Spawning(id), n2);
    CountsAccepted(c, s, l, id);
    WithPcAgain(s, l, CountingActive(id), n1, Spawning(id), n2);
    CountsActive(c, s1, l.(pc := CountingActive(id)), id);
    WithPcAgain(s, l, Spawning(id), n2, Spawning(id), n2);
    SpawnsOne(c, s2, l.(pc := Spawning(id)), id);
    var t := Spawned(s2, l.(pc := Spawning(id)), id);
    assert t == Spawned(s.(counters := n2), l, id);
    RunsOne(c, s2, t);
    RunsOneMore(c, s1, s2, t);
    RunsOneMore(c, s, s1, t);
  }

  lemma AcceptedFigures(counters: map<Counter, int>, r: nat)
    ensures var f := FiguresOf(counters, r);
            FiguresOf(AfterAccepted(counters, r), r) == f.(accepted := f.accepted + 1, active := f.active + 1)
    ensures forall q | q != r :: FiguresOf(AfterAccepted(counters, r), q) == FiguresOf(counters, q)
  {
  }

  /** Left alone, a listener that was let up the ladder calls `accepted` once, spawns a connection that holds all its
      permits under the next id, and polls again with empty hands. */
  lemma AdmittedIsSpawned(c: Config, s: State, l: Listener) returns (t: State)
    requires IsListening(s, l) && l.pc == FetchingId
    ensures RunsTo(c, s, t) && t.available == s.available && t.nextId == s.nextId + 1 && t.ctl == s.ctl
    ensures t.procs == s.procs[OfListener(l.relay) := Listening(Listener(l.relay, Polling, {}))]
                              [OfConnection(s.nextId) := Connected(NewConnection(l.relay, l.permits))]
    ensures var f := FiguresOf(s.counters, l.relay);
            FiguresOf(t.counters, l.relay) == f.(accepted := f.accepted + 1, active := f.active + 1)
    ensures forall q | q != l.relay :: FiguresOf(t.counters, q) == FiguresOf(s.counters, q)
  {
    t := Admitted(s, l);
    RunsToAdmitted(c, s, l);
    AcceptedFigures(s.counters, l.relay);
  }

  function Admitted(s: State, l: Listener): State {
    Spawned(s.(nextId := s.nextId + 1, counters := AfterAccepted(s.counters, l.relay)), l, s.nextId)
  }

  /** With its id fetched. */
  function Fetched(s: State, l: Listener): State {
    WithPc(s.(nextId := s.nextId + 1), l, CountingAccepted(s.nextId), s.counters)
  }

  lemma FetchedThenSpawned(s: State, l: Listener)
    ensures Spawned(Fetched(s, l).(counters := AfterAccepted(Fetched(s, l).counters, l.relay)),
                    l.(pc := CountingAccepted(s.nextId)), s.nextId) == Admitted(s, l)
    ensures IsListening(Fetched(s, l), l.(pc := CountingAccepted(s.nextId)))
  {
  }

  lemma RunsToAdmitted(c: Config, s: State, l: Listener)
    requires IsListening(s, l) && l.pc == FetchingId
    ensures RunsTo(c, s, Admitted(s, l))
  {
    FetchesId(c, s, l);
    FetchedThenSpawned(s, l);
    CountedIsSpawned(c, Fetched(s, l), l.(pc := CountingAccepted(s.nextId)), s.nextId);
    RunsOneMore(c, s, Fetched(s, l), Admitted(s, l));
  }
}

/**
 The life of one connection in the protocol: whatever the network, the timers and the force token do to it, there is a
 run in which they do it, and it ends as `RelayMetrics.HandleConnection` says.
 */
module RelayLives {
  import opened Wrappers
  import opened RelayProtocol
  import opened RelayGuarantees
  import opened RelayMetrics

  predicate IsConnected(s: State, id: nat, k: Connection) {
    OfConnection(id) in s.procs && s.procs[OfConnection(id)] == Connected(k)
  }

  /** A step of the connection. */
  lemma Moves(c: Config, s: State, id: nat, k: Connection, choice: Choice) returns (t: State)
    requires IsConnected(s, id, k) && ConnectionStep(c, s, k, choice).Some?
    ensures StepsTo(c, s, t) && t.ctl == s.ctl
    ensures IsConnected(t, id, ConnectionStep(c, s, k, choice).value.next)
    ensures t.counters == ApplyToCounters(s.counters, ConnectionStep(c, s, k, choice).value.change)
  {
    var a := ProcSteps(OfConnection(id), choice);
    t := Step(c, s, a).value;
    assert Step(c, s, a) == Some(t);
  }

  /** A run that ends with the connection finished and the figures of its relay as given. */
  ghost predicate EndsWith(c: Config, s: State, id: nat, r: nat, f: Figures) {
    exists t :: RunsTo(c, s, t) && Ended(t, id, r, f)
  }

  predicate Ended(t: State, id: nat, r: nat, f: Figures) {
    && OfConnection(id) in t.procs && t.procs[OfConnection(id)].Connected?
    && t.procs[OfConnection(id)].connection.pc == Finished
    && FiguresOf(t.counters, r) == f
  }

  lemma StepThenEnds(c: Config, s: State, t: State, id: nat, r: nat, f: Figures)
    requires StepsTo(c, s, t) && EndsWith(c, t, id, r, f)
    ensures EndsWith(c, s, id, r, f)
  {
    var u :| RunsTo(c, t, u) && Ended(u, id, r, f);
    RunsOneMore(c, s, t, u);
    assert Ended(u, id, r, f);
  }

  lemma RunThenEnds(c: Config, s: State, t: State, id: nat, r: nat, f: Figures)
    requires RunsTo(c, s, t) && EndsWith(c, t, id, r, f)
    ensures EndsWith(c, s, id, r, f)
  {
    var u :| RunsTo(c, t, u) && Ended(u, id, r, f);
    var first: seq<Action> :| Run(c, s, first) == Some(t);
    var second: seq<Action> :| Run(c, t, second) == Some(u);
    RunsCompose(c, s, first, second);
    assert RunsTo(c, s, u);
  }

  lemma {:induction false} Releases(c: Config, s: State, id: nat, k: Connection)
    requires IsConnected(s, id, k) && k.pc.Releasing? && k.pc.stage <= 4
    ensures EndsWith(c, s, id, k.relay, FiguresOf(s.counters, k.relay))
    decreases k.pc.stage
  {
    var t := Moves(c, s, id, k, Proceed);
    var next := ConnectionStep(c, s, k, Proceed).value.next;
    if k.pc.stage == 0 {
      RunsOne(c, s, t);
      assert Ended(t, id, k.relay, FiguresOf(s.counters, k.relay));
    } else {
      Releases(c, t, id, next);
      StepThenEnds(c, s, t, id, k.relay, FiguresOf(s.counters, k.relay));
    }
  }

  /** From where all exits meet: one call of `closed`, and the permits go back. */
  lemma Leaves(c: Config, s: State, id: nat, k: Connection)
    requires IsConnected(s, id, k) && k.pc == LeavingActive
    ensures EndsWith(c, s, id, k.relay, WithClosed(FiguresOf(s.counters, k.relay), RecordedUp(k), RecordedDown(k)))
  {
    var last, counters := k.(pc := Releasing(4)), AfterClosed(s.counters, k.relay, RecordedUp(k), RecordedDown(k));
    var t := WithConnection(s, id, last, counters);
    LeavesLikeClosed(c, s, id, k);
    Releases(c, t, id, last);
    RunThenEnds(c, s, t, id, k.relay, FiguresOf(counters, k.relay));
  }

  /** The failure counter that an end calls for. */
  function Raised(f: Figures, m: Metric): Figures {
    match m
    case ConnectFailures => f.(connectFailures := f.connectFailures + 1)
    case ConnectTimeouts => f.(connectTimeouts := f.connectTimeouts + 1)
    case IdleTimeouts => f.(idleTimeouts := f.idleTimeouts + 1)
    case _ => f
  }

  lemma RaisedFigures(counters: map<Counter, int>, r: nat, m: Metric)
    requires m in {ConnectFailures, ConnectTimeouts, IdleTimeouts}
    ensures FiguresOf(Added(counters, Reported(m, r), 1), r) == Raised(FiguresOf(counters, r), m)
  {
  }

  /** It is counted, and the connection leaves without bytes. */
  lemma CountsAndLeaves(c: Config, s: State, id: nat, k: Connection, m: Metric)
    requires IsConnected(s, id, k)
    requires k.outcome != Completed
    requires (k.pc, m) in {
               (CountingFailure, ConnectFailures), (CountingTimeout, ConnectTimeouts), (CountingIdle, IdleTimeouts)}
    ensures EndsWith(c, s, id, k.relay, WithClosed(Raised(FiguresOf(s.counters, k.relay), m), 0, 0))
  {
    var t := Moves(c, s, id, k, Proceed);
    RaisedFigures(s.counters, k.relay, m);
    Leaves(c, t, id, k.(pc := LeavingActive));
    StepThenEnds(c, s, t, id, k.relay, WithClosed(Raised(FiguresOf(s.counters, k.relay), m), 0, 0));
  }

  lemma ConnectFailureEnds(c: Config, s: State, id: nat, k: Connection)
    requires IsConnected(s, id, k) && k.pc == Connecting
    ensures EndsWith(c, s, id, k.relay, WithClosed(Raised(FiguresOf(s.counters, k.relay), ConnectFailures), 0, 0))
  {
    var t := Moves(c, s, id, k, ConnectError);
    CountsAndLeaves(c, t, id, k.(pc := CountingFailure, outcome := ConnectFailed), ConnectFailures);
    StepThenEnds(c, s, t, id, k.relay, WithClosed(Raised(FiguresOf(s.counters, k.relay), ConnectFailures), 0, 0));
  }

  lemma ConnectTimeoutEnds(c: Config, s: State, id: nat, k: Connection)
    requires IsConnected(s, id, k) && k.pc == Connecting
    ensures EndsWith(c, s, id, k.relay, WithClosed(Raised(FiguresOf(s.counters, k.relay), ConnectTimeouts), 0, 0))
  {
    var t := Moves(c, s, id, k, ConnectTimeout);
    CountsAndLeaves(c, t, id, k.(pc := CountingTimeout, outcome := ConnectTimedOut), ConnectTimeouts);
    StepThenEnds(c, s, t, id, k.relay, WithClosed(Raised(FiguresOf(s.counters, k.relay), ConnectTimeouts), 0, 0));
  }

  lemma ForcedEnds(c: Config, s: State, id: nat, k: Connection)
    requires IsConnected(s, id, k) && k.pc in {Connecting, WaitingForBuffers, Transferring} && s.ctl.force
    requires k.pc == Transferring ==> !BothEnded(k)
    ensures EndsWith(c, s, id, k.relay, WithClosed(FiguresOf(s.counters, k.relay), 0, 0))
  {
    var t := Moves(c, s, id, k, ForceWins);
    Leaves(c, t, id, k.(pc := LeavingActive, outcome := Forced));
    StepThenEnds(c, s, t, id, k.relay, WithClosed(FiguresOf(s.counters, k.relay), 0, 0));
  }

  lemma SystemTimeoutEnds(c: Config, s: State, id: nat, k: Connection)
    requires IsConnected(s, id, k) && k.pc == Transferring && !BothEnded(k)
    ensures EndsWith(c, s, id, k.relay, WithClosed(Raised(FiguresOf(s.counters, k.relay), IdleTimeouts), 0, 0))
  {
    var t := Moves(c, s, id, k, JoinError(true));
    CountsAndLeaves(c, t, id, k.(pc := CountingIdle, outcome := IdleTimedOut), IdleTimeouts);
    StepThenEnds(c, s, t, id, k.relay, WithClosed(Raised(FiguresOf(s.counters, k.relay), IdleTimeouts), 0, 0));
  }

  lemma BrokenEnds(c: Config, s: State, id: nat, k: Connection)
    requires IsConnected(s, id, k) && k.pc == Transferring && !BothEnded(k)
    ensures EndsWith(c, s, id, k.relay, WithClosed(FiguresOf(s.counters, k.relay), 0, 0))
  {
    var t := Moves(c, s, id, k, JoinError(false));
    Leaves(c, t, id, k.(pc := LeavingActive, outcome := TransferFailed));
    StepThenEnds(c, s, t, id, k.relay, WithClosed(FiguresOf(s.counters, k.relay), 0, 0));
  }

  function WithStream(k: Connection, upward: bool, f: Flow): Connection {
    if upward then k.(up := f) else k.(down := f)
  }

  /** Both streams, one after the other, and the join. */
  lemma StreamEnds(c: Config, s: State, id: nat, k: Connection, upward: bool, n: nat) returns (t: State)
    requires IsConnected(s, id, k) && k.pc == Transferring && (if upward then k.up else k.down) == Flow(0, false)
    ensures RunsTo(c, s, t) && IsConnected(t, id, WithStream(k, upward, Flow(n, true))) && t.counters == s.counters
  {
    var u := Moves(c, s, id, k, Deliver(upward, n));
    t := Moves(c, u, id, WithStream(k, upward, Flow(n, false)), EndStream(upward));
    RunsOne(c, u, t);
    RunsOneMore(c, s, u, t);
  }

  lemma CompletesWith(c: Config, s: State, id: nat, k: Connection, up: nat, down: nat)
    requires IsConnected(s, id, k) && k.pc == Transferring && k.up == k.down == Flow(0, false)
    ensures EndsWith(c, s, id, k.relay, WithClosed(FiguresOf(s.counters, k.relay), up, down))
  {
    var s1 := StreamEnds(c, s, id, k, true, up);
    var k1 := k.(up := Flow(up, true));
    var s2 := StreamEnds(c, s1, id, k1, false, down);
    var k2 := k1.(down := Flow(down, true));
    var s3 := Moves(c, s2, id, k2, JoinOk);
    Leaves(c, s3, id, k2.(pc := LeavingActive, outcome := Completed));
    var f := WithClosed(FiguresOf(s.counters, k.relay), up, down);
    StepThenEnds(c, s2, s3, id, k.relay, f);
    RunThenEnds(c, s1, s2, id, k.relay, f);
    RunThenEnds(c, s, s1, id, k.relay, f);
  }

  /** A transfer of a relay with an idle timeout can also end by it. */
  lemma IdleEnds(c: Config, s: State, id: nat, k: Connection)
    requires IsConnected(s, id, k) && k.pc == Transferring && !BothEnded(k) && k.relay in c.idle
    ensures EndsWith(c, s, id, k.relay, WithClosed(Raised(FiguresOf(s.counters, k.relay), IdleTimeouts), 0, 0))
  {
    var t := Moves(c, s, id, k, IdleExpires);
    CountsAndLeaves(c, t, id, k.(pc := CountingIdle, outcome := IdleTimedOut), IdleTimeouts);
    StepThenEnds(c, s, t, id, k.relay, WithClosed(Raised(FiguresOf(s.counters, k.relay), IdleTimeouts), 0, 0));
  }

  /** The figures of a relay after one connection of it. */
  function AfterConnection(f: Figures, upstream: Upstream, transfer: Transfer): Figures {
    match upstream
    case ConnectFails => WithClosed(Raised(f, ConnectFailures), 0, 0)
    case ConnectTimesOut => WithClosed(Raised(f, ConnectTimeouts), 0, 0)
    case ForcedWhileConnecting => WithClosed(f, 0, 0)
    case Established => (
      match transfer
      case Transferred(up, down) => WithClosed(f, up, down)
      case FailsTimedOut => WithClosed(Raised(f, IdleTimeouts), 0, 0)
      case _ => WithClosed(f, 0, 0))
  }

  /** They are what `HandleConnection` promises. */
  lemma AfterConnectionLeavesOnce(f: Figures, upstream: Upstream, transfer: Transfer)
    ensures LeavesOnce(f, AfterConnection(f, upstream, transfer), upstream, transfer)
  {
  }

  lemma TransferEnds(c: Config, s: State, id: nat, k: Connection, transfer: Transfer)
    requires IsConnected(s, id, k) && k.pc == Transferring && k.up == k.down == Flow(0, false)
    requires transfer == ForcedWhileTransferring ==> s.ctl.force
    ensures EndsWith(c, s, id, k.relay, AfterConnection(FiguresOf(s.counters, k.relay), Established, transfer))
  {
    match transfer {
      case Transferred(up, down) => CompletesWith(c, s, id, k, up, down);
      case FailsTimedOut => SystemTimeoutEnds(c, s, id, k);
      case FailsOtherwise => BrokenEnds(c, s, id, k);
      case ForcedWhileTransferring => ForcedEnds(c, s, id, k);
    }
  }

  /** Whatever the connect and the transfer do, the protocol has a run in which they do it, from the start of the
      connection to its end, and the figures of its relay are what `HandleConnection` makes of them. */
  lemma LivesLikeHandleConnection(c: Config, s: State, id: nat, k: Connection, upstream: Upstream, transfer: Transfer)
    requires IsConnected(s, id, k) && k.pc == Connecting && k.up == k.down == Flow(0, false)
    requires upstream == ForcedWhileConnecting || transfer == ForcedWhileTransferring ==> s.ctl.force
    ensures var before := FiguresOf(s.counters, k.relay);
            var after := AfterConnection(before, upstream, transfer);
            EndsWith(c, s, id, k.relay, after) && LeavesOnce(before, after, upstream, transfer)
  {
    AfterConnectionLeavesOnce(FiguresOf(s.counters, k.relay), upstream, transfer);
    match upstream {
      case Established => EstablishedEnds(c, s, id, k, transfer);
      case ConnectFails => ConnectFailureEnds(c, s, id, k);
      case ConnectTimesOut => ConnectTimeoutEnds(c, s, id, k);
      case ForcedWhileConnecting => ForcedEnds(c, s, id, k);
    }
  }

  lemma EstablishedEnds(c: Config, s: State, id: nat, k: Connection, transfer: Transfer)
    requires IsConnected(s, id, k) && k.pc == Connecting && k.up == k.down == Flow(0, false)
    requires transfer == ForcedWhileTransferring ==> s.ctl.force
    ensures EndsWith(c, s, id, k.relay, AfterConnection(FiguresOf(s.counters, k.relay), Established, transfer))
  {
    var f := AfterConnection(FiguresOf(s.counters, k.relay), Established, transfer);
    var s1 := Moves(c, s, id, k, ConnectOk);
    var k1 := k.(pc := DroppingGlobalConnecting);
    var s2 := Moves(c, s1, id, k1, Proceed);
    var k2 := ConnectionStep(c, s1, k1, Proceed).value.next;
    var s3 := Moves(c, s2, id, k2, Proceed);
    var k3 := ConnectionStep(c, s2, k2, Proceed).value.next;
    FromGranted(c, s3, id, k3, transfer);
    StepThenEnds(c, s2, s3, id, k.relay, f);
    StepThenEnds(c, s1, s2, id, k.relay, f);
    StepThenEnds(c, s, s1, id, k.relay, f);
  }

  /** Waiting for buffers, which are granted, or transferring already. */
  lemma FromGranted(c: Config, s: State, id: nat, k: Connection, transfer: Transfer)
    requires IsConnected(s, id, k) && k.pc in {WaitingForBuffers, Transferring}
    requires k.up == k.down == Flow(0, false) && (transfer == ForcedWhileTransferring ==> s.ctl.force)
    ensures EndsWith(c, s, id, k.relay, AfterConnection(FiguresOf(s.counters, k.relay), Established, transfer))
  {
    if k.pc == Transferring {
      TransferEnds(c, s, id, k, transfer);
    } else {
      var t := Moves(c, s, id, k, BuffersGranted);
      TransferEnds(c, t, id, k.(pc := Transferring), transfer);
      StepThenEnds(c, s, t, id, k.relay, AfterConnection(FiguresOf(s.counters, k.relay), Established, transfer));
    }
  }

  /** The other answers a listener may get: an error, after which it is backing off, or none, after which it waits. */
  lemma ListenerTakesAnyAnswer(c: Config, s: State, r: nat)
    requires OfListener(r) in s.procs && s.procs[OfListener(r)] == Listening(Listener(r, PollingAccept, {}))
    ensures StepsTo(c, s, s.(procs := s.procs[OfListener(r) := Listening(Listener(r, BackingOff, {}))]))
    ensures StepsTo(c, s, s.(procs := s.procs[OfListener(r) := Listening(Listener(r, Suspended, {}))]))
  {
    assert Step(c, s, ProcSteps(OfListener(r), AcceptError)) ==
           Some(s.(procs := s.procs[OfListener(r) := Listening(Listener(r, BackingOff, {}))]));
    assert Step(c, s, ProcSteps(OfListener(r), AcceptPending)) ==
           Some(s.(procs := s.procs[OfListener(r) := Listening(Listener(r, Suspended, {}))]));
  }
}

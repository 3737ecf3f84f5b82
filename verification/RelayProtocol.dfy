/**
 Admission, connection lifecycle and shutdown as one step relation.

 Listeners and connections are processes.  Each try-acquire, each permit drop, each atomic counter update and
 each task spawn is a step of its own, and steps of different processes interleave in any order.
 A process owns the permits in its `permits` field; `available` is what is left in the semaphores.
 */
module RelayProtocol {
  import opened Wrappers

  /** The four semaphores a connection may need; the two relay ones exist once per relay. */
  datatype Permit =
    | GlobalConnection
    | RelayConnection(relay: nat)
    | GlobalConnecting
    | RelayConnecting(relay: nat)

  /** `limits` has a key for every limit that is configured; `spliced` and `idle` are the relays that forward through
      kernel pipes and those with an idle timeout. */
  datatype Config = Config(limits: map<Permit, nat>, relays: nat, spliced: set<nat>, idle: set<nat>)

  /** What the exported metrics of a relay count. */
  datatype Metric =
    | Accepted | Active | Closed
    | ConnectFailures | ConnectTimeouts | IdleTimeouts
    | BytesUp | BytesDown

  /** What happens to a client before it is admitted.  Only `Rejected` is exported; the other two observe the model. */
  datatype Tally = Offered | Rejected | DroppedAtShutdown

  datatype Counter = Reported(metric: Metric, relay: nat) | Tallied(tally: Tally, relay: nat)

  datatype ListenerPc =
    | Polling                              // about to poll the shutdown branch
    | PollingAccept                        // shutdown branch was pending, accept is polled next
    | Suspended                            // both branches pending
    | BackingOff                           // suspended after an accept error
    | CheckingShutdown                     // has a client
    | Acquiring(stage: nat)
    | Rejecting(stage: nat)
    | RollingBack(stage: nat)
    | FetchingId
    | CountingAccepted(id: nat)
    | CountingActive(id: nat)
    | Spawning(id: nat)
    | Stopped

  datatype ConnectionPc =
    | Connecting
    | CountingFailure
    | CountingTimeout
    | DroppingGlobalConnecting
    | DroppingRelayConnecting
    | WaitingForBuffers
    | Transferring
    | CountingIdle
    | LeavingActive
    | CountingClosed
    | AddingBytesUp
    | AddingBytesDown
    | Releasing(stage: nat)
    | Finished

  datatype Outcome = Undecided | Forced | ConnectFailed | ConnectTimedOut | IdleTimedOut | TransferFailed | Completed

  /** One direction of a transfer: bytes delivered, and whether it reached the end of its stream. */
  datatype Flow = Flow(delivered: nat, ended: bool)

  datatype Listener = Listener(relay: nat, pc: ListenerPc, permits: set<Permit>)

  datatype Connection = Connection(
    relay: nat, pc: ConnectionPc, permits: set<Permit>, outcome: Outcome, up: Flow, down: Flow)

  datatype Proc = Listening(listener: Listener) | Connected(connection: Connection)

  datatype ProcId = OfListener(relay: nat) | OfConnection(id: nat)

  /** Where `Server::run` is. */
  datatype MainPc =
    | Serving
    | Joining | ClosingTracker | WaitingForTasks | Graceful
    | ForcingTasks | AbortingListeners | ClosingTrackerForced | Draining | JoiningAborted | ForcedDone

  /** The cancellation tokens, the abort of the listener tasks, the task tracker's closed flag, and `Server::run`. */
  datatype Control = Control(shutdown: bool, force: bool, aborted: bool, closed: bool, main: MainPc)

  datatype State = State(
    ctl: Control, available: map<Permit, nat>, counters: map<Counter, int>, nextId: nat, procs: map<ProcId, Proc>)

  /** The nondeterminism of a step: which branch of a select is taken, and what the network answers. */
  datatype Choice =
    | Proceed
    | AcceptOk | AcceptError | AcceptPending | Wake | TimerFires | SeeShutdown | Abort
    | ForceWins | ConnectOk | ConnectError | ConnectTimeout
    | BuffersGranted | Deliver(upward: bool, bytes: nat) | EndStream(upward: bool)
    | JoinOk | JoinError(timedOut: bool) | IdleExpires

  datatype Action =
    | CancelShutdown
    | MainAdvances
    | MainTimesOut
    | ProcSteps(who: ProcId, choice: Choice)

  /** The one shared update a step may make. */
  datatype Change =
    | Nothing
    | Take(permit: Permit)
    | Give(permit: Permit)
    | Add(counter: Counter, amount: int)
    | FetchId

  /** A connection task about to be spawned. */
  datatype Child = Child(id: nat, connection: Connection)

  /** What one step of one process does: its own new state, a shared update, and possibly a new connection task. */
  datatype Effect = Effect(next: Proc, change: Change, child: Option<Child>)

  datatype ListenerEffect = ListenerEffect(next: Listener, change: Change, child: Option<Child>)

  datatype ConnectionEffect = ConnectionEffect(next: Connection, change: Change)

  // ---------------------------------------------------------------------------------------------
  // Steps
  // ---------------------------------------------------------------------------------------------

  /** The order in which `run_relay_listener` acquires permits. */
  function Ladder(relay: nat, stage: nat): Permit
    requires stage < 4
  {
    match stage
    case 0 => GlobalConnection
    case 1 => RelayConnection(relay)
    case 2 => GlobalConnecting
    case _ => RelayConnecting(relay)
  }

  function NewConnection(relay: nat, permits: set<Permit>): Connection {
    Connection(relay, Connecting, permits, Undecided, Flow(0, false), Flow(0, false))
  }

  /** Dropping a permit gives it back; where the limit is not configured there is none to drop. */
  function Drop(permits: set<Permit>, x: Permit): Change {
    if x in permits then Give(x) else Nothing
  }

  function ListenerMoves(l: Listener, pc: ListenerPc, change: Change): Option<ListenerEffect> {
    Some(ListenerEffect(Listener(l.relay, pc, l.permits), change, None))
  }

  function ListenerStep(c: Config, s: State, l: Listener, choice: Choice): Option<ListenerEffect> {
    if choice == Proceed then ListenerProceeds(c, s, l)
    else match ListenerChooses(s, l.pc, choice)
         case None => None
         case Some(pc) =>
           ListenerMoves(l, pc, if choice == AcceptOk then Add(Tallied(Offered, l.relay), 1) else Nothing)
  }

  /** The selects of the accept loop: which branch is taken, or whether the task is aborted where it is suspended. */
  function ListenerChooses(s: State, pc: ListenerPc, choice: Choice): Option<ListenerPc> {
    match choice
    case AcceptOk => if pc == PollingAccept then Some(CheckingShutdown) else None
    case AcceptError => if pc == PollingAccept then Some(BackingOff) else None
    case AcceptPending => if pc == PollingAccept then Some(Suspended) else None
    case Wake => if pc == Suspended then Some(Polling) else None
    case TimerFires => if pc == BackingOff then Some(Polling) else None
    case SeeShutdown => if pc == BackingOff && s.ctl.shutdown then Some(Stopped) else None
    case Abort => if pc in {Suspended, BackingOff} && s.ctl.aborted then Some(Stopped) else None
    case _ => None
  }

  /** The stretches of the accept loop between two awaits. */
  function ListenerProceeds(c: Config, s: State, l: Listener): Option<ListenerEffect> {
    match l.pc
    case Polling => ListenerMoves(l, if s.ctl.shutdown then Stopped else PollingAccept, Nothing)
    case CheckingShutdown =>
      if s.ctl.shutdown then ListenerMoves(l, Stopped, Add(Tallied(DroppedAtShutdown, l.relay), 1))
      else ListenerMoves(l, Acquiring(0), Nothing)
    case Acquiring(k) =>
      if k >= 4 then ListenerMoves(l, FetchingId, Nothing)
      else
        var x := Ladder(l.relay, k);
        if x !in c.limits then ListenerMoves(l, Acquiring(k + 1), Nothing)
        else if Available(s, x) > 0 then
          Some(ListenerEffect(Listener(l.relay, Acquiring(k + 1), l.permits + {x}), Take(x), None))
        else ListenerMoves(l, Rejecting(k), Nothing)
    case Rejecting(k) => ListenerMoves(l, RollingBack(k), Add(Tallied(Rejected, l.relay), 1))
    case RollingBack(k) =>
      if k == 0 || k > 4 then ListenerMoves(l, Polling, Nothing)
      else
        var x := Ladder(l.relay, k - 1);
        Some(ListenerEffect(Listener(l.relay, RollingBack(k - 1), l.permits - {x}), Drop(l.permits, x), None))
    case FetchingId => ListenerMoves(l, CountingAccepted(s.nextId), FetchId)
    case CountingAccepted(id) => ListenerMoves(l, CountingActive(id), Add(Reported(Accepted, l.relay), 1))
    case CountingActive(id) => ListenerMoves(l, Spawning(id), Add(Reported(Active, l.relay), 1))
    case Spawning(id) =>
      Some(ListenerEffect(Listener(l.relay, Polling, {}), Nothing, Some(Child(id, NewConnection(l.relay, l.permits)))))
    case _ => None
  }

  /** The join of the two directions is ready; the poll that made it so returns its result. */
  predicate BothEnded(k: Connection) {
    k.up.ended && k.down.ended
  }

  /** The byte counts `closed` is called with. */
  function RecordedUp(k: Connection): nat {
    if k.outcome == Completed then k.up.delivered else 0
  }

  function RecordedDown(k: Connection): nat {
    if k.outcome == Completed then k.down.delivered else 0
  }

  function ConnectionStep(c: Config, s: State, k: Connection, choice: Choice): Option<ConnectionEffect> {
    if choice == Proceed then ConnectionProceeds(c, k)
    else match ConnectionChooses(c, s, k, choice)
         case None => None
         case Some(next) => Some(ConnectionEffect(next, Nothing))
  }

  /** The suspended points: a select, or the transfer inside it, takes one branch.  No shared state is touched.
      An error of a direction is told apart from the watchdog's only by its kind, so one that the system itself
      reports as timed out goes the way of an idle timeout. */
  function ConnectionChooses(c: Config, s: State, k: Connection, choice: Choice): Option<Connection> {
    match choice
    case ForceWins =>
      if s.ctl.force && (k.pc in {Connecting, WaitingForBuffers} || (k.pc == Transferring && !BothEnded(k)))
      then Some(k.(pc := LeavingActive, outcome := Forced)) else None
    case ConnectOk => if k.pc == Connecting then Some(k.(pc := DroppingGlobalConnecting)) else None
    case ConnectError =>
      if k.pc == Connecting then Some(k.(pc := CountingFailure, outcome := ConnectFailed)) else None
    case ConnectTimeout =>
      if k.pc == Connecting then Some(k.(pc := CountingTimeout, outcome := ConnectTimedOut)) else None
    case BuffersGranted => if k.pc == WaitingForBuffers then Some(k.(pc := Transferring)) else None
    case Deliver(upward, n) =>
      if k.pc != Transferring || (if upward then k.up.ended else k.down.ended) then None
      else if upward then Some(k.(up := Flow(k.up.delivered + n, false)))
      else Some(k.(down := Flow(k.down.delivered + n, false)))
    case EndStream(upward) =>
      if k.pc != Transferring || (if upward then k.up.ended else k.down.ended) then None
      else if upward then Some(k.(up := Flow(k.up.delivered, true)))
      else Some(k.(down := Flow(k.down.delivered, true)))
    case JoinOk =>
      if k.pc == Transferring && BothEnded(k) then Some(k.(pc := LeavingActive, outcome := Completed)) else None
    case JoinError(timedOut) =>
      if k.pc != Transferring || BothEnded(k) then None
      else if timedOut then Some(k.(pc := CountingIdle, outcome := IdleTimedOut))
      else Some(k.(pc := LeavingActive, outcome := TransferFailed))
    case IdleExpires =>
      if k.pc == Transferring && !BothEnded(k) && k.relay in c.idle
      then Some(k.(pc := CountingIdle, outcome := IdleTimedOut)) else None
    case _ => None
  }

  function Reports(k: Connection, pc: ConnectionPc, m: Metric, amount: int): Option<ConnectionEffect> {
    Some(ConnectionEffect(k.(pc := pc), Add(Reported(m, k.relay), amount)))
  }

  function Drops(k: Connection, pc: ConnectionPc, x: Permit): Option<ConnectionEffect> {
    Some(ConnectionEffect(k.(pc := pc, permits := k.permits - {x}), Drop(k.permits, x)))
  }

  /** The stretches of `handle_connection` between its awaits. */
  function ConnectionProceeds(c: Config, k: Connection): Option<ConnectionEffect> {
    match k.pc
    case CountingFailure => Reports(k, LeavingActive, ConnectFailures, 1)
    case CountingTimeout => Reports(k, LeavingActive, ConnectTimeouts, 1)
    case DroppingGlobalConnecting => Drops(k, DroppingRelayConnecting, GlobalConnecting)
    case DroppingRelayConnecting =>
      Drops(k, if k.relay in c.spliced then Transferring else WaitingForBuffers, RelayConnecting(k.relay))
    case CountingIdle => Reports(k, LeavingActive, IdleTimeouts, 1)
    case LeavingActive => Reports(k, CountingClosed, Active, -1)
    case CountingClosed => Reports(k, AddingBytesUp, Closed, 1)
    case AddingBytesUp => Reports(k, AddingBytesDown, BytesUp, RecordedUp(k))
    case AddingBytesDown => Reports(k, Releasing(4), BytesDown, RecordedDown(k))
    case Releasing(n) =>
      if n == 0 || n > 4 then Some(ConnectionEffect(k.(pc := Finished), Nothing))
      else Drops(k, Releasing(n - 1), Ladder(k.relay, n - 1))
    case _ => None
  }

  function Available(s: State, x: Permit): nat {
    if x in s.available then s.available[x] else 0
  }

  function Read(counters: map<Counter, int>, k: Counter): int {
    if k in counters then counters[k] else 0
  }

  function ApplyToSemaphores(s: State, change: Change): map<Permit, nat> {
    match change
    case Take(x) => s.available[x := if Available(s, x) > 0 then Available(s, x) - 1 else 0]
    case Give(x) => s.available[x := Available(s, x) + 1]
    case _ => s.available
  }

  function ApplyToCounters(counters: map<Counter, int>, change: Change): map<Counter, int> {
    match change
    case Add(k, n) => counters[k := Read(counters, k) + n]
    case _ => counters
  }

  function Spawn(procs: map<ProcId, Proc>, child: Option<Child>): map<ProcId, Proc> {
    match child case None => procs case Some(k) => procs[OfConnection(k.id) := Connected(k.connection)]
  }

  ghost predicate ListenersStopped(s: State) {
    forall i | i in s.procs && s.procs[i].Listening? :: s.procs[i].listener.pc == Stopped
  }

  ghost predicate ConnectionsFinished(s: State) {
    forall i | i in s.procs && s.procs[i].Connected? :: s.procs[i].connection.pc == Finished
  }

  ghost function MainStep(s: State): Option<Control> {
    match s.ctl.main
    case Serving => if s.ctl.shutdown then Some(s.ctl.(main := Joining)) else None
    case Joining => if ListenersStopped(s) then Some(s.ctl.(main := ClosingTracker)) else None
    case ClosingTracker => Some(s.ctl.(main := WaitingForTasks, closed := true))
    case WaitingForTasks => if s.ctl.closed && ConnectionsFinished(s) then Some(s.ctl.(main := Graceful)) else None
    case ForcingTasks => Some(s.ctl.(main := AbortingListeners, force := true))
    case AbortingListeners => Some(s.ctl.(main := ClosingTrackerForced, aborted := true))
    case ClosingTrackerForced => Some(s.ctl.(main := Draining, closed := true))
    case Draining => if s.ctl.closed && ConnectionsFinished(s) then Some(s.ctl.(main := JoiningAborted)) else None
    case JoiningAborted => if ListenersStopped(s) then Some(s.ctl.(main := ForcedDone)) else None
    case _ => None
  }

  /** The deadline of the graceful phase, and the last second of the forced one. */
  function MainTimeout(ctl: Control): Option<Control> {
    if ctl.main in {Joining, WaitingForTasks} then Some(ctl.(main := ForcingTasks))
    else if ctl.main == Draining then Some(ctl.(main := JoiningAborted))
    else None
  }

  ghost function ControlStep(s: State, a: Action): Option<Control> {
    match a
    case CancelShutdown => Some(s.ctl.(shutdown := true))
    case MainAdvances => MainStep(s)
    case MainTimesOut => MainTimeout(s.ctl)
    case ProcSteps(_, _) => None
  }

  ghost function Step(c: Config, s: State, a: Action): Option<State> {
    if a.ProcSteps? then
      if a.who !in s.procs then None
      else match ProcEffect(c, s, s.procs[a.who], a.choice)
           case None => None
           case Some(e) => Some(WithEffect(s, a.who, e))
    else match ControlStep(s, a)
         case None => None
         case Some(ctl) => Some(s.(ctl := ctl))
  }

  function ProcEffect(c: Config, s: State, p: Proc, choice: Choice): Option<Effect> {
    match p
    case Listening(l) => (
      match ListenerStep(c, s, l, choice)
      case None => None
      case Some(e) => Some(Effect(Listening(e.next), e.change, e.child)))
    case Connected(k) => (
      match ConnectionStep(c, s, k, choice)
      case None => None
      case Some(e) => Some(Effect(Connected(e.next), e.change, None)))
  }

  function WithEffect(s: State, who: ProcId, e: Effect): State {
    State(
      s.ctl, ApplyToSemaphores(s, e.change), ApplyToCounters(s.counters, e.change),
      s.nextId + (if e.change == FetchId then 1 else 0), Spawn(s.procs[who := e.next], e.child))
  }

  function Init(c: Config): State {
    State(Control(false, false, false, false, Serving), c.limits, map[], 1,
          map r: nat | 0 <= r < c.relays :: OfListener(r) := Listening(Listener(r, Polling, {})))
  }

  /** The state after a run of any length; None when some action of it was not enabled. */
  ghost function Run(c: Config, s: State, actions: seq<Action>): Option<State>
    decreases |actions|
  {
    if actions == [] then Some(s)
    else match Step(c, s, actions[0])
         case None => None
         case Some(t) => Run(c, t, actions[1..])
  }

  lemma RunCons(c: Config, s: State, a: Action, rest: seq<Action>)
    requires Step(c, s, a).Some?
    ensures Run(c, s, [a] + rest) == Run(c, Step(c, s, a).value, rest)
  {
    assert ([a] + rest)[1..] == rest;
  }

  ghost predicate StepsTo(c: Config, s: State, t: State) {
    exists a :: Step(c, s, a) == Some(t)
  }

  ghost predicate RunsTo(c: Config, s: State, t: State) {
    exists actions: seq<Action> :: Run(c, s, actions) == Some(t)
  }

  lemma RunsOne(c: Config, s: State, t: State)
    requires StepsTo(c, s, t)
    ensures RunsTo(c, s, t)
  {
    var a :| Step(c, s, a) == Some(t);
    assert Run(c, s, [a]) == Some(t);
  }

  lemma RunsOneMore(c: Config, s: State, t: State, u: State)
    requires StepsTo(c, s, t) && RunsTo(c, t, u)
    ensures RunsTo(c, s, u)
  {
    var a :| Step(c, s, a) == Some(t);
    var rest: seq<Action> :| Run(c, t, rest) == Some(u);
    assert ([a] + rest)[1..] == rest;
    assert Run(c, s, [a] + rest) == Some(u);
  }
}

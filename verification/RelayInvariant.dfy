/**
 The inductive invariant of the relay protocol.

 A gauge is a number that the shared state exposes (permits in use, exported counters).  Each process has a weight
 on each gauge, a function of its own state.  The invariant says that every gauge reads the sum of the weights;
 its proof is local, because a step of one process changes the shared state by what it changes in its own weight.
 */
module RelayInvariant {
  import opened Wrappers
  import opened Totals
  import opened RelayProtocol

  datatype Gauge =
    | Held(permit: Permit)
    | InHand(relay: nat)
    | Level(metric: Metric, relay: nat)

  function Indicator(b: bool): int { if b then 1 else 0 }

  /** Steps a connection still has to take, not counting the movement of bytes.  Its exits all merge at 9. */
  function StepsLeft(pc: ConnectionPc): nat {
    match pc
    case Finished => 0
    case Releasing(k) => 1 + (if k < 4 then k else 4)
    case AddingBytesDown => 6
    case AddingBytesUp => 7
    case CountingClosed => 8
    case LeavingActive => 9
    case CountingIdle => 10
    case CountingFailure => 10
    case CountingTimeout => 10
    case Transferring => 11
    case WaitingForBuffers => 12
    case DroppingRelayConnecting => 13
    case DroppingGlobalConnecting => 14
    case Connecting => 15
  }

  /** Between the increment and the decrement of the gauge. */
  predicate CountedActive(p: Proc) {
    match p case Listening(l) => l.pc.Spawning? case Connected(k) => StepsLeft(k.pc) >= 9
  }

  predicate CountedClosed(p: Proc) {
    match p case Listening(_) => false case Connected(k) => StepsLeft(k.pc) <= 7
  }

  predicate CountedAccepted(p: Proc) {
    match p case Listening(l) => l.pc.CountingActive? || l.pc.Spawning? case Connected(_) => true
  }

  /** The listener has a client that is counted neither as accepted nor as rejected yet. */
  predicate ClientInHand(pc: ListenerPc) {
    pc.CheckingShutdown? || pc.Acquiring? || pc.Rejecting? || pc.FetchingId? || pc.CountingAccepted?
  }

  function ConnectionWeight(m: Metric, k: Connection): int {
    match m
    case ConnectFailures => Indicator(k.outcome == ConnectFailed && k.pc != CountingFailure)
    case ConnectTimeouts => Indicator(k.outcome == ConnectTimedOut && k.pc != CountingTimeout)
    case IdleTimeouts => Indicator(k.outcome == IdleTimedOut && k.pc != CountingIdle)
    case BytesUp => if BothEnded(k) && StepsLeft(k.pc) <= 6 then k.up.delivered else 0
    case BytesDown => if BothEnded(k) && StepsLeft(k.pc) <= 5 then k.down.delivered else 0
    case _ => 0
  }

  function MetricWeight(m: Metric, p: Proc): int {
    match m
    case Accepted => Indicator(CountedAccepted(p))
    case Active => Indicator(CountedActive(p))
    case Closed => Indicator(CountedClosed(p))
    case _ => if p.Connected? then ConnectionWeight(m, p.connection) else 0
  }

  function RelayOf(p: Proc): nat {
    match p case Listening(l) => l.relay case Connected(k) => k.relay
  }

  function PermitsOf(p: Proc): set<Permit> {
    match p case Listening(l) => l.permits case Connected(k) => k.permits
  }

  function Weight(g: Gauge, p: Proc): int {
    match g
    case Held(x) => Indicator(x in PermitsOf(p))
    case InHand(r) => Indicator(p.Listening? && p.listener.relay == r && ClientInHand(p.listener.pc))
    case Level(m, r) => if RelayOf(p) == r then MetricWeight(m, p) else 0
  }

  ghost function WeightOf(g: Gauge): Proc -> int {
    p => Weight(g, p)
  }

  /** What the shared state says. */
  function Reading(c: Config, s: State, g: Gauge): int {
    match g
    case Held(x) => if x in c.limits && x in s.available then c.limits[x] - s.available[x] else 0
    case InHand(r) =>
      Read(s.counters, Tallied(Offered, r)) - Read(s.counters, Reported(Accepted, r))
      - Read(s.counters, Tallied(Rejected, r)) - Read(s.counters, Tallied(DroppedAtShutdown, r))
    case Level(m, r) => Read(s.counters, Reported(m, r))
  }

  // ---------------------------------------------------------------------------------------------
  // The invariant
  // ---------------------------------------------------------------------------------------------

  /** The stage at which a listener of relay `r` acquires `x`; a permit of another relay is never reached. */
  function Rung(r: nat, x: Permit): nat {
    match x
    case GlobalConnection => 0
    case RelayConnection(q) => if q == r then 1 else 4
    case GlobalConnecting => 2
    case RelayConnecting(q) => if q == r then 3 else 4
  }

  /** The configured permits among the first `k` stages. */
  function Stage(c: Config, r: nat, k: nat): set<Permit> {
    set x | x in c.limits && Rung(r, x) < k && k <= 4
  }

  /** The connection id a listener has fetched and not yet handed to a task. */
  function PendingId(p: Proc): Option<nat> {
    if p.Listening? && (p.listener.pc.CountingAccepted? || p.listener.pc.CountingActive? || p.listener.pc.Spawning?)
    then Some(p.listener.pc.id) else None
  }

  predicate ListenerOk(c: Config, l: Listener) {
    if l.pc.Acquiring? then l.pc.stage <= 4 && l.permits == Stage(c, l.relay, l.pc.stage)
    else if l.pc.Rejecting? || l.pc.RollingBack? then l.pc.stage < 4 && l.permits == Stage(c, l.relay, l.pc.stage)
    else if l.pc.FetchingId? || PendingId(Listening(l)).Some? then l.permits == Stage(c, l.relay, 4)
    else l.permits == {}
  }

  /** Which permits a connection owns, by program counter. */
  predicate ConnectionPermitsOk(c: Config, k: Connection) {
    var all, established := Stage(c, k.relay, 4), Stage(c, k.relay, 2);
    if k.pc.Finished? then k.permits == {}
    else if k.pc.Releasing? then k.pc.stage <= 4 && k.permits <= Stage(c, k.relay, k.pc.stage)
    else if k.pc.DroppingRelayConnecting? then k.permits == all - {GlobalConnecting}
    else if StepsLeft(k.pc) >= 14 || k.pc.CountingFailure? || k.pc.CountingTimeout? then k.permits == all
    else if StepsLeft(k.pc) >= 10 then k.permits == established
    else k.permits == all || k.permits == established
  }

  /** The outcome is fixed on leaving, and it is Completed exactly when both directions reached their end. */
  predicate OutcomeOk(k: Connection) {
    if k.pc.CountingFailure? then k.outcome == ConnectFailed && !BothEnded(k)
    else if k.pc.CountingTimeout? then k.outcome == ConnectTimedOut && !BothEnded(k)
    else if k.pc.CountingIdle? then k.outcome == IdleTimedOut && !BothEnded(k)
    else if k.pc.Transferring? then k.outcome == Undecided
    else if StepsLeft(k.pc) >= 11 then k.outcome == Undecided && k.up == k.down == Flow(0, false)
    else k.outcome != Undecided && (k.outcome == Completed <==> BothEnded(k))
  }

  /** Kernel pipes need no buffers. */
  predicate WaitsForBuffersOk(c: Config, k: Connection) {
    k.pc == WaitingForBuffers ==> k.relay !in c.spliced
  }

  predicate ProcOk(c: Config, p: Proc) {
    RelayOf(p) < c.relays &&
    match p
    case Listening(l) => ListenerOk(c, l)
    case Connected(k) => ConnectionPermitsOk(c, k) && OutcomeOk(k) && WaitsForBuffersOk(c, k)
  }

  ghost predicate ProcsOk(c: Config, s: State) {
    && (forall i | i in s.procs :: ProcOk(c, s.procs[i]))
    && (forall i | i in s.procs ::
          if i.OfListener? then s.procs[i].Listening? && s.procs[i].listener.relay == i.relay
          else s.procs[i].Connected? && i.id < s.nextId)
    && (forall r | 0 <= r < c.relays :: OfListener(r) in s.procs)
  }

  ghost predicate IdsOk(s: State) {
    && (forall i | i in s.procs && PendingId(s.procs[i]).Some? ::
          PendingId(s.procs[i]).value < s.nextId && OfConnection(PendingId(s.procs[i]).value) !in s.procs)
    && (forall i, j | i in s.procs && j in s.procs && i != j && PendingId(s.procs[i]).Some? ::
          PendingId(s.procs[i]) != PendingId(s.procs[j]))
  }

  predicate PastJoin(m: MainPc) {
    m in {ClosingTracker, WaitingForTasks, Graceful}
  }

  ghost predicate MainOk(s: State) {
    && (s.ctl.main != Serving ==> s.ctl.shutdown)
    && (PastJoin(s.ctl.main) ==> ListenersStopped(s))
    && (s.ctl.main in {WaitingForTasks, Graceful, Draining, JoiningAborted, ForcedDone} ==> s.ctl.closed)
    && (s.ctl.main == Graceful ==> ConnectionsFinished(s))
    && (s.ctl.main == ForcedDone ==> ListenersStopped(s))
    && (s.ctl.force <==> s.ctl.main in {AbortingListeners, ClosingTrackerForced, Draining, JoiningAborted, ForcedDone})
    && (s.ctl.aborted <==> s.ctl.main in {ClosingTrackerForced, Draining, JoiningAborted, ForcedDone})
    && (s.ctl.force || s.ctl.aborted ==> s.ctl.shutdown)
  }

  /** A listener stops only for the shutdown, and a connection is forced only by the force token. */
  predicate HasCause(ctl: Control, p: Proc) {
    match p
    case Listening(l) => l.pc == Stopped ==> ctl.shutdown
    case Connected(k) => k.outcome == Forced ==> ctl.force
  }

  ghost predicate CausesOk(s: State) {
    forall i | i in s.procs :: HasCause(s.ctl, s.procs[i])
  }

  ghost predicate Conserved(c: Config, s: State) {
    forall g: Gauge :: Reading(c, s, g) == Sum(s.procs, WeightOf(g))
  }

  ghost predicate Inv(c: Config, s: State) {
    && s.available.Keys == c.limits.Keys
    && ProcsOk(c, s)
    && IdsOk(s)
    && MainOk(s)
    && CausesOk(s)
    && Conserved(c, s)
  }

  // ---------------------------------------------------------------------------------------------
  // Every step keeps it
  // ---------------------------------------------------------------------------------------------

  /** How a shared update moves a reading. */
  function Delta(change: Change, g: Gauge): int {
    match change
    case Take(x) => Indicator(g == Held(x))
    case Give(x) => -Indicator(g == Held(x))
    case Add(Reported(m, r), n) => if g == Level(m, r) then n else if g == InHand(r) && m == Accepted then -n else 0
    case Add(Tallied(t, r), n) => if g == InHand(r) then (if t == Offered then n else -n) else 0
    case _ => 0
  }

  function ChildWeight(child: Option<Child>, g: Gauge): int {
    match child case None => 0 case Some(k) => Weight(g, Connected(k.connection))
  }

  /** Acquiring one more rung of the ladder, or giving the last one back. */
  lemma StageGrows(c: Config, r: nat, k: nat)
    requires k < 4
    ensures Stage(c, r, k + 1) == Stage(c, r, k) + (if Ladder(r, k) in c.limits then {Ladder(r, k)} else {})
    ensures Stage(c, r, k) == Stage(c, r, k + 1) - {Ladder(r, k)}
    ensures Stage(c, r, 0) == {}
  {
    assert forall x :: Rung(r, x) == k <==> x == Ladder(r, k);
  }

  lemma ListenerStaysOk(c: Config, s: State, l: Listener, choice: Choice)
    requires ListenerOk(c, l) && ListenerStep(c, s, l, choice).Some?
    ensures var e := ListenerStep(c, s, l, choice).value;
            && e.next.relay == l.relay && ListenerOk(c, e.next)
            && (e.child.Some? ==>
                l.pc == Spawning(e.child.value.id) && e.child.value.connection == NewConnection(l.relay, l.permits))
  {
    StageGrows(c, l.relay, 0);
    if l.pc.Acquiring? && l.pc.stage < 4 {
      StageGrows(c, l.relay, l.pc.stage);
    } else if l.pc.RollingBack? && l.pc.stage > 0 {
      StageGrows(c, l.relay, l.pc.stage - 1);
    }
  }

  /** Local half of conservation: a step changes the shared state by exactly what it changes in its own obligations. */
  lemma ListenerPays(c: Config, s: State, l: Listener, choice: Choice, g: Gauge)
    requires ListenerOk(c, l) && ListenerStep(c, s, l, choice).Some?
    ensures var e := ListenerStep(c, s, l, choice).value;
            Weight(g, Listening(e.next)) + ChildWeight(e.child, g) == Weight(g, Listening(l)) + Delta(e.change, g)
  {
    if l.pc.Acquiring? && l.pc.stage < 4 {
      assert Ladder(l.relay, l.pc.stage) !in l.permits;
    }
  }

  lemma ConnectionKeepsPermits(c: Config, s: State, k: Connection, choice: Choice)
    requires ConnectionPermitsOk(c, k) && ConnectionStep(c, s, k, choice).Some?
    ensures ConnectionPermitsOk(c, ConnectionStep(c, s, k, choice).value.next)
  {
    if choice == Proceed {
      if k.pc.DroppingRelayConnecting? {
        assert Stage(c, k.relay, 4) - {GlobalConnecting} - {RelayConnecting(k.relay)} == Stage(c, k.relay, 2);
      } else if k.pc.Releasing? && k.pc.stage > 0 {
        StageGrows(c, k.relay, k.pc.stage - 1);
      }
    }
  }

  lemma ConnectionKeepsOutcome(c: Config, s: State, k: Connection, choice: Choice)
    requires OutcomeOk(k) && ConnectionStep(c, s, k, choice).Some?
    ensures OutcomeOk(ConnectionStep(c, s, k, choice).value.next)
    ensures ConnectionStep(c, s, k, choice).value.next.relay == k.relay
  {
  }

  /** A connection that picks a select branch or moves bytes changes none of the exported numbers ... */
  lemma ConnectionChoosesFreely(c: Config, s: State, k: Connection, choice: Choice, g: Gauge)
    requires OutcomeOk(k) && ConnectionChooses(c, s, k, choice).Some?
    ensures Weight(g, Connected(ConnectionChooses(c, s, k, choice).value)) == Weight(g, Connected(k))
  {
  }

  /** ... and every other step moves the one it owes: an outcome or byte counter, ... */
  lemma ConnectionReportsOutcome(c: Config, k: Connection, m: Metric)
    requires OutcomeOk(k) && ConnectionProceeds(c, k).Some?
    ensures var e := ConnectionProceeds(c, k).value;
            ConnectionWeight(m, e.next) == ConnectionWeight(m, k) + Delta(e.change, Level(m, k.relay))
              - (if m in {Accepted, Active, Closed} then Delta(e.change, Level(m, k.relay)) else 0)
  {
  }

  /** ... or the lifecycle counters and the permits. */
  lemma ConnectionPays(c: Config, s: State, k: Connection, choice: Choice, g: Gauge)
    requires OutcomeOk(k) && ConnectionStep(c, s, k, choice).Some?
    ensures var e := ConnectionStep(c, s, k, choice).value;
            Weight(g, Connected(e.next)) == Weight(g, Connected(k)) + Delta(e.change, g)
  {
    if choice != Proceed {
      ConnectionChoosesFreely(c, s, k, choice, g);
    } else if g.Level? && g.metric !in {Accepted, Active, Closed} {
      ConnectionReportsOutcome(c, k, g.metric);
    }
  }

  /** What the rest of the system relies on in a step of a process: permits, ... */
  predicate TakesOnlyWhatExists(c: Config, s: State, change: Change) {
    && (change.Take? ==> Available(s, change.permit) > 0)
    && (change.Take? || change.Give? ==> change.permit in c.limits)
  }

  /** ... the identity and local state of the process, ... */
  predicate StaysItself(c: Config, p: Proc, e: Effect) {
    && ProcOk(c, e.next) && RelayOf(e.next) == RelayOf(p) && (e.next.Listening? <==> p.Listening?)
    && (e.child.Some? ==> ProcOk(c, Connected(e.child.value.connection)))
  }

  /** ... connection ids, ... */
  predicate UsesOwnId(s: State, p: Proc, e: Effect) {
    && (PendingId(e.next).Some? && PendingId(e.next) != PendingId(p) ==>
          e.change == FetchId && PendingId(e.next) == Some(s.nextId))
    && (e.child.Some? ==> PendingId(p) == Some(e.child.value.id) && PendingId(e.next) == None)
  }

  /** ... and that whoever is done stays done. */
  predicate IsRunning(p: Proc) {
    match p case Listening(l) => l.pc != Stopped case Connected(k) => k.pc != Finished
  }

  ghost predicate Pays(p: Proc, e: Effect) {
    forall g: Gauge :: Weight(g, e.next) + ChildWeight(e.child, g) == Weight(g, p) + Delta(e.change, g)
  }

  lemma ListenerIsLawful(c: Config, s: State, l: Listener, choice: Choice)
    requires l.relay < c.relays && ListenerOk(c, l) && ListenerStep(c, s, l, choice).Some?
    ensures var step := ListenerStep(c, s, l, choice).value;
            var e := Effect(Listening(step.next), step.change, step.child);
            && TakesOnlyWhatExists(c, s, e.change) && StaysItself(c, Listening(l), e) && UsesOwnId(s, Listening(l), e)
            && IsRunning(Listening(l))
  {
    ListenerStaysOk(c, s, l, choice);
  }

  lemma ConnectionIsLawful(c: Config, s: State, k: Connection, choice: Choice)
    requires ProcOk(c, Connected(k)) && ConnectionStep(c, s, k, choice).Some?
    ensures var step := ConnectionStep(c, s, k, choice).value;
            var e := Effect(Connected(step.next), step.change, None);
            && TakesOnlyWhatExists(c, s, e.change) && StaysItself(c, Connected(k), e) && IsRunning(Connected(k))
  {
    ConnectionKeepsPermits(c, s, k, choice);
    ConnectionKeepsOutcome(c, s, k, choice);
    ConnectionKeepsWaiting(c, s, k, choice);
  }

  lemma ConnectionKeepsWaiting(c: Config, s: State, k: Connection, choice: Choice)
    requires WaitsForBuffersOk(c, k) && ConnectionStep(c, s, k, choice).Some?
    ensures WaitsForBuffersOk(c, ConnectionStep(c, s, k, choice).value.next)
  {
  }

  lemma StepsAreLawful(c: Config, s: State, p: Proc, choice: Choice)
    requires ProcOk(c, p) && ProcEffect(c, s, p, choice).Some?
    ensures var e := ProcEffect(c, s, p, choice).value;
            TakesOnlyWhatExists(c, s, e.change) && StaysItself(c, p, e) && UsesOwnId(s, p, e)
            && IsRunning(p) && (e.child.Some? ==> p.Listening?)
  {
    match p {
      case Listening(l) => ListenerIsLawful(c, s, l, choice);
      case Connected(k) => ConnectionIsLawful(c, s, k, choice);
    }
  }

  lemma StepsHaveCause(c: Config, s: State, p: Proc, choice: Choice)
    requires HasCause(s.ctl, p) && (s.ctl.aborted ==> s.ctl.shutdown) && ProcEffect(c, s, p, choice).Some?
    ensures var e := ProcEffect(c, s, p, choice).value;
            HasCause(s.ctl, e.next) && (e.child.Some? ==> HasCause(s.ctl, Connected(e.child.value.connection)))
  {
  }

  lemma StepsPay(c: Config, s: State, p: Proc, choice: Choice)
    requires ProcOk(c, p) && ProcEffect(c, s, p, choice).Some?
    ensures Pays(p, ProcEffect(c, s, p, choice).value)
  {
    var e := ProcEffect(c, s, p, choice).value;
    forall g: Gauge
      ensures Weight(g, e.next) + ChildWeight(e.child, g) == Weight(g, p) + Delta(e.change, g)
    {
      match p {
        case Listening(l) => ListenerPays(c, s, l, choice, g);
        case Connected(k) => ConnectionPays(c, s, k, choice, g);
      }
    }
  }

  // ---------------------------------------------------------------------------------------------
  // Global half
  // ---------------------------------------------------------------------------------------------

  lemma EffectMovesReading(c: Config, s: State, t: State, change: Change, g: Gauge)
    requires s.available.Keys == c.limits.Keys && TakesOnlyWhatExists(c, s, change)
    requires t.available == ApplyToSemaphores(s, change) && t.counters == ApplyToCounters(s.counters, change)
    ensures t.available.Keys == c.limits.Keys
    ensures Reading(c, t, g) == Reading(c, s, g) + Delta(change, g)
  {
    if change.Add? {
      assert forall j ::
          Read(t.counters, j) == Read(s.counters, j) + (if j == change.counter then change.amount else 0);
    }
  }

  lemma SpawnAdds(procs: map<ProcId, Proc>, who: ProcId, next: Proc, child: Option<Child>, w: Proc -> int)
    requires who in procs
    requires child.Some? ==> OfConnection(child.value.id) !in procs
    ensures Sum(Spawn(procs[who := next], child), w)
         == Sum(procs, w) - w(procs[who]) + w(next) + (if child.Some? then w(Connected(child.value.connection)) else 0)
  {
    SumUpdate(procs, w, who, next);
    if child.Some? {
      SumUpdate(procs[who := next], w, OfConnection(child.value.id), Connected(child.value.connection));
    }
  }

  lemma EffectConserves(c: Config, s: State, who: ProcId, e: Effect)
    requires s.available.Keys == c.limits.Keys && Conserved(c, s) && TakesOnlyWhatExists(c, s, e.change)
    requires who in s.procs && Pays(s.procs[who], e)
    requires e.child.Some? ==> OfConnection(e.child.value.id) !in s.procs
    ensures WithEffect(s, who, e).available.Keys == c.limits.Keys
    ensures Conserved(c, WithEffect(s, who, e))
  {
    var t := WithEffect(s, who, e);
    EffectMovesReading(c, s, t, e.change, InHand(0));
    forall g: Gauge ensures Reading(c, t, g) == Sum(t.procs, WeightOf(g)) {
      EffectMovesReading(c, s, t, e.change, g);
      SpawnAdds(s.procs, who, e.next, e.child, WeightOf(g));
    }
  }

  lemma EffectKeepsProcs(c: Config, s: State, t: State, who: ProcId, e: Effect)
    requires ProcsOk(c, s) && IdsOk(s)
    requires who in s.procs && StaysItself(c, s.procs[who], e) && UsesOwnId(s, s.procs[who], e)
    requires t.procs == Spawn(s.procs[who := e.next], e.child) && t.nextId >= s.nextId
    ensures ProcsOk(c, t)
  {
    forall i | i in t.procs
      ensures ProcOk(c, t.procs[i])
      ensures if i.OfListener? then t.procs[i].Listening? && t.procs[i].listener.relay == i.relay
              else t.procs[i].Connected? && i.id < t.nextId
    {
      if i != who && i in s.procs {
        assert t.procs[i] == s.procs[i];
      }
    }
  }

  lemma EffectKeepsIds(s: State, t: State, who: ProcId, e: Effect)
    requires IdsOk(s)
    requires forall i | i in s.procs && i.OfConnection? :: i.id < s.nextId
    requires who in s.procs && UsesOwnId(s, s.procs[who], e)
    requires t.procs == Spawn(s.procs[who := e.next], e.child)
    requires t.nextId == s.nextId + (if e.change == FetchId then 1 else 0)
    ensures IdsOk(t)
  {
    forall i | i in t.procs && PendingId(t.procs[i]).Some?
      ensures PendingId(t.procs[i]).value < t.nextId && OfConnection(PendingId(t.procs[i]).value) !in t.procs
    {
      if i != who {
        assert i in s.procs && t.procs[i] == s.procs[i];
      }
    }
  }

  lemma EffectKeepsMain(s: State, t: State, who: ProcId, e: Effect)
    requires MainOk(s)
    requires who in s.procs && IsRunning(s.procs[who]) && (e.child.Some? ==> s.procs[who].Listening?)
    requires (e.next.Listening? <==> s.procs[who].Listening?)
    requires t.procs == Spawn(s.procs[who := e.next], e.child)
    requires t.ctl == s.ctl
    ensures MainOk(t)
  {
    if ListenersStopped(s) {
      assert e.child == None;
    }
  }

  lemma EffectKeepsCauses(s: State, t: State, who: ProcId, e: Effect)
    requires CausesOk(s) && who in s.procs && HasCause(s.ctl, e.next)
    requires e.child.Some? ==> HasCause(s.ctl, Connected(e.child.value.connection))
    requires t.procs == Spawn(s.procs[who := e.next], e.child) && t.ctl == s.ctl
    ensures CausesOk(t)
  {
  }

  lemma ProcStepKeepsInv(c: Config, s: State, who: ProcId, choice: Choice)
    requires Inv(c, s) && who in s.procs && ProcEffect(c, s, s.procs[who], choice).Some?
    ensures Inv(c, WithEffect(s, who, ProcEffect(c, s, s.procs[who], choice).value))
  {
    var p := s.procs[who];
    var e := ProcEffect(c, s, p, choice).value;
    var t := WithEffect(s, who, e);
    StepsAreLawful(c, s, p, choice);
    StepsPay(c, s, p, choice);
    EffectConserves(c, s, who, e);
    EffectKeepsProcs(c, s, t, who, e);
    EffectKeepsIds(s, t, who, e);
    EffectKeepsMain(s, t, who, e);
    StepsHaveCause(c, s, p, choice);
    EffectKeepsCauses(s, t, who, e);
  }

  lemma ControlStepKeepsInv(c: Config, s: State, t: State, a: Action)
    requires Inv(c, s) && ControlStep(s, a).Some?
    requires t.ctl == ControlStep(s, a).value
    requires (t.procs, t.available, t.counters, t.nextId) == (s.procs, s.available, s.counters, s.nextId)
    ensures Inv(c, t)
  {
    ControlStepKeepsMain(s, t, a);
    assert forall g: Gauge :: Reading(c, t, g) == Reading(c, s, g);
  }

  lemma ControlStepKeepsMain(s: State, t: State, a: Action)
    requires MainOk(s) && ControlStep(s, a).Some?
    requires t.ctl == ControlStep(s, a).value && t.procs == s.procs
    ensures MainOk(t)
  {
  }

  lemma StepKeepsInv(c: Config, s: State, a: Action)
    requires Inv(c, s) && Step(c, s, a).Some?
    ensures Inv(c, Step(c, s, a).value)
  {
    if a.ProcSteps? {
      ProcStepKeepsInv(c, s, a.who, a.choice);
    } else {
      ControlStepKeepsInv(c, s, Step(c, s, a).value, a);
    }
  }

  lemma InitIsInv(c: Config)
    ensures Inv(c, Init(c))
  {
    InitConserves(c);
  }

  lemma InitConserves(c: Config)
    ensures Conserved(c, Init(c))
  {
    var s := Init(c);
    forall g: Gauge ensures Reading(c, s, g) == Sum(s.procs, WeightOf(g)) {
      InitWeighsNothing(c, g);
    }
  }

  lemma InitWeighsNothing(c: Config, g: Gauge)
    ensures Sum(Init(c).procs, WeightOf(g)) == 0
  {
    SumZero(Init(c).procs, WeightOf(g));
  }

  /** Every state that any number of processes reach under any interleaving satisfies the invariant. */
  lemma {:induction false} RunKeepsInv(c: Config, s: State, actions: seq<Action>)
    requires Inv(c, s) && Run(c, s, actions).Some?
    ensures Inv(c, Run(c, s, actions).value)
    decreases |actions|
  {
    if actions == [] {
    } else {
      StepKeepsInv(c, s, actions[0]);
      RunKeepsInv(c, Step(c, s, actions[0]).value, actions[1..]);
    }
  }
}

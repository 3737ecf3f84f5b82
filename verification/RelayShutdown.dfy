/**
 Shutdown: what a finished graceful phase implies, how many connections can still slip in, and why forcing drains.
 */
module RelayShutdown {
  import opened Wrappers
  import opened Totals
  import opened RelayProtocol
  import opened RelayInvariant
  import opened RelayGuarantees

  ghost predicate Quiescent(s: State) {
    ListenersStopped(s) && ConnectionsFinished(s)
  }

  ghost function ConnectionsOf(s: State, r: nat): set<ProcId> {
    set i | i in s.procs && s.procs[i].Connected? && s.procs[i].connection.relay == r
  }

  /** Once nothing runs, all permits are back and the metrics add up: `closed` was recorded once per connection. */
  lemma QuiescentMeansReturned(c: Config, s: State)
    requires Reachable(c, s) && Quiescent(s)
    ensures s.available == c.limits
    ensures forall r :: Metered(s, Active, r) == 0
    ensures forall r :: Metered(s, Accepted, r) == Metered(s, Closed, r) == |ConnectionsOf(s, r)|
  {
    GaugeReads(c, s, InHand(0));
    forall x | x in c.limits ensures s.available[x] == c.limits[x] {
      PermitsConserved(c, s, x);
      forall i | i in s.procs ensures x !in PermitsOf(s.procs[i]) {
        WhoHoldsWhat(c, s, i);
      }
      assert Holders(s, x) == {};
    }
    forall r: nat
      ensures Metered(s, Active, r) == 0
      ensures Metered(s, Accepted, r) == Metered(s, Closed, r) == |ConnectionsOf(s, r)|
    {
      QuiescentCounters(c, s, r);
    }
  }

  lemma QuiescentCounters(c: Config, s: State, r: nat)
    requires Reachable(c, s) && Quiescent(s)
    ensures Metered(s, Active, r) == 0
    ensures Metered(s, Accepted, r) == Metered(s, Closed, r) == |ConnectionsOf(s, r)|
  {
    GaugeReads(c, s, Level(Active, r));
    GaugeReads(c, s, Level(Closed, r));
    GaugeReads(c, s, Level(Accepted, r));
    SumZero(s.procs, WeightOf(Level(Active, r)));
    SumCounts(s.procs, WeightOf(Level(Closed, r)), ConnectionsOf(s, r));
    SumCounts(s.procs, WeightOf(Level(Accepted, r)), ConnectionsOf(s, r));
  }

  /** If the graceful phase finishes, no connection is live ... */
  lemma GracefulMeansQuiescent(c: Config, s: State)
    requires Reachable(c, s) && s.ctl.main == Graceful
    ensures Quiescent(s)
  {
    ReachableIsInv(c, s);
  }

  lemma QuiescentIsStuck(c: Config, s: State)
    requires Quiescent(s)
    ensures forall who, choice :: Step(c, s, ProcSteps(who, choice)) == None
  {
  }

  /** ... and none can ever be spawned again. */
  lemma {:induction false} QuiescentForever(c: Config, s: State, actions: seq<Action>)
    requires Quiescent(s) && Run(c, s, actions).Some?
    ensures var t := Run(c, s, actions).value;
            t.procs == s.procs && t.available == s.available && t.counters == s.counters
    decreases |actions|
  {
    if actions == [] {
    } else {
      QuiescentIsStuck(c, s);
      QuiescentForever(c, Step(c, s, actions[0]).value, actions[1..]);
    }
  }

  // ---------------------------------------------------------------------------------------------
  // At most one late connection per relay
  // ---------------------------------------------------------------------------------------------

  /** The listener is past its last look at the shutdown token and may still spawn. */
  predicate Admitting(pc: ListenerPc) {
    pc.Acquiring? || pc.FetchingId? || pc.CountingAccepted? || pc.CountingActive? || pc.Spawning?
  }

  ghost function SpawnedOrAdmitting(r: nat): Proc -> int {
    (p: Proc) => match p
                 case Listening(l) => Indicator(l.relay == r && Admitting(l.pc))
                 case Connected(k) => Indicator(k.relay == r)
  }

  lemma NoNewAdmission(c: Config, s: State, p: Proc, choice: Choice, r: nat)
    requires s.ctl.shutdown && ProcEffect(c, s, p, choice).Some?
    ensures var e := ProcEffect(c, s, p, choice).value;
            SpawnedOrAdmitting(r)(e.next)
            + (if e.child.Some? then SpawnedOrAdmitting(r)(Connected(e.child.value.connection)) else 0)
            <= SpawnedOrAdmitting(r)(p)
  {
  }

  lemma {:induction false} LateSpawns(c: Config, s: State, actions: seq<Action>, r: nat)
    requires Inv(c, s) && s.ctl.shutdown && Run(c, s, actions).Some?
    ensures Sum(Run(c, s, actions).value.procs, SpawnedOrAdmitting(r)) <= Sum(s.procs, SpawnedOrAdmitting(r))
    decreases |actions|
  {
    if actions == [] {
    } else {
      var a := actions[0];
      var t := Step(c, s, a).value;
      StepKeepsInv(c, s, a);
      if a.ProcSteps? {
        var p := s.procs[a.who];
        var e := ProcEffect(c, s, p, a.choice).value;
        assert ProcOk(c, p);
        StepsAreLawful(c, s, p, a.choice);
        NoNewAdmission(c, s, p, a.choice, r);
        SpawnAdds(s.procs, a.who, e.next, e.child, SpawnedOrAdmitting(r));
      }
      LateSpawns(c, t, actions[1..], r);
    }
  }

  ghost function Spawned(r: nat): Proc -> int {
    (p: Proc) => Indicator(p.Connected? && p.connection.relay == r)
  }

  lemma SpawnedCounts(s: State, r: nat)
    ensures |ConnectionsOf(s, r)| == Sum(s.procs, Spawned(r)) <= Sum(s.procs, SpawnedOrAdmitting(r))
  {
    SumCounts(s.procs, Spawned(r), ConnectionsOf(s, r));
    SumMonotone(s.procs, Spawned(r), SpawnedOrAdmitting(r));
  }

  lemma AdmittingCounts(c: Config, s: State, r: nat)
    requires ProcsOk(c, s) && r < c.relays
    ensures OfListener(r) in s.procs && s.procs[OfListener(r)].Listening?
    ensures Sum(s.procs, SpawnedOrAdmitting(r)) ==
            |ConnectionsOf(s, r)| + Indicator(Admitting(s.procs[OfListener(r)].listener.pc))
  {
    var admitting := if Admitting(s.procs[OfListener(r)].listener.pc) then {OfListener(r)} else {};
    SumCounts(s.procs, SpawnedOrAdmitting(r), ConnectionsOf(s, r) + admitting);
  }

  /** After cancellation each relay gains at most one connection, and only if its listener was already admitting it. */
  lemma AtMostOneLateConnection(c: Config, s: State, actions: seq<Action>, r: nat)
    requires Reachable(c, s) && s.ctl.shutdown && r < c.relays && Run(c, s, actions).Some?
    ensures OfListener(r) in s.procs && s.procs[OfListener(r)].Listening?
    ensures |ConnectionsOf(Run(c, s, actions).value, r)|
         <= |ConnectionsOf(s, r)| + Indicator(Admitting(s.procs[OfListener(r)].listener.pc))
  {
    ReachableIsInv(c, s);
    LateSpawns(c, s, actions, r);
    AdmittingCounts(c, s, r);
    SpawnedCounts(Run(c, s, actions).value, r);
  }

  // ---------------------------------------------------------------------------------------------
  // Draining
  // ---------------------------------------------------------------------------------------------

  /** With the shutdown token set a listener has only this many steps left, those of a connection it may spawn
      included. */
  function ListenerStepsLeft(pc: ListenerPc): nat {
    match pc
    case Stopped => 0
    case Polling => 1
    case CheckingShutdown => 1
    case Suspended => 2
    case BackingOff => 2
    case PollingAccept => 3
    case RollingBack(k) => 2 + k
    case Rejecting(k) => 3 + k
    case Spawning(_) => 17
    case CountingActive(_) => 18
    case CountingAccepted(_) => 19
    case FetchingId => 20
    case Acquiring(k) => if k < 4 then 25 - k else 21
  }

  function WorkOf(p: Proc): nat {
    match p case Listening(l) => ListenerStepsLeft(l.pc) case Connected(k) => StepsLeft(k.pc)
  }

  ghost function Work(): Proc -> int {
    (p: Proc) => WorkOf(p)
  }

  ghost function WorkLeft(s: State): int {
    Sum(s.procs, Work())
  }

  predicate MovesBytes(choice: Choice) {
    choice.Deliver? || choice.EndStream?
  }

  lemma ListenerProgresses(c: Config, s: State, l: Listener, choice: Choice)
    requires s.ctl.shutdown && ListenerOk(c, l) && ListenerStep(c, s, l, choice).Some?
    ensures var e := ListenerStep(c, s, l, choice).value;
            ListenerStepsLeft(e.next.pc) + (if e.child.Some? then StepsLeft(e.child.value.connection.pc) else 0) + 1
            <= ListenerStepsLeft(l.pc)
  {
  }

  lemma ConnectionProgresses(c: Config, s: State, k: Connection, choice: Choice)
    requires ConnectionStep(c, s, k, choice).Some?
    ensures StepsLeft(ConnectionStep(c, s, k, choice).value.next.pc)
            + (if MovesBytes(choice) then 0 else 1) <= StepsLeft(k.pc)
  {
  }

  lemma EveryStepIsProgress(c: Config, s: State, p: Proc, choice: Choice)
    requires s.ctl.shutdown && ProcOk(c, p) && ProcEffect(c, s, p, choice).Some?
    ensures var e := ProcEffect(c, s, p, choice).value;
            WorkOf(e.next) + (if e.child.Some? then WorkOf(Connected(e.child.value.connection)) else 0)
            + (if MovesBytes(choice) then 0 else 1) <= WorkOf(p)
  {
    match p {
      case Listening(l) => ListenerProgresses(c, s, l, choice);
      case Connected(k) => ConnectionProgresses(c, s, k, choice);
    }
  }

  predicate IsWork(a: Action) {
    a.ProcSteps? && !MovesBytes(a.choice)
  }

  function WorkSteps(actions: seq<Action>): nat {
    if actions == [] then 0 else Indicator(IsWork(actions[0])) + WorkSteps(actions[1..])
  }

  lemma StepUsesWork(c: Config, s: State, a: Action)
    requires Inv(c, s) && s.ctl.shutdown && Step(c, s, a).Some?
    ensures WorkLeft(Step(c, s, a).value) + Indicator(IsWork(a)) <= WorkLeft(s)
  {
    if a.ProcSteps? {
      var p := s.procs[a.who];
      var e := ProcEffect(c, s, p, a.choice).value;
      assert ProcOk(c, p);
      StepsAreLawful(c, s, p, a.choice);
      EveryStepIsProgress(c, s, p, a.choice);
      SpawnAdds(s.procs, a.who, e.next, e.child, Work());
    }
  }

  /** After cancellation every run, whatever it interleaves, takes at most `WorkLeft` steps that do not move bytes. */
  lemma {:induction false} RunsUseWork(c: Config, s: State, actions: seq<Action>)
    requires Inv(c, s) && s.ctl.shutdown && Run(c, s, actions).Some?
    ensures WorkSteps(actions) + WorkLeft(Run(c, s, actions).value) <= WorkLeft(s)
    decreases |actions|
  {
    if actions == [] {
    } else {
      StepKeepsInv(c, s, actions[0]);
      StepUsesWork(c, s, actions[0]);
      RunsUseWork(c, Step(c, s, actions[0]).value, actions[1..]);
    }
  }

  /** What a process does next once it has been forced: the force branch, the abort, or straight on. */
  function ForcedChoice(p: Proc): Choice {
    match p
    case Listening(l) =>
      if l.pc in {Suspended, BackingOff} then Abort else if l.pc == PollingAccept then AcceptPending else Proceed
    case Connected(k) =>
      if k.pc in {Connecting, WaitingForBuffers} then ForceWins
      else if k.pc == Transferring then (if BothEnded(k) then JoinOk else ForceWins)
      else Proceed
  }

  /** Forcing leaves nobody stuck: whoever still runs, waiting for pool buffers included, has a step. */
  lemma NobodyStuck(c: Config, s: State, p: Proc)
    requires s.ctl.force && s.ctl.aborted && ProcOk(c, p) && IsRunning(p)
    ensures ProcEffect(c, s, p, ForcedChoice(p)).Some? && !MovesBytes(ForcedChoice(p))
  {
  }

  /** A step of a process that waits for nothing from a peer, the pool or a timer. */
  predicate NeedsNobody(a: Action) {
    a.ProcSteps? && a.choice in {Abort, AcceptPending, Proceed, ForceWins, JoinOk}
  }

  predicate NeedNobody(actions: seq<Action>) {
    forall i | 0 <= i < |actions| :: NeedsNobody(actions[i])
  }

  /** The forced phase can always be run to the end, whatever the peers do, in no more steps than there is work left. */
  lemma {:induction false} ForcedDrains(c: Config, s: State)
    returns (actions: seq<Action>)
    requires Inv(c, s) && s.ctl.force && s.ctl.aborted
    ensures Run(c, s, actions).Some? && Quiescent(Run(c, s, actions).value)
    ensures |actions| <= WorkLeft(s)
    ensures NeedNobody(actions)
    decreases WorkLeft(s)
  {
    WorkIsNat(s);
    if i :| i in s.procs && IsRunning(s.procs[i]) {
      var a := ProcSteps(i, ForcedChoice(s.procs[i]));
      var t := OneForcedStep(c, s, i);
      WorkIsNat(t);
      var rest := ForcedDrains(c, t);
      actions := [a] + rest;
      RunCons(c, s, a, rest);
    } else {
      actions := [];
    }
  }

  lemma OneForcedStep(c: Config, s: State, i: ProcId) returns (t: State)
    requires Inv(c, s) && s.ctl.force && s.ctl.aborted && i in s.procs && IsRunning(s.procs[i])
    ensures var a := ProcSteps(i, ForcedChoice(s.procs[i])); NeedsNobody(a) && Step(c, s, a) == Some(t)
    ensures Inv(c, t) && t.ctl == s.ctl && WorkLeft(t) < WorkLeft(s)
  {
    var a := ProcSteps(i, ForcedChoice(s.procs[i]));
    assert ProcOk(c, s.procs[i]);
    NobodyStuck(c, s, s.procs[i]);
    StepKeepsInv(c, s, a);
    StepUsesWork(c, s, a);
    t := Step(c, s, a).value;
  }

  ghost predicate HasWorkStep(c: Config, s: State) {
    exists a :: IsWork(a) && Step(c, s, a).Some?
  }

  /** Once forced, having nothing left to do but to move bytes, of which there are none, is being drained. */
  lemma StuckIffQuiescent(c: Config, s: State)
    requires Inv(c, s) && s.ctl.force && s.ctl.aborted
    ensures Quiescent(s) <==> !HasWorkStep(c, s)
  {
    if Quiescent(s) {
      QuiescentIsStuck(c, s);
    } else {
      var i :| i in s.procs && IsRunning(s.procs[i]);
      assert ProcOk(c, s.procs[i]);
      NobodyStuck(c, s, s.procs[i]);
      assert Step(c, s, ProcSteps(i, ForcedChoice(s.procs[i]))).Some?;
    }
  }

  lemma {:induction false} ForceStays(c: Config, s: State, actions: seq<Action>)
    requires s.ctl.force && s.ctl.aborted && Run(c, s, actions).Some?
    ensures Run(c, s, actions).value.ctl.force && Run(c, s, actions).value.ctl.aborted
    decreases |actions|
  {
    if actions == [] {
    } else {
      ForceStays(c, Step(c, s, actions[0]).value, actions[1..]);
    }
  }

  lemma NoWorkMeansQuiescent(s: State)
    requires WorkLeft(s) <= 0
    ensures Quiescent(s)
  {
    forall i | i in s.procs ensures !IsRunning(s.procs[i]) {
      SumDominates(s.procs, Work(), i);
    }
  }

  /** Every schedule drains: a run from a forced state can take no more work steps than there is work left; it has
      drained as soon as it has taken that many, and otherwise there is always another one to take until it has. */
  lemma EveryForcedRunDrains(c: Config, s: State, actions: seq<Action>)
    requires Inv(c, s) && s.ctl.force && s.ctl.aborted && Run(c, s, actions).Some?
    ensures var t := Run(c, s, actions).value;
            && WorkSteps(actions) <= WorkLeft(s)
            && (WorkSteps(actions) == WorkLeft(s) ==> Quiescent(t))
            && (Quiescent(t) <==> !HasWorkStep(c, t))
  {
    var t := Run(c, s, actions).value;
    RunKeepsInv(c, s, actions);
    ForceStays(c, s, actions);
    RunsUseWork(c, s, actions);
    WorkIsNat(t);
    StuckIffQuiescent(c, t);
    if WorkSteps(actions) == WorkLeft(s) {
      NoWorkMeansQuiescent(t);
    }
  }

  /** Forced shutdown, from any state it can be entered in, ends with every permit back and every connection closed
      once. */
  lemma ForcedShutdownReturnsEverything(c: Config, s: State)
    returns (actions: seq<Action>, t: State)
    requires Reachable(c, s) && s.ctl.force && s.ctl.aborted
    ensures Run(c, s, actions) == Some(t) && |actions| <= WorkLeft(s)
    ensures t.available == c.limits
    ensures forall r ::
            Metered(t, Active, r) == 0 && Metered(t, Accepted, r) == Metered(t, Closed, r) == |ConnectionsOf(t, r)|
  {
    ReachableIsInv(c, s);
    actions := ForcedDrains(c, s);
    t := Run(c, s, actions).value;
    StaysReachable(c, s, actions);
    QuiescentMeansReturned(c, t);
  }

  lemma WorkIsNat(s: State)
    ensures WorkLeft(s) >= 0
  {
    SumZero(s.procs, (p: Proc) => 0);
    SumMonotone(s.procs, (p: Proc) => 0, Work());
  }
}

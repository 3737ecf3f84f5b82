/**
 What the protocol can always do: a listener goes on after every client, and the server, once it is told to shut down,
 returns.  Each is a run whose steps are named, because what such a run waits for is the point of it.
 */
module RelayLiveness {
  import opened Wrappers
  import opened Totals
  import opened RelayProtocol
  import opened RelayInvariant
  import opened RelayGuarantees
  import opened RelayShutdown

  /** There is a run that consists of allowed actions only. */
  ghost predicate RunsVia(c: Config, allowed: Action -> bool, s: State, t: State) {
    exists actions: seq<Action> ::
      Run(c, s, actions) == Some(t) && forall i | 0 <= i < |actions| :: allowed(actions[i])
  }

  lemma ViaNothing(c: Config, allowed: Action -> bool, s: State)
    ensures RunsVia(c, allowed, s, s)
  {
    assert Run(c, s, []) == Some(s);
  }

  lemma ViaOne(c: Config, allowed: Action -> bool, s: State, a: Action, t: State)
    requires Step(c, s, a) == Some(t) && allowed(a)
    ensures RunsVia(c, allowed, s, t)
  {
    assert [a][1..] == [];
    assert Run(c, s, [a]) == Some(t);
  }

  lemma ViaBoth(c: Config, allowed: Action -> bool, s: State, t: State, u: State)
    requires RunsVia(c, allowed, s, t) && RunsVia(c, allowed, t, u)
    ensures RunsVia(c, allowed, s, u)
  {
    var first: seq<Action> :|
      Run(c, s, first) == Some(t) && forall i | 0 <= i < |first| :: allowed(first[i]);
    var second: seq<Action> :|
      Run(c, t, second) == Some(u) && forall i | 0 <= i < |second| :: allowed(second[i]);
    RunsCompose(c, s, first, second);
    assert forall i | 0 <= i < |first + second| :: allowed((first + second)[i]);
  }

  lemma ViaMore(c: Config, some: Action -> bool, all: Action -> bool, s: State, t: State)
    requires RunsVia(c, some, s, t) && forall a | some(a) :: all(a)
    ensures RunsVia(c, all, s, t)
  {
  }

  lemma ViaReaches(c: Config, allowed: Action -> bool, s: State, t: State)
    requires Reachable(c, s) && RunsVia(c, allowed, s, t)
    ensures Reachable(c, t)
  {
    var actions: seq<Action> :| Run(c, s, actions) == Some(t);
    StaysReachable(c, s, actions);
  }

  // ---------------------------------------------------------------------------------------------
  // Listeners go on
  // ---------------------------------------------------------------------------------------------

  /** A listener stops only for the shutdown, and a connection is forced only by the force token, which is set only when
      the graceful phase has run out of time. */
  lemma NothingStopsWithoutCause(c: Config, s: State, i: ProcId)
    requires Reachable(c, s) && i in s.procs
    ensures s.procs[i].Listening? && s.procs[i].listener.pc == Stopped ==> s.ctl.shutdown
    ensures s.procs[i].Connected? && s.procs[i].connection.outcome == Forced ==> s.ctl.force
    ensures s.ctl.force || s.ctl.aborted ==>
              s.ctl.shutdown && s.ctl.main !in {Serving, Joining, ClosingTracker, WaitingForTasks, Graceful}
  {
    ReachableIsInv(c, s);
    assert HasCause(s.ctl, s.procs[i]);
  }

  predicate OfThisListener(r: nat, a: Action) {
    a.ProcSteps? && a.who == OfListener(r)
  }

  function StepsOf(r: nat): Action -> bool {
    a => OfThisListener(r, a)
  }

  predicate ListenerIsAt(s: State, r: nat, pc: ListenerPc) {
    OfListener(r) in s.procs && s.procs[OfListener(r)].Listening? && s.procs[OfListener(r)].listener.pc == pc
  }

  /** An upper bound on the listener's steps until it polls for the next client. */
  function StepsToAccept(pc: ListenerPc): nat {
    match pc
    case PollingAccept => 0
    case Polling => 1
    case Suspended => 2
    case BackingOff => 2
    case RollingBack(k) => 2 + k
    case Rejecting(k) => 3 + k
    case Spawning(_) => 2
    case CountingActive(_) => 3
    case CountingAccepted(_) => 4
    case FetchingId => 5
    case Acquiring(k) => if k < 4 then 10 - k else 6
    case CheckingShutdown => 11
    case Stopped => 0
  }

  function OnwardChoice(pc: ListenerPc): Choice {
    match pc
    case Suspended => Wake
    case BackingOff => TimerFires
    case _ => Proceed
  }

  lemma ListenerMovesOn(c: Config, s: State, l: Listener)
    requires ListenerOk(c, l) && !s.ctl.shutdown && l.pc !in {PollingAccept, Stopped}
    ensures var e := ListenerStep(c, s, l, OnwardChoice(l.pc));
            && e.Some? && StepsToAccept(e.value.next.pc) < StepsToAccept(l.pc) && e.value.next.pc != Stopped
            && (e.value.change.Add? ==>
                  e.value.change.counter !in {Tallied(Offered, l.relay), Tallied(DroppedAtShutdown, l.relay)})
  {
  }

  /** Clients of relay `r` that were offered to it or, after the shutdown, dropped. */
  function OfferedTo(s: State, r: nat): int {
    Read(s.counters, Tallied(Offered, r))
  }

  function DroppedBy(s: State, r: nat): int {
    Read(s.counters, Tallied(DroppedAtShutdown, r))
  }

  lemma OneStepOn(c: Config, s: State, r: nat) returns (t: State)
    requires Inv(c, s) && !s.ctl.shutdown && OfListener(r) in s.procs && !ListenerIsAt(s, r, PollingAccept)
    ensures RunsVia(c, StepsOf(r), s, t) && Inv(c, t) && t.ctl == s.ctl
    ensures OfferedTo(t, r) == OfferedTo(s, r) && DroppedBy(t, r) == DroppedBy(s, r)
    ensures OfListener(r) in t.procs && t.procs[OfListener(r)].Listening? && s.procs[OfListener(r)].Listening?
    ensures StepsToAccept(t.procs[OfListener(r)].listener.pc) < StepsToAccept(s.procs[OfListener(r)].listener.pc)
  {
    var i := OfListener(r);
    assert ProcOk(c, s.procs[i]) && HasCause(s.ctl, s.procs[i]) && s.procs[i].listener.relay == r;
    var choice := OnwardChoice(s.procs[i].listener.pc);
    ListenerMovesOn(c, s, s.procs[i].listener);
    t := WithEffect(s, i, ProcEffect(c, s, s.procs[i], choice).value);
    StepKeepsInv(c, s, ProcSteps(i, choice));
    ViaOne(c, StepsOf(r), s, ProcSteps(i, choice), t);
  }

  /** Before the shutdown a listener comes back to polling for a client from wherever it is, by its own steps alone. */
  lemma {:induction false} ComesBack(c: Config, s: State, r: nat) returns (t: State)
    requires Inv(c, s) && !s.ctl.shutdown && OfListener(r) in s.procs && s.procs[OfListener(r)].Listening?
    ensures RunsVia(c, StepsOf(r), s, t) && Inv(c, t) && t.ctl == s.ctl && ListenerIsAt(t, r, PollingAccept)
    ensures OfferedTo(t, r) == OfferedTo(s, r) && DroppedBy(t, r) == DroppedBy(s, r)
    decreases StepsToAccept(s.procs[OfListener(r)].listener.pc)
  {
    if ListenerIsAt(s, r, PollingAccept) {
      t := s;
      ViaNothing(c, StepsOf(r), s);
    } else {
      var u := OneStepOn(c, s, r);
      t := ComesBack(c, u, r);
      ViaBoth(c, StepsOf(r), s, u, t);
    }
  }

  lemma AcceptsOne(c: Config, s: State, r: nat) returns (t: State)
    requires Inv(c, s) && !s.ctl.shutdown && ListenerIsAt(s, r, PollingAccept)
    ensures RunsVia(c, StepsOf(r), s, t) && Inv(c, t) && t.ctl == s.ctl
    ensures OfListener(r) in t.procs && t.procs[OfListener(r)].Listening?
    ensures OfferedTo(t, r) == OfferedTo(s, r) + 1 && DroppedBy(t, r) == DroppedBy(s, r)
  {
    var a := ProcSteps(OfListener(r), AcceptOk);
    assert s.procs[OfListener(r)].listener.relay == r;
    assert Step(c, s, a).Some?;
    StepKeepsInv(c, s, a);
    t := Step(c, s, a).value;
    ViaOne(c, StepsOf(r), s, a, t);
  }

  /** What has become of the clients a listener was offered. */
  lemma OneClientAtATime(c: Config, s: State, r: nat)
    requires Reachable(c, s) && r < c.relays
    ensures OfListener(r) in s.procs && s.procs[OfListener(r)].Listening?
    ensures OfferedTo(s, r) == Metered(s, Accepted, r) + Read(s.counters, Tallied(Rejected, r)) + DroppedBy(s, r)
                               + Indicator(ClientInHand(s.procs[OfListener(r)].listener.pc))
  {
    ReachableIsInv(c, s);
    GaugeReads(c, s, InHand(r));
    var holding := if ClientInHand(s.procs[OfListener(r)].listener.pc) then {OfListener(r)} else {};
    SumCounts(s.procs, WeightOf(InHand(r)), holding);
  }

  /** Before the shutdown any number of clients can come one after the other, and each of them is accepted or rejected:
      from any state that is reached the listener gets to every one of them by its own steps alone. */
  lemma {:induction false} ServesClients(c: Config, s: State, r: nat, n: nat) returns (t: State)
    requires Reachable(c, s) && !s.ctl.shutdown && r < c.relays
    ensures RunsVia(c, StepsOf(r), s, t) && Reachable(c, t) && ListenerIsAt(t, r, PollingAccept)
    ensures OfListener(r) in s.procs && s.procs[OfListener(r)].Listening?
    ensures OfferedTo(t, r) == OfferedTo(s, r) + n
    ensures Metered(t, Accepted, r) + Read(t.counters, Tallied(Rejected, r)) ==
            Metered(s, Accepted, r) + Read(s.counters, Tallied(Rejected, r))
            + n + Indicator(ClientInHand(s.procs[OfListener(r)].listener.pc))
  {
    ReachableIsInv(c, s);
    t := GetsClients(c, s, r, n);
    ViaReaches(c, StepsOf(r), s, t);
    OneClientAtATime(c, s, r);
    OneClientAtATime(c, t, r);
  }

  lemma {:induction false} GetsClients(c: Config, s: State, r: nat, n: nat) returns (t: State)
    requires Inv(c, s) && !s.ctl.shutdown && OfListener(r) in s.procs && s.procs[OfListener(r)].Listening?
    ensures RunsVia(c, StepsOf(r), s, t) && ListenerIsAt(t, r, PollingAccept)
    ensures OfferedTo(t, r) == OfferedTo(s, r) + n && DroppedBy(t, r) == DroppedBy(s, r)
    decreases n
  {
    var u := ComesBack(c, s, r);
    if n == 0 {
      t := u;
    } else {
      var v := AcceptsOne(c, u, r);
      t := GetsClients(c, v, r, n - 1);
      ViaBoth(c, StepsOf(r), s, u, v);
      ViaBoth(c, StepsOf(r), s, v, t);
    }
  }

  // ---------------------------------------------------------------------------------------------
  // The server returns
  // ---------------------------------------------------------------------------------------------

  predicate IsMainStep(a: Action) {
    a.MainAdvances? || a.MainTimesOut?
  }

  /** Neither a peer nor the pool is needed for it. */
  predicate IsSilent(a: Action) {
    a.CancelShutdown? || IsMainStep(a) || NeedsNobody(a)
  }

  function MainSteps(): Action -> bool {
    a => IsMainStep(a)
  }

  function SilentSteps(): Action -> bool {
    a => IsSilent(a)
  }

  lemma MainMoves(c: Config, s: State, a: Action, t: State)
    requires IsMainStep(a) && Step(c, s, a) == Some(t)
    ensures RunsVia(c, MainSteps(), s, t)
  {
    ViaOne(c, MainSteps(), s, a, t);
  }

  /** When the graceful phase runs out of time the main task forces everything, by its own steps alone. */
  lemma DeadlineForces(c: Config, s: State) returns (t: State)
    requires s.ctl.main in {Joining, WaitingForTasks, ForcingTasks, AbortingListeners}
    requires s.ctl.main == AbortingListeners ==> s.ctl.force
    ensures RunsVia(c, MainSteps(), s, t) && t.ctl.force && t.ctl.aborted && t.ctl.main == ClosingTrackerForced
    ensures t == s.(ctl := t.ctl)
  {
    var s1 := if s.ctl.main in {Joining, WaitingForTasks} then s.(ctl := s.ctl.(main := ForcingTasks)) else s;
    if s.ctl.main in {Joining, WaitingForTasks} {
      MainMoves(c, s, MainTimesOut, s1);
    } else {
      ViaNothing(c, MainSteps(), s);
    }
    var s2 := if s1.ctl.main == ForcingTasks then s1.(ctl := s1.ctl.(main := AbortingListeners, force := true)) else s1;
    if s1.ctl.main == ForcingTasks {
      MainMoves(c, s1, MainAdvances, s2);
    } else {
      ViaNothing(c, MainSteps(), s1);
    }
    t := s2.(ctl := s2.ctl.(main := ClosingTrackerForced, aborted := true));
    MainMoves(c, s2, MainAdvances, t);
    ViaBoth(c, MainSteps(), s, s1, s2);
    ViaBoth(c, MainSteps(), s, s2, t);
  }

  /** What is left of the two phases once everything has ended. */
  function StepsToReturn(m: MainPc): nat {
    match m
    case Serving => 4
    case Joining => 3
    case ClosingTracker => 2
    case WaitingForTasks => 1
    case Graceful => 0
    case ForcingTasks => 5
    case AbortingListeners => 4
    case ClosingTrackerForced => 3
    case Draining => 2
    case JoiningAborted => 1
    case ForcedDone => 0
  }

  predicate BeforeDeadline(m: MainPc) {
    m in {Serving, Joining, ClosingTracker, WaitingForTasks, Graceful}
  }

  predicate HasReturned(m: MainPc) {
    m == Graceful || m == ForcedDone
  }

  /** It then returns, gracefully unless the deadline has passed before. */
  lemma {:induction false} QuiescentReturns(c: Config, s: State) returns (t: State)
    requires Inv(c, s) && s.ctl.shutdown && Quiescent(s)
    ensures RunsVia(c, MainSteps(), s, t) && RunsVia(c, PromptSteps(), s, t)
    ensures HasReturned(t.ctl.main) && (t.ctl.main == Graceful <==> BeforeDeadline(s.ctl.main))
    ensures t == s.(ctl := t.ctl)
    decreases StepsToReturn(s.ctl.main)
  {
    if HasReturned(s.ctl.main) {
      t := s;
      ViaNothing(c, MainSteps(), s);
      ViaNothing(c, PromptSteps(), s);
    } else {
      assert Step(c, s, MainAdvances).Some?;
      var u := Step(c, s, MainAdvances).value;
      StepKeepsInv(c, s, MainAdvances);
      t := QuiescentReturns(c, u);
      MainMoves(c, s, MainAdvances, u);
      ViaOne(c, PromptSteps(), s, MainAdvances, u);
      ViaBoth(c, MainSteps(), s, u, t);
      ViaBoth(c, PromptSteps(), s, u, t);
    }
  }

  /** From any state that is reached: the shutdown, once requested, ends with the server having returned and everything
      given back, though no peer ever does anything and the pool grants nothing. */
  lemma ShutdownReturns(c: Config, s: State) returns (t: State)
    requires Reachable(c, s)
    ensures RunsVia(c, SilentSteps(), s, t) && HasReturned(t.ctl.main) && Quiescent(t)
    ensures t.available == c.limits
  {
    ReachableIsInv(c, s);
    var u := Cancelled(c, s);
    if u.ctl.main == Graceful {
      t := u;
    } else {
      var v := ForcedFrom(c, u);
      ViaBoth(c, SilentSteps(), s, u, v);
      t := DrainsAndReturns(c, v);
      ViaBoth(c, SilentSteps(), s, v, t);
    }
    ViaReaches(c, SilentSteps(), s, t);
    QuiescentMeansReturned(c, t);
  }

  /** The token is set, and `Server::run` has seen it. */
  lemma Cancelled(c: Config, s: State) returns (t: State)
    requires Inv(c, s)
    ensures RunsVia(c, SilentSteps(), s, t) && RunsVia(c, PromptSteps(), s, t) && Inv(c, t)
    ensures t.ctl.shutdown && t.ctl.main != Serving && (s.ctl.main != Serving ==> t.ctl.main == s.ctl.main)
    ensures s.ctl.main == Serving ==> t.ctl.main == Joining
    ensures t.ctl.main == Graceful ==> Quiescent(t)
  {
    var u := s.(ctl := s.ctl.(shutdown := true));
    StepKeepsInv(c, s, CancelShutdown);
    ViaOne(c, SilentSteps(), s, CancelShutdown, u);
    ViaOne(c, PromptSteps(), s, CancelShutdown, u);
    if u.ctl.main == Serving {
      t := Step(c, u, MainAdvances).value;
      StepKeepsInv(c, u, MainAdvances);
      ViaOne(c, SilentSteps(), u, MainAdvances, t);
      ViaOne(c, PromptSteps(), u, MainAdvances, t);
      ViaBoth(c, SilentSteps(), s, u, t);
      ViaBoth(c, PromptSteps(), s, u, t);
    } else {
      t := u;
    }
  }

  lemma {:induction false} ForcedFrom(c: Config, s: State) returns (t: State)
    requires Inv(c, s) && s.ctl.shutdown && s.ctl.main !in {Serving, Graceful}
    ensures RunsVia(c, SilentSteps(), s, t) && Inv(c, t) && t.ctl.force && t.ctl.aborted
    decreases StepsToReturn(s.ctl.main)
  {
    if s.ctl.aborted {
      t := s;
      ViaNothing(c, SilentSteps(), s);
    } else if s.ctl.main == ClosingTracker {
      var u := Step(c, s, MainAdvances).value;
      StepKeepsInv(c, s, MainAdvances);
      t := ForcedFrom(c, u);
      ViaOne(c, SilentSteps(), s, MainAdvances, u);
      ViaBoth(c, SilentSteps(), s, u, t);
    } else {
      t := DeadlineForces(c, s);
      ViaKeepsInv(c, MainSteps(), s, t);
      ViaMore(c, MainSteps(), SilentSteps(), s, t);
    }
  }

  lemma ViaKeepsInv(c: Config, allowed: Action -> bool, s: State, t: State)
    requires Inv(c, s) && RunsVia(c, allowed, s, t)
    ensures Inv(c, t)
  {
    var actions: seq<Action> :| Run(c, s, actions) == Some(t);
    RunKeepsInv(c, s, actions);
  }

  lemma DrainsAndReturns(c: Config, s: State) returns (t: State)
    requires Inv(c, s) && s.ctl.force && s.ctl.aborted
    ensures RunsVia(c, SilentSteps(), s, t) && HasReturned(t.ctl.main) && Quiescent(t)
  {
    var actions := ForcedDrains(c, s);
    var u := Run(c, s, actions).value;
    ForceStays(c, s, actions);
    RunKeepsInv(c, s, actions);
    assert NeedNobody(actions) && forall i | 0 <= i < |actions| :: SilentSteps()(actions[i]);
    assert RunsVia(c, SilentSteps(), s, u);
    t := QuiescentReturns(c, u);
    ViaMore(c, MainSteps(), SilentSteps(), u, t);
    ViaBoth(c, SilentSteps(), s, u, t);
  }

  // ---------------------------------------------------------------------------------------------
  // Gracefully
  // ---------------------------------------------------------------------------------------------

  /** Neither the deadline nor force, nor an abort. */
  predicate IsPrompt(a: Action) {
    !a.MainTimesOut? && !(a.ProcSteps? && a.choice in {ForceWins, Abort})
  }

  function PromptSteps(): Action -> bool {
    a => IsPrompt(a)
  }

  /** Peers that answer and end their streams, a pool that grants. */
  function PromptChoice(p: Proc): Choice {
    match p
    case Listening(l) => (
      match l.pc
      case Suspended => Wake
      case BackingOff => SeeShutdown
      case PollingAccept => AcceptPending
      case _ => Proceed)
    case Connected(k) => (
      match k.pc
      case Connecting => ConnectOk
      case WaitingForBuffers => BuffersGranted
      case Transferring => if !k.up.ended then EndStream(true) else if !k.down.ended then EndStream(false) else JoinOk
      case _ => Proceed)
  }

  lemma PromptChoiceIsPrompt(i: ProcId, p: Proc)
    ensures PromptSteps()(ProcSteps(i, PromptChoice(p)))
  {
  }

  function StreamsOpen(k: Connection): nat {
    (if k.up.ended then 0 else 1) + (if k.down.ended then 0 else 1)
  }

  /** Work of which the end of a stream is a part. */
  function PromptWorkOf(p: Proc): nat {
    3 * WorkOf(p) + (if p.Connected? then StreamsOpen(p.connection) else 0)
  }

  ghost function PromptWork(): Proc -> int {
    (p: Proc) => PromptWorkOf(p)
  }

  ghost function PromptWorkLeft(s: State): int {
    Sum(s.procs, PromptWork())
  }

  lemma PromptListener(c: Config, s: State, l: Listener)
    requires s.ctl.shutdown && ListenerOk(c, l) && l.pc != Stopped
    ensures var e := ListenerStep(c, s, l, PromptChoice(Listening(l)));
            && e.Some?
            && 3 * ListenerStepsLeft(e.value.next.pc)
               + (if e.value.child.Some? then PromptWorkOf(Connected(e.value.child.value.connection)) else 0)
               < 3 * ListenerStepsLeft(l.pc)
  {
  }

  lemma PromptConnection(c: Config, s: State, k: Connection)
    requires ConnectionPermitsOk(c, k) && k.pc != Finished
    ensures var e := ConnectionStep(c, s, k, PromptChoice(Connected(k)));
            e.Some? && PromptWorkOf(Connected(e.value.next)) < PromptWorkOf(Connected(k))
  {
  }

  lemma PromptStep(c: Config, s: State, p: Proc)
    requires s.ctl.shutdown && ProcOk(c, p) && IsRunning(p)
    ensures var e := ProcEffect(c, s, p, PromptChoice(p));
            && e.Some?
            && PromptWorkOf(e.value.next)
               + (if e.value.child.Some? then PromptWorkOf(Connected(e.value.child.value.connection)) else 0)
               < PromptWorkOf(p)
  {
    match p {
      case Listening(l) => PromptListener(c, s, l);
      case Connected(k) => PromptConnection(c, s, k);
    }
  }

  lemma PromptWorkIsNat(s: State)
    ensures PromptWorkLeft(s) >= 0
  {
    SumZero(s.procs, (p: Proc) => 0);
    SumMonotone(s.procs, (p: Proc) => 0, PromptWork());
  }

  lemma PromptStepSpends(c: Config, s: State, i: ProcId)
    requires Inv(c, s) && s.ctl.shutdown && i in s.procs && IsRunning(s.procs[i])
    ensures var e := ProcEffect(c, s, s.procs[i], PromptChoice(s.procs[i]));
            e.Some? && PromptWorkLeft(WithEffect(s, i, e.value)) < PromptWorkLeft(s)
  {
    var p := s.procs[i];
    assert ProcOk(c, p);
    PromptStep(c, s, p);
    StepsAreLawful(c, s, p, PromptChoice(p));
    var e := ProcEffect(c, s, p, PromptChoice(p)).value;
    SpawnAdds(s.procs, i, e.next, e.child, PromptWork());
  }

  lemma OnePromptStep(c: Config, s: State, i: ProcId) returns (t: State)
    requires Inv(c, s) && s.ctl.shutdown && i in s.procs && IsRunning(s.procs[i])
    ensures RunsVia(c, PromptSteps(), s, t) && Inv(c, t) && t.ctl == s.ctl
    ensures PromptWorkLeft(t) < PromptWorkLeft(s)
  {
    var a := ProcSteps(i, PromptChoice(s.procs[i]));
    PromptStepSpends(c, s, i);
    PromptChoiceIsPrompt(i, s.procs[i]);
    t := WithEffect(s, i, ProcEffect(c, s, s.procs[i], PromptChoice(s.procs[i])).value);
    StepKeepsInv(c, s, a);
    ViaOne(c, PromptSteps(), s, a, t);
  }

  lemma {:induction false} PromptDrains(c: Config, s: State) returns (t: State)
    requires Inv(c, s) && s.ctl.shutdown
    ensures RunsVia(c, PromptSteps(), s, t) && Inv(c, t) && t.ctl == s.ctl && Quiescent(t)
    decreases PromptWorkLeft(s)
  {
    PromptWorkIsNat(s);
    if i :| i in s.procs && IsRunning(s.procs[i]) {
      var u := OnePromptStep(c, s, i);
      PromptWorkIsNat(u);
      t := PromptDrains(c, u);
      ViaBoth(c, PromptSteps(), s, u, t);
    } else {
      t := s;
      ViaNothing(c, PromptSteps(), s);
    }
  }

  /** From any state before the deadline the graceful phase can finish: with peers that answer and end their streams the
      server returns without having forced or aborted anything. */
  lemma ShutdownCanBeGraceful(c: Config, s: State) returns (t: State)
    requires Reachable(c, s) && BeforeDeadline(s.ctl.main)
    ensures RunsVia(c, PromptSteps(), s, t) && t.ctl.main == Graceful && t.available == c.limits
    ensures forall i | i in t.procs && t.procs[i].Connected? :: t.procs[i].connection.outcome != Forced
  {
    ReachableIsInv(c, s);
    var u := Cancelled(c, s);
    var v := PromptDrains(c, u);
    t := QuiescentReturns(c, v);
    ViaBoth(c, PromptSteps(), s, u, v);
    ViaBoth(c, PromptSteps(), s, v, t);
    ViaReaches(c, PromptSteps(), s, t);
    QuiescentMeansReturned(c, t);
    forall i | i in t.procs && t.procs[i].Connected? ensures t.procs[i].connection.outcome != Forced {
      NothingStopsWithoutCause(c, t, i);
    }
  }
}

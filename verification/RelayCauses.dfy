/**
 Which events raise which counters: over any run, what the metrics say about how connections ended is what the network
 and the timers did to them.
 */
module RelayCauses {
  import opened Wrappers
  import opened Totals
  import opened RelayProtocol
  import opened RelayInvariant
  import opened RelayGuarantees

  // ---------------------------------------------------------------------------------------------
  // How connections end
  // ---------------------------------------------------------------------------------------------

  /** How many steps of a run were taken by a process in a state, and by a branch, that `q` holds of. */
  ghost function Tally(c: Config, s: State, actions: seq<Action>, q: (Proc, Choice) -> bool): nat
    requires Run(c, s, actions).Some?
    decreases |actions|
  {
    if actions == [] then 0
    else
      var a, rest := actions[0], Tally(c, Step(c, s, actions[0]).value, actions[1..], q);
      if a.ProcSteps? && q(s.procs[a.who], a.choice) then 1 + rest else rest
  }

  lemma {:induction false} TallyAdds(
      c: Config, s: State, actions: seq<Action>, q1: (Proc, Choice) -> bool, q2: (Proc, Choice) -> bool,
      q: (Proc, Choice) -> bool)
    requires Run(c, s, actions).Some?
    requires forall p, choice :: Indicator(q(p, choice)) == Indicator(q1(p, choice)) + Indicator(q2(p, choice))
    ensures Tally(c, s, actions, q) == Tally(c, s, actions, q1) + Tally(c, s, actions, q2)
    decreases |actions|
  {
    if actions == [] {
    } else {
      TallyAdds(c, Step(c, s, actions[0]).value, actions[1..], q1, q2, q);
    }
  }

  lemma {:induction false} TallyOfNone(c: Config, s: State, actions: seq<Action>, q: (Proc, Choice) -> bool)
    requires Run(c, s, actions).Some? && forall p, choice :: !q(p, choice)
    ensures Tally(c, s, actions, q) == 0
    decreases |actions|
  {
    if actions == [] {
    } else {
      TallyOfNone(c, Step(c, s, actions[0]).value, actions[1..], q);
    }
  }

  function IsChoice(r: nat, choice: Choice): (Proc, Choice) -> bool {
    (p, taken) => RelayOf(p) == r && taken == choice
  }

  /** How often in a run a process of relay `r` took this branch. */
  ghost function Taken(c: Config, s: State, actions: seq<Action>, r: nat, choice: Choice): nat
    requires Run(c, s, actions).Some?
  {
    Tally(c, s, actions, IsChoice(r, choice))
  }

  /** The outcome that a branch fixes. */
  function OutcomeOf(choice: Choice): Outcome {
    match choice
    case ForceWins => Forced
    case ConnectError => ConnectFailed
    case ConnectTimeout => ConnectTimedOut
    case IdleExpires => IdleTimedOut
    case JoinError(timedOut) => if timedOut then IdleTimedOut else TransferFailed
    case JoinOk => Completed
    case _ => Undecided
  }

  /** A connection of relay `r` that ended this way, whether it is counted already or about to be. */
  predicate EndedAs(p: Proc, r: nat, o: Outcome) {
    p.Connected? && p.connection.relay == r && p.connection.outcome == o
  }

  ghost function Ends(r: nat, o: Outcome): Proc -> int {
    (p: Proc) => Indicator(EndedAs(p, r, o))
  }

  function LeadsTo(r: nat, o: Outcome): (Proc, Choice) -> bool {
    (p, choice) => RelayOf(p) == r && OutcomeOf(choice) == o
  }

  ghost function TakenTo(c: Config, s: State, actions: seq<Action>, r: nat, o: Outcome): nat
    requires Run(c, s, actions).Some?
  {
    Tally(c, s, actions, LeadsTo(r, o))
  }

  lemma ConnectionEnds(c: Config, s: State, k: Connection, choice: Choice, r: nat, o: Outcome)
    requires OutcomeOk(k) && o != Undecided && ConnectionStep(c, s, k, choice).Some?
    ensures Indicator(EndedAs(Connected(ConnectionStep(c, s, k, choice).value.next), r, o)) ==
            Indicator(EndedAs(Connected(k), r, o)) + Indicator(OutcomeOf(choice) == o && k.relay == r)
  {
  }

  lemma EffectEnds(c: Config, s: State, p: Proc, choice: Choice, r: nat, o: Outcome)
    requires ProcOk(c, p) && o != Undecided && ProcEffect(c, s, p, choice).Some?
    ensures var e := ProcEffect(c, s, p, choice).value;
            Ends(r, o)(e.next) + (if e.child.Some? then Ends(r, o)(Connected(e.child.value.connection)) else 0) ==
            Ends(r, o)(p) + Indicator(OutcomeOf(choice) == o && RelayOf(p) == r)
  {
    if p.Connected? {
      ConnectionEnds(c, s, p.connection, choice, r, o);
    }
  }

  lemma StepEnds(c: Config, s: State, who: ProcId, choice: Choice, r: nat, o: Outcome)
    requires Inv(c, s) && o != Undecided && who in s.procs && ProcEffect(c, s, s.procs[who], choice).Some?
    ensures Sum(WithEffect(s, who, ProcEffect(c, s, s.procs[who], choice).value).procs, Ends(r, o)) ==
            Sum(s.procs, Ends(r, o)) + Indicator(OutcomeOf(choice) == o && RelayOf(s.procs[who]) == r)
  {
    var p := s.procs[who];
    var e := ProcEffect(c, s, p, choice).value;
    assert ProcOk(c, p);
    StepsAreLawful(c, s, p, choice);
    EffectEnds(c, s, p, choice, r, o);
    SpawnAdds(s.procs, who, e.next, e.child, Ends(r, o));
  }

  lemma {:induction false} RunEnds(c: Config, s: State, actions: seq<Action>, r: nat, o: Outcome)
    requires Inv(c, s) && o != Undecided && Run(c, s, actions).Some?
    ensures Sum(Run(c, s, actions).value.procs, Ends(r, o)) == Sum(s.procs, Ends(r, o)) + TakenTo(c, s, actions, r, o)
    decreases |actions|
  {
    if actions == [] {
    } else {
      StepKeepsInv(c, s, actions[0]);
      if actions[0].ProcSteps? {
        StepEnds(c, s, actions[0].who, actions[0].choice, r, o);
      }
      RunEnds(c, Step(c, s, actions[0]).value, actions[1..], r, o);
    }
  }

  ghost function ConnectionsEndedAs(s: State, r: nat, o: Outcome): set<ProcId> {
    set i | i in s.procs && EndedAs(s.procs[i], r, o)
  }

  /** The branches that lead to an outcome are taken once for every connection that has it. */
  lemma OutcomesCountBranches(c: Config, actions: seq<Action>, r: nat, o: Outcome)
    requires Run(c, Init(c), actions).Some? && o != Undecided
    ensures |ConnectionsEndedAs(Run(c, Init(c), actions).value, r, o)| == TakenTo(c, Init(c), actions, r, o)
  {
    var s := Run(c, Init(c), actions).value;
    InitIsInv(c);
    SumZero(Init(c).procs, Ends(r, o));
    RunEnds(c, Init(c), actions, r, o);
    SumCounts(s.procs, Ends(r, o), ConnectionsEndedAs(s, r, o));
  }

  /** The connections that ended this way and have not raised their counter yet. */
  ghost function Counting(s: State, r: nat, o: Outcome, pc: ConnectionPc): set<ProcId> {
    set i | i in ConnectionsEndedAs(s, r, o) && s.procs[i].connection.pc == pc
  }

  /** A failure counter, and the connections about to raise it, are the connections that ended so. */
  lemma CountedOrCounting(c: Config, s: State, r: nat, m: Metric, o: Outcome, pc: ConnectionPc)
    requires Reachable(c, s)
    requires (m, o, pc) in {(ConnectFailures, ConnectFailed, CountingFailure),
                            (ConnectTimeouts, ConnectTimedOut, CountingTimeout),
                            (IdleTimeouts, IdleTimedOut, CountingIdle)}
    ensures Metered(s, m, r) + |Counting(s, r, o, pc)| == |ConnectionsEndedAs(s, r, o)|
  {
    var counting: Proc -> int := (p: Proc) => Indicator(EndedAs(p, r, o) && p.connection.pc == pc);
    GaugeReads(c, s, Level(m, r));
    forall i | i in s.procs
      ensures Ends(r, o)(s.procs[i]) == WeightOf(Level(m, r))(s.procs[i]) + counting(s.procs[i])
    {
      CountsItsOutcome(s.procs[i], r, m, o, pc);
    }
    SumAdds(s.procs, WeightOf(Level(m, r)), counting, Ends(r, o));
    SumCounts(s.procs, counting, Counting(s, r, o, pc));
    SumCounts(s.procs, Ends(r, o), ConnectionsEndedAs(s, r, o));
  }

  lemma CountsItsOutcome(p: Proc, r: nat, m: Metric, o: Outcome, pc: ConnectionPc)
    requires (m, o, pc) in {(ConnectFailures, ConnectFailed, CountingFailure),
                            (ConnectTimeouts, ConnectTimedOut, CountingTimeout),
                            (IdleTimeouts, IdleTimedOut, CountingIdle)}
    ensures Indicator(EndedAs(p, r, o)) ==
            Weight(Level(m, r), p) + Indicator(EndedAs(p, r, o) && p.connection.pc == pc)
  {
  }

  lemma BranchesOfOutcomes(choice: Choice)
    ensures OutcomeOf(choice) == ConnectFailed <==> choice == ConnectError
    ensures OutcomeOf(choice) == ConnectTimedOut <==> choice == ConnectTimeout
    ensures OutcomeOf(choice) == IdleTimedOut <==> choice == IdleExpires || choice == JoinError(true)
  {
  }

  lemma TakenToIsTaken(c: Config, s: State, actions: seq<Action>, r: nat)
    requires Run(c, s, actions).Some?
    ensures TakenTo(c, s, actions, r, ConnectFailed) == Taken(c, s, actions, r, ConnectError)
    ensures TakenTo(c, s, actions, r, ConnectTimedOut) == Taken(c, s, actions, r, ConnectTimeout)
    ensures TakenTo(c, s, actions, r, IdleTimedOut) ==
            Taken(c, s, actions, r, IdleExpires) + Taken(c, s, actions, r, JoinError(true))
  {
    var none: (Proc, Choice) -> bool := (p, choice) => false;
    forall choice: Choice
      ensures OutcomeOf(choice) == ConnectFailed <==> choice == ConnectError
      ensures OutcomeOf(choice) == ConnectTimedOut <==> choice == ConnectTimeout
      ensures OutcomeOf(choice) == IdleTimedOut <==> choice == IdleExpires || choice == JoinError(true)
    {
      BranchesOfOutcomes(choice);
    }
    TallyOfNone(c, s, actions, none);
    TallyAdds(c, s, actions, IsChoice(r, ConnectError), none, LeadsTo(r, ConnectFailed));
    TallyAdds(c, s, actions, IsChoice(r, ConnectTimeout), none, LeadsTo(r, ConnectTimedOut));
    TallyAdds(c, s, actions, IsChoice(r, IdleExpires), IsChoice(r, JoinError(true)), LeadsTo(r, IdleTimedOut));
  }

  /** Over any run the upstream failures counted, and about to be counted, are the connects that failed, and the
      upstream timeouts those that timed out. */
  lemma ConnectCountersCountConnects(c: Config, actions: seq<Action>, r: nat)
    requires Run(c, Init(c), actions).Some?
    ensures var s := Run(c, Init(c), actions).value;
            && Metered(s, ConnectFailures, r) + |Counting(s, r, ConnectFailed, CountingFailure)| ==
               Taken(c, Init(c), actions, r, ConnectError)
            && Metered(s, ConnectTimeouts, r) + |Counting(s, r, ConnectTimedOut, CountingTimeout)| ==
               Taken(c, Init(c), actions, r, ConnectTimeout)
  {
    var s := Run(c, Init(c), actions).value;
    assert Reachable(c, s);
    TakenToIsTaken(c, Init(c), actions, r);
    OutcomesCountBranches(c, actions, r, ConnectFailed);
    OutcomesCountBranches(c, actions, r, ConnectTimedOut);
    CountedOrCounting(c, s, r, ConnectFailures, ConnectFailed, CountingFailure);
    CountedOrCounting(c, s, r, ConnectTimeouts, ConnectTimedOut, CountingTimeout);
  }

  /** The idle timeouts counted, and about to be counted, are the expiries of the watchdog together with the errors that
      the system reports as timed out. */
  lemma IdleTimeoutsCountCauses(c: Config, actions: seq<Action>, r: nat)
    requires Run(c, Init(c), actions).Some?
    ensures var s := Run(c, Init(c), actions).value;
            Metered(s, IdleTimeouts, r) + |Counting(s, r, IdleTimedOut, CountingIdle)| ==
            Taken(c, Init(c), actions, r, IdleExpires) + Taken(c, Init(c), actions, r, JoinError(true))
  {
    var s := Run(c, Init(c), actions).value;
    assert Reachable(c, s);
    TakenToIsTaken(c, Init(c), actions, r);
    OutcomesCountBranches(c, actions, r, IdleTimedOut);
    CountedOrCounting(c, s, r, IdleTimeouts, IdleTimedOut, CountingIdle);
  }

  lemma {:induction false} NoExpiryUnlessConfigured(c: Config, s: State, actions: seq<Action>, r: nat)
    requires Run(c, s, actions).Some? && r !in c.idle
    ensures Taken(c, s, actions, r, IdleExpires) == 0
    decreases |actions|
  {
    if actions == [] {
    } else {
      NoExpiryUnlessConfigured(c, Step(c, s, actions[0]).value, actions[1..], r);
    }
  }

  ghost predicate NoneTimedOut(s: State, r: nat) {
    forall i | i in s.procs :: !EndedAs(s.procs[i], r, IdleTimedOut)
  }

  /** So for a relay without an idle timeout every one of them is such an error, and there are none exactly when no
      direction of one of its own connections failed with one. */
  lemma IdleTimeoutsWithoutWatchdog(c: Config, actions: seq<Action>, r: nat)
    requires Run(c, Init(c), actions).Some? && r !in c.idle
    ensures var s, errors := Run(c, Init(c), actions).value, Taken(c, Init(c), actions, r, JoinError(true));
            && Metered(s, IdleTimeouts, r) + |Counting(s, r, IdleTimedOut, CountingIdle)| == errors
            && (NoneTimedOut(s, r) <==> errors == 0)
  {
    var s := Run(c, Init(c), actions).value;
    IdleTimeoutsCountCauses(c, actions, r);
    NoExpiryUnlessConfigured(c, Init(c), actions, r);
    TakenToIsTaken(c, Init(c), actions, r);
    OutcomesCountBranches(c, actions, r, IdleTimedOut);
    var timedOut := ConnectionsEndedAs(s, r, IdleTimedOut);
    if i :| i in timedOut {
      assert |timedOut| > 0;
    }
  }

  /** Such errors are always possible: in any transfer one raises the counter, whatever is configured. */
  lemma SystemTimeoutCountsAsIdle(c: Config, s: State, id: nat)
    requires Reachable(c, s) && OfConnection(id) in s.procs && s.procs[OfConnection(id)].Connected?
    requires s.procs[OfConnection(id)].connection.pc == Transferring && !BothEnded(s.procs[OfConnection(id)].connection)
    ensures var r := RelayOf(s.procs[OfConnection(id)]);
            var t := Run(c, s, [ProcSteps(OfConnection(id), JoinError(true)), ProcSteps(OfConnection(id), Proceed)]);
            t.Some? && Metered(t.value, IdleTimeouts, r) == Metered(s, IdleTimeouts, r) + 1
  {
    var a, b := ProcSteps(OfConnection(id), JoinError(true)), ProcSteps(OfConnection(id), Proceed);
    var t := Step(c, s, a).value;
    var u := Step(c, t, b).value;
    assert Run(c, t, [b]) == Some(u);
    assert [a, b][1..] == [b];
    assert Run(c, s, [a, b]) == Some(u);
  }

  // ---------------------------------------------------------------------------------------------
  // How transfers start
  // ---------------------------------------------------------------------------------------------

  predicate ConnectionIsAt(s: State, id: nat, pc: ConnectionPc) {
    OfConnection(id) in s.procs && s.procs[OfConnection(id)].Connected? && s.procs[OfConnection(id)].connection.pc == pc
  }

  /** A transfer through kernel pipes starts once the connecting permits are back; one through buffers only once the
      pool has granted them. */
  lemma TransferStarts(c: Config, s: State, a: Action, id: nat)
    requires Inv(c, s) && Step(c, s, a).Some? && OfConnection(id) in s.procs
    requires !ConnectionIsAt(s, id, Transferring) && ConnectionIsAt(Step(c, s, a).value, id, Transferring)
    ensures a.ProcSteps? && a.who == OfConnection(id)
    ensures if RelayOf(s.procs[OfConnection(id)]) in c.spliced
            then a.choice == Proceed && ConnectionIsAt(s, id, DroppingRelayConnecting)
            else a.choice == BuffersGranted && ConnectionIsAt(s, id, WaitingForBuffers)
  {
    assert ProcOk(c, s.procs[OfConnection(id)]);
    if a.ProcSteps? {
      SomeoneElseStays(c, s, a, id);
      if a.who == OfConnection(id) {
        StartsOnlySo(c, s, s.procs[a.who].connection, a.choice);
      }
    }
  }

  /** A step of another process leaves a connection as it is. */
  lemma SomeoneElseStays(c: Config, s: State, a: Action, id: nat)
    requires Inv(c, s) && a.ProcSteps? && Step(c, s, a).Some? && OfConnection(id) in s.procs
    ensures a.who != OfConnection(id) ==>
              OfConnection(id) in Step(c, s, a).value.procs
              && Step(c, s, a).value.procs[OfConnection(id)] == s.procs[OfConnection(id)]
  {
    assert ProcOk(c, s.procs[a.who]);
    StepsAreLawful(c, s, s.procs[a.who], a.choice);
  }

  lemma StartsOnlySo(c: Config, s: State, k: Connection, choice: Choice)
    requires k.pc != Transferring && ConnectionStep(c, s, k, choice).Some?
    requires ConnectionStep(c, s, k, choice).value.next.pc == Transferring
    requires k.pc == WaitingForBuffers ==> k.relay !in c.spliced
    ensures if k.relay in c.spliced then choice == Proceed && k.pc == DroppingRelayConnecting
            else choice == BuffersGranted && k.pc == WaitingForBuffers
  {
  }

  // ---------------------------------------------------------------------------------------------
  // Backing off
  // ---------------------------------------------------------------------------------------------

  /** Where a listener is after so many accept errors and so many ends of a backoff. */
  predicate BackoffOk(pc: ListenerPc, errors: nat, fired: nat) {
    match pc
    case BackingOff => errors == fired + 1
    case Stopped => fired <= errors <= fired + 1
    case _ => errors == fired
  }

  lemma ListenerBacksOff(c: Config, s: State, l: Listener, choice: Choice, errors: nat, fired: nat)
    requires BackoffOk(l.pc, errors, fired) && ListenerStep(c, s, l, choice).Some?
    ensures BackoffOk(ListenerStep(c, s, l, choice).value.next.pc, errors + (if choice == AcceptError then 1 else 0),
                      fired + (if choice == TimerFires then 1 else 0))
  {
  }

  /** The listener waits out its backoff once for every accept error, unless it is stopped meanwhile. */
  ghost predicate BacksOff(s: State, r: nat, errors: nat, fired: nat) {
    && OfListener(r) in s.procs && s.procs[OfListener(r)].Listening?
    && BackoffOk(s.procs[OfListener(r)].listener.pc, errors, fired)
  }

  predicate Accepts(s: State, a: Action, r: nat, choice: Choice) {
    a.ProcSteps? && a.who in s.procs && IsChoice(r, choice)(s.procs[a.who], a.choice)
  }

  lemma StepBacksOff(c: Config, s: State, a: Action, r: nat, errors: nat, fired: nat)
    requires Inv(c, s) && BacksOff(s, r, errors, fired) && Step(c, s, a).Some?
    ensures BacksOff(Step(c, s, a).value, r, errors + (if Accepts(s, a, r, AcceptError) then 1 else 0),
                     fired + (if Accepts(s, a, r, TimerFires) then 1 else 0))
  {
    if a.ProcSteps? {
      var p := s.procs[a.who];
      assert ProcOk(c, p);
      if a.who == OfListener(r) {
        ListenerBacksOff(c, s, p.listener, a.choice, errors, fired);
      } else {
        OthersDoNotAccept(c, s, a, r);
      }
    }
  }

  lemma OthersDoNotAccept(c: Config, s: State, a: Action, r: nat)
    requires Inv(c, s) && a.ProcSteps? && Step(c, s, a).Some? && a.who != OfListener(r)
    ensures !Accepts(s, a, r, AcceptError) && !Accepts(s, a, r, TimerFires)
    ensures OfListener(r) in s.procs ==>
              OfListener(r) in Step(c, s, a).value.procs
              && Step(c, s, a).value.procs[OfListener(r)] == s.procs[OfListener(r)]
  {
    assert a.who.OfConnection? ==> s.procs[a.who].Connected?;
    assert a.who.OfListener? ==> RelayOf(s.procs[a.who]) == a.who.relay;
  }

  lemma {:induction false} RunBacksOff(c: Config, s: State, actions: seq<Action>, r: nat, errors: nat, fired: nat)
    requires Inv(c, s) && BacksOff(s, r, errors, fired) && Run(c, s, actions).Some?
    ensures BacksOff(Run(c, s, actions).value, r, errors + Taken(c, s, actions, r, AcceptError),
                     fired + Taken(c, s, actions, r, TimerFires))
    decreases |actions|
  {
    if actions == [] {
    } else {
      var a := actions[0];
      StepKeepsInv(c, s, a);
      StepBacksOff(c, s, a, r, errors, fired);
      RunBacksOff(c, Step(c, s, a).value, actions[1..], r, errors + (if Accepts(s, a, r, AcceptError) then 1 else 0),
                  fired + (if Accepts(s, a, r, TimerFires) then 1 else 0));
    }
  }

  /** A listener never accepts again after an error before its backoff is over. */
  lemma ErrorsAreBackedOff(c: Config, actions: seq<Action>, r: nat)
    requires Run(c, Init(c), actions).Some? && r < c.relays
    ensures BacksOff(Run(c, Init(c), actions).value, r,
                     Taken(c, Init(c), actions, r, AcceptError), Taken(c, Init(c), actions, r, TimerFires))
  {
    InitIsInv(c);
    RunBacksOff(c, Init(c), actions, r, 0, 0);
  }

  // ---------------------------------------------------------------------------------------------
  // Connection ids
  // ---------------------------------------------------------------------------------------------

  predicate HasId(p: Proc) {
    p.Connected? || PendingId(p).Some?
  }

  ghost function Ids(): Proc -> int {
    (p: Proc) => Indicator(HasId(p))
  }

  lemma EffectTakesId(c: Config, s: State, p: Proc, choice: Choice)
    requires ProcEffect(c, s, p, choice).Some?
    ensures var e := ProcEffect(c, s, p, choice).value;
            Ids()(e.next) + (if e.child.Some? then 1 else 0) == Ids()(p) + (if e.change == FetchId then 1 else 0)
  {
  }

  lemma StepTakesId(c: Config, s: State, a: Action)
    requires Inv(c, s) && Step(c, s, a).Some?
    ensures Step(c, s, a).value.nextId - Sum(Step(c, s, a).value.procs, Ids()) == s.nextId - Sum(s.procs, Ids())
  {
    if a.ProcSteps? {
      var e := ProcEffect(c, s, s.procs[a.who], a.choice).value;
      assert ProcOk(c, s.procs[a.who]);
      StepsAreLawful(c, s, s.procs[a.who], a.choice);
      EffectTakesId(c, s, s.procs[a.who], a.choice);
      SpawnAdds(s.procs, a.who, e.next, e.child, Ids());
    }
  }

  lemma {:induction false} RunTakesIds(c: Config, s: State, actions: seq<Action>)
    requires Inv(c, s) && Run(c, s, actions).Some?
    ensures var t := Run(c, s, actions).value; t.nextId - Sum(t.procs, Ids()) == s.nextId - Sum(s.procs, Ids())
    decreases |actions|
  {
    if actions == [] {
    } else {
      StepKeepsInv(c, s, actions[0]);
      StepTakesId(c, s, actions[0]);
      RunTakesIds(c, Step(c, s, actions[0]).value, actions[1..]);
    }
  }

  /** Ids start at one and none is skipped: as many were given out as connections were spawned or are about to be. */
  lemma IdsAreConsecutive(c: Config, s: State)
    requires Reachable(c, s)
    ensures s.nextId == 1 + |set i | i in s.procs && HasId(s.procs[i])|
  {
    var actions: seq<Action> :| Run(c, Init(c), actions) == Some(s);
    InitIsInv(c);
    SumZero(Init(c).procs, Ids());
    RunTakesIds(c, Init(c), actions);
    SumCounts(s.procs, Ids(), set i | i in s.procs && HasId(s.procs[i]));
  }
}

/**
 What the relay promises in every state it can reach, with any number of relays and connections.
 */
module RelayGuarantees {
  import opened Wrappers
  import opened Totals
  import opened RelayProtocol
  import opened RelayInvariant

  ghost predicate Reachable(c: Config, s: State) {
    exists actions: seq<Action> :: Run(c, Init(c), actions) == Some(s)
  }

  lemma ReachableIsInv(c: Config, s: State)
    requires Reachable(c, s)
    ensures Inv(c, s)
  {
    var actions: seq<Action> :| Run(c, Init(c), actions) == Some(s);
    InitIsInv(c);
    RunKeepsInv(c, Init(c), actions);
  }

  lemma {:induction false} RunsCompose(c: Config, s: State, first: seq<Action>, second: seq<Action>)
    requires Run(c, s, first).Some?
    ensures Run(c, s, first + second) == Run(c, Run(c, s, first).value, second)
    decreases |first|
  {
    if first == [] {
      assert first + second == second;
    } else {
      assert (first + second)[1..] == first[1..] + second;
      RunsCompose(c, Step(c, s, first[0]).value, first[1..], second);
    }
  }

  lemma StaysReachable(c: Config, s: State, actions: seq<Action>)
    requires Reachable(c, s) && Run(c, s, actions).Some?
    ensures Reachable(c, Run(c, s, actions).value)
  {
    var before: seq<Action> :| Run(c, Init(c), before) == Some(s);
    RunsCompose(c, Init(c), before, actions);
  }

  /** The parts of the invariant the guarantees use. */
  lemma GaugeReads(c: Config, s: State, g: Gauge)
    requires Reachable(c, s)
    ensures Reading(c, s, g) == Sum(s.procs, WeightOf(g))
    ensures s.available.Keys == c.limits.Keys
  {
    ReachableIsInv(c, s);
  }

  lemma LocalStateOk(c: Config, s: State, i: ProcId)
    requires Reachable(c, s) && i in s.procs
    ensures ProcOk(c, s.procs[i])
    ensures i.OfListener? ==> s.procs[i].Listening? && s.procs[i].listener.relay == i.relay
    ensures i.OfConnection? ==> s.procs[i].Connected?
  {
    ReachableIsInv(c, s);
  }

  // ---------------------------------------------------------------------------------------------
  // Permits
  // ---------------------------------------------------------------------------------------------

  ghost function Holders(s: State, x: Permit): set<ProcId> {
    set i | i in s.procs && x in PermitsOf(s.procs[i])
  }

  /** Available plus held is the configured capacity. */
  lemma PermitsConserved(c: Config, s: State, x: Permit)
    requires Reachable(c, s) && x in c.limits
    ensures x in s.available && s.available[x] + |Holders(s, x)| == c.limits[x]
  {
    GaugeReads(c, s, Held(x));
    SumCounts(s.procs, WeightOf(Held(x)), Holders(s, x));
  }

  /** A listener holds nothing where it can be suspended or aborted; a connection gives up its connecting permits
      before it forwards, keeps its connection permits until it is closed, and ends with none. */
  lemma WhoHoldsWhat(c: Config, s: State, i: ProcId)
    requires Reachable(c, s) && i in s.procs
    ensures s.procs[i].Listening?
            && s.procs[i].listener.pc in {Polling, PollingAccept, Suspended, BackingOff, Stopped} ==>
              PermitsOf(s.procs[i]) == {}
    ensures s.procs[i].Connected? && s.procs[i].connection.pc == Connecting ==>
              forall x | x in c.limits ::
                x in PermitsOf(s.procs[i]) <==>
                    x in {GlobalConnection, GlobalConnecting, RelayConnection(RelayOf(s.procs[i])),
                                                      RelayConnecting(RelayOf(s.procs[i]))}
    ensures s.procs[i].Connected? && s.procs[i].connection.pc in {WaitingForBuffers, Transferring} ==>
              forall x | x in c.limits ::
                x in PermitsOf(s.procs[i]) <==> x in {GlobalConnection, RelayConnection(RelayOf(s.procs[i]))}
    ensures s.procs[i].Connected? && s.procs[i].connection.pc == Finished ==> PermitsOf(s.procs[i]) == {}
    ensures PermitsOf(s.procs[i]) <= c.limits.Keys
  {
    LocalStateOk(c, s, i);
  }

  /** Connections, of all relays or of one, in the given part of their life. */
  ghost function LiveConnections(s: State, pcs: set<ConnectionPc>): set<ProcId> {
    set i | i in s.procs && s.procs[i].Connected? && s.procs[i].connection.pc in pcs
  }

  ghost function LiveConnectionsOf(s: State, r: nat, pcs: set<ConnectionPc>): set<ProcId> {
    set i | i in LiveConnections(s, pcs) && RelayOf(s.procs[i]) == r
  }

  lemma SmallerSet<T>(a: set<T>, b: set<T>)
    requires a <= b
    ensures |a| <= |b|
    ensures |a| == |b| ==> a == b
  {
    assert b == a + (b - a);
  }

  lemma HoldersBounded(c: Config, s: State, x: Permit, holders: set<ProcId>)
    requires Reachable(c, s) && x in c.limits && holders <= Holders(s, x)
    ensures |holders| <= c.limits[x]
  {
    PermitsConserved(c, s, x);
    SmallerSet(holders, Holders(s, x));
  }

  /** The limits a client sees: upstream connects in progress never exceed `max_connecting`, neither those of a relay
      nor those of all relays together, and connects, waits for buffers and transfers never exceed `max_connections`. */
  lemma LiveConnectionsBounded(c: Config, s: State, r: nat)
    requires Reachable(c, s)
    ensures RelayConnecting(r) in c.limits ==>
              |LiveConnectionsOf(s, r, {Connecting})| <= c.limits[RelayConnecting(r)]
    ensures RelayConnection(r) in c.limits ==>
              |LiveConnectionsOf(s, r, {Connecting, WaitingForBuffers, Transferring})| <= c.limits[RelayConnection(r)]
    ensures GlobalConnecting in c.limits ==> |LiveConnections(s, {Connecting})| <= c.limits[GlobalConnecting]
    ensures GlobalConnection in c.limits ==>
              |LiveConnections(s, {Connecting, WaitingForBuffers, Transferring})| <= c.limits[GlobalConnection]
  {
    forall x | x in c.limits
      ensures x.GlobalConnecting? ==> |LiveConnections(s, {Connecting})| <= c.limits[x]
      ensures x.GlobalConnection? ==> |LiveConnections(s, {Connecting, WaitingForBuffers, Transferring})| <= c.limits[x]
      ensures x == RelayConnecting(r) ==> |LiveConnectionsOf(s, r, {Connecting})| <= c.limits[x]
      ensures x == RelayConnection(r) ==>
                |LiveConnectionsOf(s, r, {Connecting, WaitingForBuffers, Transferring})| <= c.limits[x]
    {
      LiveConnectionsHold(c, s, x);
    }
  }

  lemma LiveConnectionsHold(c: Config, s: State, x: Permit)
    requires Reachable(c, s) && x in c.limits
    ensures var connecting := x.GlobalConnecting? || x.RelayConnecting?;
            var pcs := if connecting then {Connecting} else {Connecting, WaitingForBuffers, Transferring};
            |if x.GlobalConnecting? || x.GlobalConnection? then LiveConnections(s, pcs)
             else LiveConnectionsOf(s, x.relay, pcs)| <= c.limits[x]
  {
    var connecting := x.GlobalConnecting? || x.RelayConnecting?;
    var pcs := if connecting then {Connecting} else {Connecting, WaitingForBuffers, Transferring};
    var live := if x.GlobalConnecting? || x.GlobalConnection? then LiveConnections(s, pcs)
                else LiveConnectionsOf(s, x.relay, pcs);
    forall i | i in live ensures i in Holders(s, x) {
      WhoHoldsWhat(c, s, i);
    }
    HoldersBounded(c, s, x, live);
  }

  /** What is available is a function of who holds what: a detour that ends with the same holders, such as a
      listener that acquired some permits and rolled them back, has no effect on any semaphore. */
  lemma SameHoldersSameAvailability(c: Config, s: State, t: State)
    requires Reachable(c, s) && Reachable(c, t)
    requires forall x | x in c.limits :: Holders(s, x) == Holders(t, x)
    ensures s.available == t.available
  {
    GaugeReads(c, s, InHand(0));
    GaugeReads(c, t, InHand(0));
    forall x | x in c.limits ensures s.available[x] == t.available[x] {
      PermitsConserved(c, s, x);
      PermitsConserved(c, t, x);
    }
  }

  /** A client is refused at a stage exactly when that limit is configured and as many processes as it allows hold it.
      The holders of a global limit need not be connections: the listeners of other relays count while they are past
      that stage; see `ExhaustedByConnectionsIff`. */
  lemma RefusedIffExhausted(c: Config, s: State, r: nat, k: nat)
    requires Reachable(c, s) && OfListener(r) in s.procs && k < 4
    requires s.procs[OfListener(r)].Listening? && s.procs[OfListener(r)].listener.pc == Acquiring(k)
    ensures var x := Ladder(r, k);
            var t := Step(c, s, ProcSteps(OfListener(r), Proceed));
            && t.Some? && OfListener(r) in t.value.procs && t.value.procs[OfListener(r)].Listening?
            && var pc := t.value.procs[OfListener(r)].listener.pc;
               pc == (if x in c.limits && |Holders(s, x)| == c.limits[x] then Rejecting(k) else Acquiring(k + 1))
  {
    LocalStateOk(c, s, OfListener(r));
    var x := Ladder(r, k);
    if x in c.limits {
      PermitsConserved(c, s, x);
    }
  }

  ghost function ConnectionHolders(s: State, x: Permit): set<ProcId> {
    set i | i in Holders(s, x) && s.procs[i].Connected?
  }

  /** The listener has passed stage `k` with the client in its hand, and has not rolled back to before it. */
  predicate PastRung(pc: ListenerPc, k: nat) {
    match pc
    case Acquiring(j) => j > k
    case Rejecting(j) => j > k
    case RollingBack(j) => j > k
    case FetchingId => true
    case CountingAccepted(_) => true
    case CountingActive(_) => true
    case Spawning(_) => true
    case _ => false
  }

  ghost predicate OtherListenerPast(s: State, r: nat, k: nat) {
    exists q: nat ::
      && q != r && OfListener(q) in s.procs && s.procs[OfListener(q)].Listening?
      && PastRung(s.procs[OfListener(q)].listener.pc, k)
  }

  /** A listener holds the permit that relay `r` needs at stage `k` exactly when it is past that stage, and, for the
      limits of the relay itself, is that relay's listener. */
  lemma ListenerHoldsIff(c: Config, l: Listener, r: nat, k: nat)
    requires ListenerOk(c, l) && k < 4 && Ladder(r, k) in c.limits
    ensures Ladder(r, k) in l.permits <==> PastRung(l.pc, k) && (k in {0, 2} || l.relay == r)
  {
  }

  /** A listener that finds a limit exhausted finds it exhausted by connections, unless the limit is a global one and
      the listener of another relay is past it. */
  lemma ExhaustedByConnectionsIff(c: Config, s: State, r: nat, k: nat)
    requires Reachable(c, s) && OfListener(r) in s.procs && k < 4
    requires s.procs[OfListener(r)].Listening? && s.procs[OfListener(r)].listener.pc == Acquiring(k)
    requires Ladder(r, k) in c.limits && |Holders(s, Ladder(r, k))| == c.limits[Ladder(r, k)]
    ensures |ConnectionHolders(s, Ladder(r, k))| == c.limits[Ladder(r, k)] <==>
            !(k in {0, 2} && OtherListenerPast(s, r, k))
  {
    var x := Ladder(r, k);
    SmallerSet(ConnectionHolders(s, x), Holders(s, x));
    forall i | i in s.procs && s.procs[i].Listening?
      ensures i.OfListener? && s.procs[i].listener.relay == i.relay
      ensures i in Holders(s, x) <==> i.relay != r && k in {0, 2} && PastRung(s.procs[i].listener.pc, k)
    {
      LocalStateOk(c, s, i);
      ListenerHoldsIff(c, s.procs[i].listener, r, k);
    }
    if !(k in {0, 2} && OtherListenerPast(s, r, k)) {
      assert ConnectionHolders(s, x) == Holders(s, x);
    } else {
      var q: nat :| q != r && OfListener(q) in s.procs && s.procs[OfListener(q)].Listening?
        && PastRung(s.procs[OfListener(q)].listener.pc, k);
      assert OfListener(q) in Holders(s, x) && OfListener(q) !in ConnectionHolders(s, x);
    }
  }

  /** So a refusal by a limit of the relay itself, and any refusal by a server with one relay, does mean that as many
      connections hold the limit as it allows. */
  lemma ExhaustedByConnections(c: Config, s: State, r: nat, k: nat)
    requires Reachable(c, s) && OfListener(r) in s.procs && k < 4
    requires s.procs[OfListener(r)].Listening? && s.procs[OfListener(r)].listener.pc == Acquiring(k)
    requires Ladder(r, k) in c.limits && |Holders(s, Ladder(r, k))| == c.limits[Ladder(r, k)]
    requires k in {1, 3} || c.relays == 1
    ensures |ConnectionHolders(s, Ladder(r, k))| == c.limits[Ladder(r, k)]
  {
    ExhaustedByConnectionsIff(c, s, r, k);
    LocalStateOk(c, s, OfListener(r));
    forall q: nat | OfListener(q) in s.procs ensures q < c.relays {
      LocalStateOk(c, s, OfListener(q));
    }
  }

  /** Connection ids are never shared: a task is spawned under an id no task ever had and no other listener has
      fetched. */
  lemma SpawnsUnderFreshId(c: Config, s: State, who: ProcId, choice: Choice)
    requires Reachable(c, s) && who in s.procs && ProcEffect(c, s, s.procs[who], choice).Some?
    requires ProcEffect(c, s, s.procs[who], choice).value.child.Some?
    ensures var id := ProcEffect(c, s, s.procs[who], choice).value.child.value.id;
            && OfConnection(id) !in s.procs
            && forall i | i in s.procs && i != who :: PendingId(s.procs[i]) != Some(id)
  {
    ReachableIsInv(c, s);
    LocalStateOk(c, s, who);
    StepsAreLawful(c, s, s.procs[who], choice);
  }

  // ---------------------------------------------------------------------------------------------
  // Exported counters
  // ---------------------------------------------------------------------------------------------

  function Metered(s: State, m: Metric, r: nat): int {
    Read(s.counters, Reported(m, r))
  }

  /** The processes of relay `r` that have made the first of two paired updates and not the second. */
  predicate BetweenPairedUpdates(p: Proc) {
    match p case Listening(l) => l.pc.CountingActive? case Connected(k) => k.pc == CountingClosed
  }

  lemma AcceptedMinusActiveMinusClosed(c: Config, s: State, r: nat)
    requires Reachable(c, s)
    ensures Metered(s, Accepted, r) - Metered(s, Active, r) - Metered(s, Closed, r)
         == |set i | i in s.procs && RelayOf(s.procs[i]) == r && BetweenPairedUpdates(s.procs[i])|
  {
    var between: Proc -> int := p => Indicator(RelayOf(p) == r && BetweenPairedUpdates(p));
    var activeOrClosed: Proc -> int := p => Weight(Level(Active, r), p) + Weight(Level(Closed, r), p);
    GaugeReads(c, s, Level(Accepted, r));
    GaugeReads(c, s, Level(Active, r));
    GaugeReads(c, s, Level(Closed, r));
    SumAdds(s.procs, WeightOf(Level(Active, r)), WeightOf(Level(Closed, r)), activeOrClosed);
    SumAdds(s.procs, activeOrClosed, between, WeightOf(Level(Accepted, r)));
    SumCounts(s.procs, between, set i | i in s.procs && RelayOf(s.procs[i]) == r && BetweenPairedUpdates(s.procs[i]));
  }

  /** The gauge is positive whenever a connection is about to decrement it, so the unsigned counter cannot wrap. */
  lemma ActiveNeverUnderflows(c: Config, s: State, i: ProcId)
    requires Reachable(c, s) && i in s.procs && CountedActive(s.procs[i])
    ensures Metered(s, Active, RelayOf(s.procs[i])) >= 1
  {
    var g := Level(Active, RelayOf(s.procs[i]));
    GaugeReads(c, s, g);
    SumDominates(s.procs, WeightOf(g), i);
  }

  /** Whoever counts as active holds the connection permits of its relay. */
  lemma ActiveHoldsConnectionPermits(c: Config, s: State, i: ProcId, x: Permit)
    requires Reachable(c, s) && i in s.procs && CountedActive(s.procs[i])
    requires x in c.limits && x in {GlobalConnection, RelayConnection(RelayOf(s.procs[i]))}
    ensures x in PermitsOf(s.procs[i])
  {
    LocalStateOk(c, s, i);
  }

  lemma RelayGaugeBounded(c: Config, s: State, r: nat)
    requires Reachable(c, s) && RelayConnection(r) in c.limits
    ensures 0 <= Metered(s, Active, r) <= c.limits[RelayConnection(r)]
  {
    GaugeReads(c, s, Level(Active, r));
    GaugeReads(c, s, Held(RelayConnection(r)));
    PermitsConserved(c, s, RelayConnection(r));
    forall i | i in s.procs
      ensures 0 <= WeightOf(Level(Active, r))(s.procs[i]) <= WeightOf(Held(RelayConnection(r)))(s.procs[i])
    {
      if CountedActive(s.procs[i]) && RelayOf(s.procs[i]) == r {
        ActiveHoldsConnectionPermits(c, s, i, RelayConnection(r));
      }
    }
    SumMonotone(s.procs, WeightOf(Level(Active, r)), WeightOf(Held(RelayConnection(r))));
    SumZero(s.procs, (p: Proc) => 0);
    SumMonotone(s.procs, (p: Proc) => 0, WeightOf(Level(Active, r)));
  }

  /** The gauges of the first `n` relays together. */
  function TotalActive(s: State, n: nat): int {
    if n == 0 then 0 else TotalActive(s, n - 1) + Metered(s, Active, n - 1)
  }

  lemma {:induction false} TotalActiveCounts(c: Config, s: State, n: nat)
    requires Reachable(c, s)
    ensures TotalActive(s, n) == Sum(s.procs, (p: Proc) => Indicator(CountedActive(p) && RelayOf(p) < n))
  {
    var below: Proc -> int := p => Indicator(CountedActive(p) && RelayOf(p) < n);
    if n == 0 {
      SumZero(s.procs, below);
    } else {
      var before: Proc -> int := p => Indicator(CountedActive(p) && RelayOf(p) < n - 1);
      TotalActiveCounts(c, s, n - 1);
      GaugeReads(c, s, Level(Active, n - 1));
      SumAdds(s.procs, before, WeightOf(Level(Active, n - 1)), below);
    }
  }

  /** The gauges of all relays together never exceed the global limit. */
  lemma GlobalGaugeBounded(c: Config, s: State)
    requires Reachable(c, s) && GlobalConnection in c.limits
    ensures TotalActive(s, c.relays) <= c.limits[GlobalConnection]
  {
    var below: Proc -> int := p => Indicator(CountedActive(p) && RelayOf(p) < c.relays);
    TotalActiveCounts(c, s, c.relays);
    GaugeReads(c, s, Held(GlobalConnection));
    PermitsConserved(c, s, GlobalConnection);
    forall i | i in s.procs ensures below(s.procs[i]) <= WeightOf(Held(GlobalConnection))(s.procs[i]) {
      if CountedActive(s.procs[i]) {
        ActiveHoldsConnectionPermits(c, s, i, GlobalConnection);
      }
    }
    SumMonotone(s.procs, below, WeightOf(Held(GlobalConnection)));
  }

  /** Every client the listener was given is rejected, accepted, in the listener's hand, or dropped at shutdown. */
  lemma EveryClientAccountedFor(c: Config, s: State, r: nat)
    requires Reachable(c, s)
    ensures Read(s.counters, Tallied(Offered, r))
         == Metered(s, Accepted, r) + Read(s.counters, Tallied(Rejected, r))
             + Read(s.counters, Tallied(DroppedAtShutdown, r))
            + |set i | i in s.procs && s.procs[i].Listening? && s.procs[i].listener.relay == r
                && ClientInHand(s.procs[i].listener.pc)|
  {
    GaugeReads(c, s, InHand(r));
    SumCounts(s.procs, WeightOf(InHand(r)),
              set i | i in s.procs && s.procs[i].Listening? && s.procs[i].listener.relay == r
                  && ClientInHand(s.procs[i].listener.pc));
  }

  // ---------------------------------------------------------------------------------------------
  // Outcomes and bytes
  // ---------------------------------------------------------------------------------------------

  /** The connection of relay `r` reached the end of both streams, and the length of this one was recorded. */
  predicate RecordedTransfer(p: Proc, r: nat, upward: bool) {
    p.Connected? && p.connection.relay == r && BothEnded(p.connection)
    && StepsLeft(p.connection.pc) <= (if upward then 6 else 5)
  }

  function FlowOf(k: Connection, upward: bool): Flow {
    if upward then k.up else k.down
  }

  ghost function Delivered(r: nat, upward: bool): Proc -> int {
    (p: Proc) => if p.Connected? && p.connection.relay == r then FlowOf(p.connection, upward).delivered else 0
  }

  ghost function StreamLength(r: nat, upward: bool): Proc -> int {
    (p: Proc) => if RecordedTransfer(p, r, upward) then FlowOf(p.connection, upward).delivered else 0
  }

  function ByteCounter(upward: bool): Metric {
    if upward then BytesUp else BytesDown
  }

  /** Each byte counter is the sum of what that direction had delivered at its end, over exactly the connections that
      have recorded it. */
  lemma ByteCountersSumStreams(c: Config, s: State, r: nat, upward: bool)
    requires Reachable(c, s)
    ensures Metered(s, ByteCounter(upward), r) == Sum(s.procs, StreamLength(r, upward))
  {
    var g := Level(ByteCounter(upward), r);
    GaugeReads(c, s, g);
    SumMonotone(s.procs, WeightOf(g), StreamLength(r, upward));
    SumMonotone(s.procs, StreamLength(r, upward), WeightOf(g));
  }

  /** In any state they are a lower bound on what was delivered. */
  lemma ByteCountersAreLowerBounds(c: Config, s: State, r: nat, upward: bool)
    requires Reachable(c, s)
    ensures 0 <= Metered(s, ByteCounter(upward), r) <= Sum(s.procs, Delivered(r, upward))
  {
    var g := Level(ByteCounter(upward), r);
    GaugeReads(c, s, g);
    SumMonotone(s.procs, WeightOf(g), Delivered(r, upward));
    SumZero(s.procs, (p: Proc) => 0);
    SumMonotone(s.procs, (p: Proc) => 0, WeightOf(g));
  }

  predicate CountedAsFailure(p: Proc, r: nat) {
    p.Connected? && p.connection.relay == r && StepsLeft(p.connection.pc) <= 9 &&
    p.connection.outcome in {ConnectFailed, ConnectTimedOut, IdleTimedOut}
  }

  ghost function FailureWeight(r: nat): Proc -> int {
    (p: Proc) => Weight(Level(ConnectFailures, r), p) + Weight(Level(ConnectTimeouts, r), p)
        + Weight(Level(IdleTimeouts, r), p)
  }

  /** One connection raises at most one of the three failure counters, and then it adds no bytes. */
  lemma OneOutcomePerConnection(c: Config, p: Proc, r: nat)
    requires ProcOk(c, p)
    ensures FailureWeight(r)(p) == Indicator(CountedAsFailure(p, r)) <= Weight(Level(Accepted, r), p)
    ensures CountedAsFailure(p, r) ==> Weight(Level(BytesUp, r), p) == 0 && Weight(Level(BytesDown, r), p) == 0
  {
  }

  lemma FailureCountersCountConnections(c: Config, s: State, r: nat)
    requires Reachable(c, s)
    ensures Metered(s, ConnectFailures, r) + Metered(s, ConnectTimeouts, r) + Metered(s, IdleTimeouts, r)
         == |set i | i in s.procs && CountedAsFailure(s.procs[i], r)|
         <= Metered(s, Accepted, r)
  {
    var firstTwo: Proc -> int := p => Weight(Level(ConnectFailures, r), p) + Weight(Level(ConnectTimeouts, r), p);
    GaugeReads(c, s, Level(ConnectFailures, r));
    GaugeReads(c, s, Level(ConnectTimeouts, r));
    GaugeReads(c, s, Level(IdleTimeouts, r));
    GaugeReads(c, s, Level(Accepted, r));
    SumAdds(s.procs, WeightOf(Level(ConnectFailures, r)), WeightOf(Level(ConnectTimeouts, r)), firstTwo);
    SumAdds(s.procs, firstTwo, WeightOf(Level(IdleTimeouts, r)), FailureWeight(r));
    forall i | i in s.procs
      ensures FailureWeight(r)(s.procs[i]) == Indicator(CountedAsFailure(s.procs[i], r))
      ensures FailureWeight(r)(s.procs[i]) <= WeightOf(Level(Accepted, r))(s.procs[i])
    {
      LocalStateOk(c, s, i);
      OneOutcomePerConnection(c, s.procs[i], r);
    }
    SumCounts(s.procs, FailureWeight(r), set i | i in s.procs && CountedAsFailure(s.procs[i], r));
    SumMonotone(s.procs, FailureWeight(r), WeightOf(Level(Accepted, r)));
  }
}

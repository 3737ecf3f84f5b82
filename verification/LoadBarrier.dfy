/**
 The start barrier of the load clients: two counters and a `Notify` that stores at most one permit.

 Every client counts itself as connected or failed and then notifies; the main task reads the two counters one after
 the other and waits for a notification while they do not add up.  Each read, increment and notification is a step.
 */
module LoadBarrier {
  import opened Wrappers
  import opened Totals

  datatype Client =
    | Connecting
    | CountedConnected      // socket open, `connected_clients` incremented, not notified yet
    | CountedFailed
    | Holding               // notified, socket open, waiting for the start signal
    | GaveUp                // notified, no socket
    | Ended                 // got the start signal, went through its rounds, closed the socket

  datatype MainPc =
    | Reading                                   // top of the loop
    | ReadConnected(connected: nat)             // first counter read
    | Short(ready: nat)                         // both read, fewer than all
    | Parked(ready: nat)                        // waiting, no permit stored when it looked
    | Passed                                    // past the loop
    | Reported(connected: nat)                  // connected counter read again, payload phase not started
    | Started(connected: nat)

  datatype State = State(clients: map<nat, Client>, connected: nat, failed: nat, permit: bool, main: MainPc)

  datatype Action =
    | Connect(id: nat)
    | FailToConnect(id: nat)
    | Notify(id: nat)
    | End(id: nat)
    | MainReadsConnected
    | MainReadsFailed
    | MainWaits
    | MainReports
    | MainStarts

  /** All clients are spawned before the loop. */
  function Init(ids: set<nat>): State {
    State(map id | id in ids :: Connecting, 0, 0, false, Reading)
  }

  /** `notify_one`: a parked waiter is woken; otherwise one permit is stored, and a second is not. */
  function NotifyOne(s: State): State {
    if s.main.Parked? then s.(main := Reading) else s.(permit := true)
  }

  function Step(total: nat, s: State, a: Action): Option<State> {
    match a
    case Connect(id) =>
      if id in s.clients && s.clients[id] == Connecting
      then Some(s.(clients := s.clients[id := CountedConnected], connected := s.connected + 1)) else None
    case FailToConnect(id) =>
      if id in s.clients && s.clients[id] == Connecting
      then Some(s.(clients := s.clients[id := CountedFailed], failed := s.failed + 1)) else None
    case Notify(id) =>
      if id in s.clients && s.clients[id] == CountedConnected
          then Some(NotifyOne(s).(clients := s.clients[id := Holding]))
      else if id in s.clients && s.clients[id] == CountedFailed
          then Some(NotifyOne(s).(clients := s.clients[id := GaveUp]))
      else None
    case End(id) =>
      if id in s.clients && s.clients[id] == Holding && s.main.Started?
      then Some(s.(clients := s.clients[id := Ended])) else None
    case MainReadsConnected => if s.main == Reading then Some(s.(main := ReadConnected(s.connected))) else None
    case MainReadsFailed =>
      if !s.main.ReadConnected? then None
      else if s.main.connected + s.failed >= total then Some(s.(main := Passed))
      else Some(s.(main := Short(s.main.connected + s.failed)))
    case MainWaits =>
      if !s.main.Short? then None
      else if s.permit then Some(s.(permit := false, main := Reading))
      else Some(s.(main := Parked(s.main.ready)))
    case MainReports => if s.main == Passed then Some(s.(main := Reported(s.connected))) else None
    case MainStarts => if s.main.Reported? then Some(s.(main := Started(s.main.connected))) else None
  }

  function Run(total: nat, s: State, actions: seq<Action>): Option<State>
    decreases |actions|
  {
    if actions == [] then Some(s)
    else match Step(total, s, actions[0]) case None => None case Some(t) => Run(total, t, actions[1..])
  }

  predicate HasSocket(k: Client) { k == CountedConnected || k == Holding }

  predicate HasConnected(k: Client) { HasSocket(k) || k == Ended }

  predicate HasFailed(k: Client) { k == CountedFailed || k == GaveUp }

  predicate HasNotified(k: Client) { k == Holding || k == GaveUp || k == Ended }

  ghost function Connections(): Client -> int { (k: Client) => if HasConnected(k) then 1 else 0 }

  ghost function Failures(): Client -> int { (k: Client) => if HasFailed(k) then 1 else 0 }

  ghost function NotifiedConnections(): Client -> int { (k: Client) => if k == Holding || k == Ended then 1 else 0 }

  ghost function NotifiedFailures(): Client -> int { (k: Client) => if k == GaveUp then 1 else 0 }

  /** While no permit is stored, nothing was notified since the main task began to read: so what it read covers every
      client that has notified. */
  ghost predicate ReadsCoverNotified(total: nat, s: State) {
    var up, down := Sum(s.clients, NotifiedConnections()), Sum(s.clients, NotifiedFailures());
    match s.main
    case ReadConnected(c) => !s.permit ==> up <= c
    case Short(ready) => ready < total && (!s.permit ==> up + down <= ready)
    case Parked(ready) => ready < total && !s.permit && up + down <= ready
    case _ => true
  }

  ghost predicate NobodyEnded(s: State) {
    forall id | id in s.clients :: s.clients[id] != Ended
  }

  ghost predicate Inv(total: nat, s: State) {
    && |s.clients| == total
    && s.connected == Sum(s.clients, Connections())
    && s.failed == Sum(s.clients, Failures())
    && ReadsCoverNotified(total, s)
    && (!s.main.Started? ==> NobodyEnded(s))
    && (s.main.Passed? || s.main.Reported? || s.main.Started? ==> s.connected + s.failed >= total)
    && (s.main.ReadConnected? ==> s.main.connected <= s.connected)
    && (s.main.Reported? || s.main.Started? ==> s.main.connected == s.connected)
  }

  /** The client a step is about moves the four sums; the main task's steps move none. */
  lemma ClientStepMoves(s: State, t: State, id: nat, k: Client)
    requires id in s.clients && t.clients == s.clients[id := k]
    ensures |t.clients| == |s.clients|
    ensures Sum(t.clients, Connections()) ==
            Sum(s.clients, Connections()) + Connections()(k) - Connections()(s.clients[id])
    ensures Sum(t.clients, Failures()) == Sum(s.clients, Failures()) + Failures()(k) - Failures()(s.clients[id])
    ensures Sum(t.clients, NotifiedConnections()) ==
            Sum(s.clients, NotifiedConnections()) + NotifiedConnections()(k) - NotifiedConnections()(s.clients[id])
    ensures Sum(t.clients, NotifiedFailures()) ==
            Sum(s.clients, NotifiedFailures()) + NotifiedFailures()(k) - NotifiedFailures()(s.clients[id])
  {
    SumUpdate(s.clients, Connections(), id, k);
    SumUpdate(s.clients, Failures(), id, k);
    SumUpdate(s.clients, NotifiedConnections(), id, k);
    SumUpdate(s.clients, NotifiedFailures(), id, k);
    assert t.clients.Keys == s.clients.Keys;
    assert |t.clients.Keys| == |t.clients| && |s.clients.Keys| == |s.clients|;
  }

  /** Whoever has notified had counted itself before. */
  lemma NotifiedAfterCounting(s: State)
    ensures 0 <= Sum(s.clients, NotifiedConnections()) <= Sum(s.clients, Connections())
    ensures 0 <= Sum(s.clients, NotifiedFailures()) <= Sum(s.clients, Failures())
    ensures Sum(s.clients, Connections()) + Sum(s.clients, Failures()) <= |s.clients|
  {
    SumMonotone(s.clients, NotifiedConnections(), Connections());
    SumMonotone(s.clients, NotifiedFailures(), Failures());
    SumZero(s.clients, (k: Client) => 0);
    SumMonotone(s.clients, (k: Client) => 0, NotifiedConnections());
    SumMonotone(s.clients, (k: Client) => 0, NotifiedFailures());
    var counted: Client -> int := (k: Client) => Connections()(k) + Failures()(k);
    SumAdds(s.clients, Connections(), Failures(), counted);
    SumMonotone(s.clients, counted, (k: Client) => 1);
    SumCounts(s.clients, (k: Client) => 1, s.clients.Keys);
  }

  /** A client that is still connecting is missing from both counters. */
  lemma ConnectingIsMissing(s: State, id: nat)
    requires id in s.clients && s.clients[id] == Connecting
    ensures Sum(s.clients, Connections()) + Sum(s.clients, Failures()) < |s.clients|
  {
    var missing: Client -> int := (k: Client) => 1 - Connections()(k) - Failures()(k);
    var counted: Client -> int := (k: Client) => Connections()(k) + Failures()(k);
    SumAdds(s.clients, Connections(), Failures(), counted);
    SumAdds(s.clients, missing, counted, (k: Client) => 1);
    SumCounts(s.clients, (k: Client) => 1, s.clients.Keys);
    SumDominates(s.clients, missing, id);
  }

  lemma CountingKeepsInv(total: nat, s: State, a: Action)
    requires Inv(total, s) && (a.Connect? || a.FailToConnect?) && Step(total, s, a).Some?
    ensures Inv(total, Step(total, s, a).value)
  {
    var t := Step(total, s, a).value;
    ConnectingIsMissing(s, a.id);
    ClientStepMoves(s, t, a.id, t.clients[a.id]);
  }

  lemma NotifyKeepsInv(total: nat, s: State, id: nat)
    requires Inv(total, s) && Step(total, s, Notify(id)).Some?
    ensures Inv(total, Step(total, s, Notify(id)).value)
  {
    var t := Step(total, s, Notify(id)).value;
    ClientStepMoves(s, t, id, t.clients[id]);
  }

  lemma StepKeepsInv(total: nat, s: State, a: Action)
    requires Inv(total, s) && Step(total, s, a).Some?
    ensures Inv(total, Step(total, s, a).value)
  {
    match a {
      case Connect(_) => CountingKeepsInv(total, s, a);
      case FailToConnect(_) => CountingKeepsInv(total, s, a);
      case Notify(id) => NotifyKeepsInv(total, s, id);
      case End(id) => ClientStepMoves(s, Step(total, s, a).value, id, Ended);
      case _ =>
        NotifiedAfterCounting(s);
        assert Step(total, s, a).value.clients == s.clients;
    }
  }

  lemma {:induction false} RunKeepsInv(total: nat, s: State, actions: seq<Action>)
    requires Inv(total, s) && Run(total, s, actions).Some?
    ensures Inv(total, Run(total, s, actions).value)
    decreases |actions|
  {
    if actions == [] {
    } else {
      StepKeepsInv(total, s, actions[0]);
      RunKeepsInv(total, Step(total, s, actions[0]).value, actions[1..]);
    }
  }

  lemma ReachableIsInv(ids: set<nat>, actions: seq<Action>)
    requires Run(|ids|, Init(ids), actions).Some?
    ensures Inv(|ids|, Run(|ids|, Init(ids), actions).value)
  {
    var s := Init(ids);
    SumZero(s.clients, Connections());
    SumZero(s.clients, Failures());
    assert s.clients.Keys == ids;
    assert |s.clients.Keys| == |s.clients|;
    RunKeepsInv(|ids|, s, actions);
  }

  /** No wakeup is lost: while the main task is parked some client has still to notify it. */
  lemma ParkedMeansSomeoneWillNotify(ids: set<nat>, actions: seq<Action>)
    requires Run(|ids|, Init(ids), actions).Some? && Run(|ids|, Init(ids), actions).value.main.Parked?
    ensures var s := Run(|ids|, Init(ids), actions).value;
            exists id | id in s.clients :: !HasNotified(s.clients[id])
  {
    var s := Run(|ids|, Init(ids), actions).value;
    ReachableIsInv(ids, actions);
    if AllNotified(s) {
      EveryoneNotified(s);
    }
  }

  lemma EveryoneNotified(s: State)
    requires AllNotified(s)
    ensures Sum(s.clients, NotifiedConnections()) + Sum(s.clients, NotifiedFailures()) == |s.clients|
    ensures Sum(s.clients, Connections()) + Sum(s.clients, Failures()) == |s.clients|
  {
    var notified: Client -> int := (k: Client) => NotifiedConnections()(k) + NotifiedFailures()(k);
    SumAdds(s.clients, NotifiedConnections(), NotifiedFailures(), notified);
    SumCounts(s.clients, notified, s.clients.Keys);
    NotifiedAfterCounting(s);
  }

  ghost predicate AllNotified(s: State) {
    forall id | id in s.clients :: HasNotified(s.clients[id])
  }

  predicate BeforePass(m: MainPc) {
    m.Reading? || m.ReadConnected? || m.Short? || m.Parked?
  }

  /** Once all clients have notified, the main task is not parked and passes by its own steps, at most four. */
  lemma BarrierOpens(ids: set<nat>, actions: seq<Action>) returns (rest: seq<Action>)
    requires Run(|ids|, Init(ids), actions).Some?
    requires AllNotified(Run(|ids|, Init(ids), actions).value) && BeforePass(Run(|ids|, Init(ids), actions).value.main)
    ensures |rest| <= 4 && forall i | 0 <= i < |rest| :: rest[i] in {MainReadsConnected, MainReadsFailed, MainWaits}
    ensures var t := Run(|ids|, Run(|ids|, Init(ids), actions).value, rest); t.Some? && t.value.main == Passed
  {
    ReachableIsInv(ids, actions);
    rest := MainPasses(|ids|, Run(|ids|, Init(ids), actions).value);
  }

  lemma MainPasses(total: nat, s: State) returns (rest: seq<Action>)
    requires Inv(total, s) && AllNotified(s) && BeforePass(s.main)
    ensures |rest| <= 4 && forall i | 0 <= i < |rest| :: rest[i] in {MainReadsConnected, MainReadsFailed, MainWaits}
    ensures Run(total, s, rest).Some? && Run(total, s, rest).value.main == Passed
  {
    EveryoneNotified(s);
    NotifiedAfterCounting(s);
    if s.main == Reading {
      rest := ReadAndPass(s);
    } else if s.main.Short? {
      rest := WaitAndPass(s);
    } else if s.main.connected + s.failed >= total {
      rest := [MainReadsFailed];
      RunThen(total, s, MainReadsFailed, []);
    } else {
      var more := WaitAndPass(s.(main := Short(s.main.connected + s.failed)));
      rest := [MainReadsFailed] + more;
      RunThen(total, s, MainReadsFailed, more);
    }
  }

  lemma WaitAndPass(s: State) returns (rest: seq<Action>)
    requires s.main.Short? && s.permit && s.connected + s.failed >= |s.clients|
    ensures |rest| == 3 && rest[0] == MainWaits && rest[1] == MainReadsConnected && rest[2] == MainReadsFailed
    ensures Run(|s.clients|, s, rest).Some? && Run(|s.clients|, s, rest).value.main == Passed
  {
    var more := ReadAndPass(s.(permit := false, main := Reading));
    RunThen(|s.clients|, s, MainWaits, more);
    rest := [MainWaits] + more;
  }

  lemma RunThen(total: nat, s: State, a: Action, rest: seq<Action>)
    ensures Run(total, s, [a] + rest) == match Step(total, s, a) case None => None case Some(t) => Run(total, t, rest)
  {
    assert ([a] + rest)[1..] == rest;
  }

  lemma ReadAndPass(s: State) returns (rest: seq<Action>)
    requires s.main == Reading && s.connected + s.failed >= |s.clients|
    ensures rest == [MainReadsConnected] + [MainReadsFailed]
    ensures Run(|s.clients|, s, rest).Some? && Run(|s.clients|, s, rest).value.main == Passed
  {
    rest := [MainReadsConnected] + [MainReadsFailed];
    RunThen(|s.clients|, s, MainReadsConnected, [MainReadsFailed]);
    RunThen(|s.clients|, s.(main := ReadConnected(s.connected)), MainReadsFailed, []);
  }

  ghost function OpenSockets(s: State): set<nat> {
    set id | id in s.clients && HasSocket(s.clients[id])
  }

  /** When the barrier opens nobody is still connecting; the reported number is all clients less those that failed,
      and that many clients hold an open socket until the start signal. */
  lemma BarrierCounts(ids: set<nat>, actions: seq<Action>)
    requires Run(|ids|, Init(ids), actions).Some?
    ensures var s := Run(|ids|, Init(ids), actions).value;
            && (!s.main.Started? ==> |OpenSockets(s)| == s.connected)
            && (s.main.Passed? || s.main.Reported? || s.main.Started? ==>
                  s.connected == |ids| - s.failed && forall id | id in s.clients :: s.clients[id] != Connecting)
            && (s.main.Reported? || s.main.Started? ==> s.main.connected == s.connected)
  {
    var s := Run(|ids|, Init(ids), actions).value;
    ReachableIsInv(ids, actions);
    NotifiedAfterCounting(s);
    if !s.main.Started? {
      SumCounts(s.clients, Connections(), OpenSockets(s));
    }
    if s.main.Passed? || s.main.Reported? || s.main.Started? {
      forall id | id in s.clients ensures s.clients[id] != Connecting {
        if s.clients[id] == Connecting {
          ConnectingIsMissing(s, id);
        }
      }
    }
  }

  // ---------------------------------------------------------------------------------------------
  // The start signal comes
  // ---------------------------------------------------------------------------------------------

  lemma {:induction false} RunsCompose(total: nat, s: State, first: seq<Action>, second: seq<Action>)
    requires Run(total, s, first).Some?
    ensures Run(total, s, first + second) == Run(total, Run(total, s, first).value, second)
    decreases |first|
  {
    if first == [] {
      assert first + second == second;
    } else {
      assert (first + second)[1..] == first[1..] + second;
      RunsCompose(total, Step(total, s, first[0]).value, first[1..], second);
    }
  }

  ghost function ToGo(): Client -> int {
    (k: Client) => if k == Connecting then 2 else if k == CountedConnected || k == CountedFailed then 1 else 0
  }

  /** A client that has not notified yet takes its next step; `refused` says whose connects fail. */
  lemma OneGoesOn(total: nat, s: State, id: nat, refused: set<nat>) returns (a: Action, t: State)
    requires Inv(total, s) && BeforePass(s.main) && id in s.clients && !HasNotified(s.clients[id])
    ensures Step(total, s, a) == Some(t) && Inv(total, t) && BeforePass(t.main)
    ensures Sum(t.clients, ToGo()) < Sum(s.clients, ToGo())
  {
    a := if s.clients[id] != Connecting then Notify(id) else if id in refused then FailToConnect(id) else Connect(id);
    t := Step(total, s, a).value;
    StepKeepsInv(total, s, a);
    assert t.clients == s.clients[id := t.clients[id]];
    SumUpdate(s.clients, ToGo(), id, t.clients[id]);
  }

  lemma {:induction false} EveryoneNotifies(total: nat, s: State, refused: set<nat>) returns (actions: seq<Action>)
    requires Inv(total, s) && BeforePass(s.main)
    ensures Run(total, s, actions).Some?
    ensures var t := Run(total, s, actions).value; Inv(total, t) && AllNotified(t) && BeforePass(t.main)
    decreases Sum(s.clients, ToGo())
  {
    ToGoIsNat(s);
    if id :| id in s.clients && !HasNotified(s.clients[id]) {
      var a, t := OneGoesOn(total, s, id, refused);
      ToGoIsNat(t);
      var rest := EveryoneNotifies(total, t, refused);
      RunThen(total, s, a, rest);
      actions := [a] + rest;
    } else {
      actions := [];
    }
  }

  lemma ToGoIsNat(s: State)
    ensures Sum(s.clients, ToGo()) >= 0
  {
    SumZero(s.clients, (k: Client) => 0);
    SumMonotone(s.clients, (k: Client) => 0, ToGo());
  }

  /** From every state that is reached before the barrier opens there is a run to the start signal, whichever of the
      clients that are still connecting fail. */
  lemma StartSignalComes(ids: set<nat>, before: seq<Action>, refused: set<nat>) returns (actions: seq<Action>)
    requires Run(|ids|, Init(ids), before).Some? && BeforePass(Run(|ids|, Init(ids), before).value.main)
    ensures Run(|ids|, Init(ids), before + actions).Some? && Run(|ids|, Init(ids), before + actions).value.main.Started?
  {
    var s := Run(|ids|, Init(ids), before).value;
    ReachableIsInv(ids, before);
    var first := EveryoneNotifies(|ids|, s, refused);
    var t := Run(|ids|, s, first).value;
    var second := MainPasses(|ids|, t);
    var third := StartsPayload(|ids|, Run(|ids|, t, second).value);
    RunsCompose(|ids|, t, second, third);
    RunsCompose(|ids|, s, first, second + third);
    actions := first + (second + third);
    RunsCompose(|ids|, Init(ids), before, actions);
  }

  lemma StartsPayload(total: nat, s: State) returns (actions: seq<Action>)
    requires s.main == Passed
    ensures Run(total, s, actions).Some? && Run(total, s, actions).value.main.Started?
  {
    actions := [MainReports] + [MainStarts];
    RunThen(total, s, MainReports, [MainStarts]);
    RunThen(total, Step(total, s, MainReports).value, MainStarts, []);
    assert [MainStarts] + [] == [MainStarts];
  }

  ghost function SocketsOpen(s: State): int {
    Sum(s.clients, StillOpen())
  }

  ghost function StillOpen(): Client -> int {
    (k: Client) => if k == Holding then 1 else 0
  }

  /** After it, every client that waited for it can go through its rounds and close its socket. */
  lemma {:induction false} EveryoneEnds(total: nat, s: State) returns (actions: seq<Action>)
    requires s.main.Started?
    ensures Run(total, s, actions).Some?
    ensures forall id | id in Run(total, s, actions).value.clients ::
              Run(total, s, actions).value.clients[id] != Holding
    decreases SocketsOpen(s)
  {
    SumZero(s.clients, (k: Client) => 0);
    SumMonotone(s.clients, (k: Client) => 0, StillOpen());
    if id :| id in s.clients && s.clients[id] == Holding {
      var t := Step(total, s, End(id)).value;
      SumUpdate(s.clients, StillOpen(), id, Ended);
      SumMonotone(t.clients, (k: Client) => 0, StillOpen());
      SumZero(t.clients, (k: Client) => 0);
      var rest := EveryoneEnds(total, t);
      RunThen(total, s, End(id), rest);
      actions := [End(id)] + rest;
    } else {
      actions := [];
    }
  }
}

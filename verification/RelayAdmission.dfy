/**
 Admission of one client: the cascade of acquisitions with rollback as the listener executes it, and the proof that
 the step relation, when no other process interferes, does the same.
 */
module RelayAdmission {
  import opened Wrappers
  import opened RelayProtocol
  import opened RelayInvariant

  predicate Exhausted(available: map<Permit, nat>, x: Permit) {
    x in available && available[x] == 0
  }

  function Less(available: map<Permit, nat>, x: Permit): map<Permit, nat> {
    if x in available && available[x] > 0 then available[x := available[x] - 1] else available
  }

  function More(available: map<Permit, nat>, x: Permit): map<Permit, nat> {
    if x in available then available[x := available[x] + 1] else available
  }

  /** The climb from stage `k`: what is left in the semaphores at the top, or None when a limit is exhausted. */
  function Climb(available: map<Permit, nat>, r: nat, k: nat): Option<map<Permit, nat>>
    requires k <= 4
    decreases 4 - k
  {
    if k == 4 then Some(available)
    else if Exhausted(available, Ladder(r, k)) then None
    else Climb(Less(available, Ladder(r, k)), r, k + 1)
  }

  /** The way back from stage `k`. */
  function Unwind(available: map<Permit, nat>, r: nat, k: nat): map<Permit, nat>
    requires k <= 4
  {
    if k == 0 then available else Unwind(More(available, Ladder(r, k - 1)), r, k - 1)
  }

  lemma GivenBack(available: map<Permit, nat>, x: Permit)
    requires !Exhausted(available, x)
    ensures More(Less(available, x), x) == available
  {
  }

  /** Every limit a client of relay `r` runs into from stage `k` on, global or of the relay, has a permit left. */
  predicate CanClimb(available: map<Permit, nat>, r: nat, k: nat) {
    forall x | x in available && k <= Rung(r, x) < 4 :: available[x] > 0
  }

  /** One permit less of each of them, and every other semaphore as it was. */
  function Lowered(available: map<Permit, nat>, r: nat, k: nat): map<Permit, nat> {
    map x | x in available ::
      if k <= Rung(r, x) < 4 && available[x] > 0 then available[x] - 1 else available[x]
  }

  lemma RungOfLadder(r: nat, k: nat)
    requires k < 4
    ensures forall x :: Rung(r, x) == k <==> x == Ladder(r, k)
  {
  }

  lemma CanClimbOne(available: map<Permit, nat>, r: nat, k: nat)
    requires k < 4 && !Exhausted(available, Ladder(r, k))
    ensures CanClimb(available, r, k) <==> CanClimb(Less(available, Ladder(r, k)), r, k + 1)
  {
    RungOfLadder(r, k);
    var x, lower := Ladder(r, k), Less(available, Ladder(r, k));
    assert forall y | y != x :: (y in lower <==> y in available) && (y in available ==> lower[y] == available[y]);
  }

  lemma LoweredByOne(available: map<Permit, nat>, r: nat, k: nat)
    requires k < 4
    ensures Lowered(available, r, k) == Lowered(Less(available, Ladder(r, k)), r, k + 1)
  {
    RungOfLadder(r, k);
  }

  /** A client is admitted exactly when no limit is exhausted, and costs one permit of each. */
  lemma {:induction false} AdmittedIffNothingExhausted(available: map<Permit, nat>, r: nat, k: nat)
    requires k <= 4
    ensures Climb(available, r, k) == if CanClimb(available, r, k) then Some(Lowered(available, r, k)) else None
    decreases 4 - k
  {
    if k == 4 {
      assert Lowered(available, r, 4) == available;
    } else {
      RungOfLadder(r, k);
      if !Exhausted(available, Ladder(r, k)) {
        CanClimbOne(available, r, k);
        LoweredByOne(available, r, k);
        AdmittedIffNothingExhausted(Less(available, Ladder(r, k)), r, k + 1);
      }
    }
  }

  /** The semaphores of a server; a limit that is not configured has none. */
  class Semaphores {
    var available: map<Permit, nat>

    constructor (limits: map<Permit, nat>)
      ensures available == limits
    {
      available := limits;
    }

    /** `acquire_permit`: nothing to acquire, a permit, or a refusal. */
    method AcquirePermit(x: Permit) returns (ok: bool, owned: bool)
      modifies this
      ensures ok == !Exhausted(old(available), x)
      ensures owned == (ok && x in old(available))
      ensures available == Less(old(available), x) && available.Keys == old(available.Keys)
      ensures ok ==> More(available, x) == old(available)
    {
      if x !in available {
        return true, false;
      }
      if available[x] == 0 {
        return false, false;
      }
      available := available[x := available[x] - 1];
      return true, true;
    }

    method DropPermit(x: Permit, owned: bool)
      requires owned == (x in available)
      modifies this
      ensures available == More(old(available), x) && available.Keys == old(available.Keys)
    {
      if owned {
        available := available[x := available[x] + 1];
      }
    }
  }

  /** The four permits of a client, as `acquire_permit` returned them: false where there was nothing to acquire. */
  datatype Permits = Permits(global: bool, relay: bool, globalConnecting: bool, relayConnecting: bool)

  function ConfiguredPermits(available: map<Permit, nat>, r: nat): Permits {
    Permits(GlobalConnection in available, RelayConnection(r) in available,
            GlobalConnecting in available, RelayConnecting(r) in available)
  }

  /** The cascade of one client; a rejection, at whatever stage, gives back exactly what was taken. */
  method AdmitClient(semaphores: Semaphores, r: nat) returns (permits: Option<Permits>)
    modifies semaphores
    ensures permits.Some? <==> CanClimb(old(semaphores.available), r, 0)
    ensures permits.Some? ==> permits.value == ConfiguredPermits(semaphores.available, r)
    ensures semaphores.available ==
            if permits.Some? then Lowered(old(semaphores.available), r, 0) else old(semaphores.available)
  {
    AdmittedIffNothingExhausted(semaphores.available, r, 0);
    permits := AcquireInOrder(semaphores, r);
  }

  method AcquireInOrder(semaphores: Semaphores, r: nat) returns (permits: Option<Permits>)
    modifies semaphores
    ensures permits.Some? <==> Climb(old(semaphores.available), r, 0).Some?
    ensures permits.Some? ==> permits.value == ConfiguredPermits(semaphores.available, r)
    ensures semaphores.available ==
            if permits.Some? then Climb(old(semaphores.available), r, 0).value else old(semaphores.available)
    ensures semaphores.available.Keys == old(semaphores.available.Keys)
  {
    var globalOk, globalPermit := semaphores.AcquirePermit(GlobalConnection);
    if !globalOk {
      return None;
    }
    var relayOk, relayPermit := semaphores.AcquirePermit(RelayConnection(r));
    if !relayOk {
      semaphores.DropPermit(GlobalConnection, globalPermit);
      return None;
    }
    var globalConnectingOk, globalConnectingPermit := semaphores.AcquirePermit(GlobalConnecting);
    if !globalConnectingOk {
      semaphores.DropPermit(RelayConnection(r), relayPermit);
      semaphores.DropPermit(GlobalConnection, globalPermit);
      return None;
    }
    var relayConnectingOk, relayConnectingPermit := semaphores.AcquirePermit(RelayConnecting(r));
    if !relayConnectingOk {
      semaphores.DropPermit(GlobalConnecting, globalConnectingPermit);
      semaphores.DropPermit(RelayConnection(r), relayPermit);
      semaphores.DropPermit(GlobalConnection, globalPermit);
      return None;
    }
    return Some(Permits(globalPermit, relayPermit, globalConnectingPermit, relayConnectingPermit));
  }

  /** Giving back all four restores what they were acquired from. */
  lemma {:induction false} UnwindsClimb(available: map<Permit, nat>, r: nat, k: nat)
    requires k <= 4 && Climb(available, r, k).Some?
    ensures Unwind(Climb(available, r, k).value, r, 4) == Unwind(available, r, k)
    decreases 4 - k
  {
    if k == 4 {
    } else {
      GivenBack(available, Ladder(r, k));
      UnwindsClimb(Less(available, Ladder(r, k)), r, k + 1);
    }
  }

  // ---------------------------------------------------------------------------------------------
  // The step relation does the same
  // ---------------------------------------------------------------------------------------------

  /** Only the listener of relay `l.relay`, the semaphores and the rejections of that relay are not as in `s`. */
  function Moved(s: State, l: Listener, available: map<Permit, nat>, rejected: nat): State {
    s.(procs := s.procs[OfListener(l.relay) := Listening(l)],
       available := available,
       counters := if rejected == 0 then s.counters else
                     s.counters[Tallied(Rejected, l.relay) := Read(s.counters, Tallied(Rejected, l.relay)) + rejected])
  }

  lemma MovedAgain(s: State, l: Listener, available: map<Permit, nat>, rejected: nat,
                   next: Listener, nextAvailable: map<Permit, nat>, nextRejected: nat)
    requires next.relay == l.relay
    ensures Moved(Moved(s, l, available, rejected), next, nextAvailable, nextRejected)
         == Moved(s, next, nextAvailable, rejected + nextRejected)
  {
  }

  predicate At(c: Config, s: State, l: Listener) {
    && OfListener(l.relay) in s.procs && s.procs[OfListener(l.relay)] == Listening(l)
    && ListenerOk(c, l) && s.available.Keys == c.limits.Keys
  }

  /** The effect of one try-acquire. */
  function Tried(c: Config, s: State, l: Listener, k: nat): State
    requires k < 4
  {
    if Exhausted(s.available, Ladder(l.relay, k)) then Moved(s, l.(pc := Rejecting(k)), s.available, 0)
    else Moved(s, Listener(l.relay, Acquiring(k + 1), Stage(c, l.relay, k + 1)),
        Less(s.available, Ladder(l.relay, k)), 0)
  }

  lemma AcquiresOne(c: Config, s: State, l: Listener)
    requires At(c, s, l) && l.pc.Acquiring? && l.pc.stage < 4
    ensures StepsTo(c, s, Tried(c, s, l, l.pc.stage))
  {
    var k := l.pc.stage;
    StageGrows(c, l.relay, k);
    assert Ladder(l.relay, k) !in c.limits ==> Stage(c, l.relay, k + 1) == l.permits;
    assert Step(c, s, ProcSteps(OfListener(l.relay), Proceed)) == Some(Tried(c, s, l, k));
  }

  lemma ReachesTop(c: Config, s: State, l: Listener)
    requires At(c, s, l) && l.pc == Acquiring(4)
    ensures StepsTo(c, s, Moved(s, Listener(l.relay, FetchingId, Stage(c, l.relay, 4)), s.available, 0))
  {
    assert Step(c, s, ProcSteps(OfListener(l.relay), Proceed)) ==
           Some(Moved(s, Listener(l.relay, FetchingId, Stage(c, l.relay, 4)), s.available, 0));
  }

  lemma CountsRejection(c: Config, s: State, l: Listener)
    requires At(c, s, l) && l.pc.Rejecting?
    ensures StepsTo(c, s, Moved(s, l.(pc := RollingBack(l.pc.stage)), s.available, 1))
  {
    assert Step(c, s, ProcSteps(OfListener(l.relay), Proceed)) ==
           Some(Moved(s, l.(pc := RollingBack(l.pc.stage)), s.available, 1));
  }

  /** The effect of one drop of the rollback. */
  function Returned(c: Config, s: State, l: Listener, k: nat): State
    requires k <= 4
  {
    if k == 0 then Moved(s, Listener(l.relay, Polling, {}), s.available, 0)
    else Moved(s, Listener(l.relay, RollingBack(k - 1), Stage(c, l.relay, k - 1)),
        More(s.available, Ladder(l.relay, k - 1)), 0)
  }

  lemma ReturnsOne(c: Config, s: State, l: Listener)
    requires At(c, s, l) && l.pc.RollingBack?
    ensures StepsTo(c, s, Returned(c, s, l, l.pc.stage))
  {
    var k := l.pc.stage;
    StageGrows(c, l.relay, if k == 0 then 0 else k - 1);
    assert Step(c, s, ProcSteps(OfListener(l.relay), Proceed)) == Some(Returned(c, s, l, k));
  }

  lemma {:induction false} RollsBackAlone(c: Config, s: State, l: Listener)
    requires At(c, s, l) && l.pc.RollingBack?
    ensures RunsTo(c, s, Moved(s, Listener(l.relay, Polling, {}), Unwind(s.available, l.relay, l.pc.stage), 0))
    decreases l.pc.stage
  {
    var r, k := l.relay, l.pc.stage;
    var t := Returned(c, s, l, k);
    ReturnsOne(c, s, l);
    if k == 0 {
      RunsOne(c, s, t);
    } else {
      var back, lower := Listener(r, RollingBack(k - 1), Stage(c, r, k - 1)), More(s.available, Ladder(r, k - 1));
      RollsBackAlone(c, t, back);
      MovedAgain(s, back, lower, 0, Listener(r, Polling, {}), Unwind(lower, r, k - 1), 0);
      RunsOneMore(c, s, t, Moved(t, Listener(r, Polling, {}), Unwind(lower, r, k - 1), 0));
    }
  }

  lemma RefusedAlone(c: Config, s: State, l: Listener)
    requires At(c, s, l) && l.pc.Rejecting?
    ensures RunsTo(c, s, Moved(s, Listener(l.relay, Polling, {}), Unwind(s.available, l.relay, l.pc.stage), 1))
  {
    var t := Moved(s, l.(pc := RollingBack(l.pc.stage)), s.available, 1);
    CountsRejection(c, s, l);
    RollsBackAlone(c, t, l.(pc := RollingBack(l.pc.stage)));
    MovedAgain(s, l.(pc := RollingBack(l.pc.stage)), s.available, 1,
               Listener(l.relay, Polling, {}), Unwind(s.available, l.relay, l.pc.stage), 0);
    RunsOneMore(c, s, t, Moved(t, Listener(l.relay, Polling, {}), Unwind(s.available, l.relay, l.pc.stage), 0));
  }

  /** Where the listener of `l` is after the cascade, if nobody else moves. */
  function Settled(c: Config, s: State, l: Listener, k: nat): State
    requires k <= 4
  {
    match Climb(s.available, l.relay, k)
    case Some(top) => Moved(s, Listener(l.relay, FetchingId, Stage(c, l.relay, 4)), top, 0)
    case None => Moved(s, Listener(l.relay, Polling, {}), Unwind(s.available, l.relay, k), 1)
  }

  lemma SettlesAlike(c: Config, s: State, l: Listener, k: nat)
    requires k < 4 && !Exhausted(s.available, Ladder(l.relay, k))
    ensures Settled(c, Tried(c, s, l, k), Listener(l.relay, Acquiring(k + 1), Stage(c, l.relay, k + 1)), k + 1) ==
            Settled(c, s, l, k)
  {
    var x := Ladder(l.relay, k);
    var next, less := Listener(l.relay, Acquiring(k + 1), Stage(c, l.relay, k + 1)), Less(s.available, x);
    GivenBack(s.available, x);
    match Climb(less, l.relay, k + 1) {
      case Some(top) => MovedAgain(s, next, less, 0, Listener(l.relay, FetchingId, Stage(c, l.relay, 4)), top, 0);
      case None => MovedAgain(s, next, less, 0, Listener(l.relay, Polling, {}), Unwind(less, l.relay, k + 1), 1);
    }
  }

  lemma AcquiresThen(c: Config, s: State, l: Listener)
    requires At(c, s, l) && l.pc.Acquiring? && l.pc.stage < 4 && !Exhausted(s.available, Ladder(l.relay, l.pc.stage))
    requires var next := Listener(l.relay, Acquiring(l.pc.stage + 1), Stage(c, l.relay, l.pc.stage + 1));
             var t := Tried(c, s, l, l.pc.stage);
             RunsTo(c, t, Settled(c, t, next, l.pc.stage + 1))
    ensures RunsTo(c, s, Settled(c, s, l, l.pc.stage))
  {
    var next := Listener(l.relay, Acquiring(l.pc.stage + 1), Stage(c, l.relay, l.pc.stage + 1));
    var t := Tried(c, s, l, l.pc.stage);
    AcquiresOne(c, s, l);
    RunsOneMore(c, s, t, Settled(c, t, next, l.pc.stage + 1));
    SettlesAlike(c, s, l, l.pc.stage);
  }

  lemma FindsExhausted(c: Config, s: State, l: Listener)
    requires At(c, s, l) && l.pc.Acquiring? && l.pc.stage < 4 && Exhausted(s.available, Ladder(l.relay, l.pc.stage))
    ensures RunsTo(c, s, Moved(s, Listener(l.relay, Polling, {}), Unwind(s.available, l.relay, l.pc.stage), 1))
  {
    var rejecting := l.(pc := Rejecting(l.pc.stage));
    var t := Tried(c, s, l, l.pc.stage);
    AcquiresOne(c, s, l);
    IsRejecting(c, s, l, rejecting, t);
    RefusedAlone(c, t, rejecting);
    RunsOneMore(c, s, t, Moved(t, Listener(l.relay, Polling, {}), Unwind(t.available, l.relay, l.pc.stage), 1));
  }

  lemma IsRejecting(c: Config, s: State, l: Listener, rejecting: Listener, t: State)
    requires At(c, s, l) && l.pc.Acquiring? && l.pc.stage < 4 && rejecting == l.(pc := Rejecting(l.pc.stage))
    requires t == Moved(s, rejecting, s.available, 0)
    ensures At(c, t, rejecting) && t.available == s.available
    ensures var back, available := Listener(l.relay, Polling, {}), Unwind(s.available, l.relay, l.pc.stage);
            Moved(t, back, available, 1) == Moved(s, back, available, 1)
  {
    MovedAgain(s, rejecting, s.available, 0, Listener(l.relay, Polling, {}), Unwind(s.available, l.relay, l.pc.stage),
        1);
  }

  lemma TriedIsAt(c: Config, s: State, l: Listener)
    requires At(c, s, l) && l.pc.Acquiring? && l.pc.stage < 4 && !Exhausted(s.available, Ladder(l.relay, l.pc.stage))
    ensures At(c, Tried(c, s, l, l.pc.stage),
               Listener(l.relay, Acquiring(l.pc.stage + 1), Stage(c, l.relay, l.pc.stage + 1)))
  {
  }

  /** From any rung of the ladder: up to the top if every remaining limit has a permit, and otherwise all the way
      back. */
  lemma {:induction false} AcquiresAlone(c: Config, s: State, l: Listener)
    requires At(c, s, l) && l.pc.Acquiring?
    ensures RunsTo(c, s, Settled(c, s, l, l.pc.stage))
    decreases 4 - l.pc.stage
  {
    var r, k := l.relay, l.pc.stage;
    if k == 4 {
      ReachesTop(c, s, l);
      RunsOne(c, s, Settled(c, s, l, k));
    } else if Exhausted(s.available, Ladder(r, k)) {
      FindsExhausted(c, s, l);
    } else {
      TriedIsAt(c, s, l);
      AcquiresAlone(c, Tried(c, s, l, k), Listener(r, Acquiring(k + 1), Stage(c, r, k + 1)));
      AcquiresThen(c, s, l);
    }
  }

  /** The steps of a listener that is left alone have the effect of `AdmitClient`, and a refusal is counted once. */
  lemma StepsAdmitLikeTheMethod(c: Config, s: State, r: nat)
    requires Inv(c, s) && OfListener(r) in s.procs && s.procs[OfListener(r)] == Listening(Listener(r, Acquiring(0), {}))
    ensures RunsTo(c, s, if CanClimb(s.available, r, 0)
                         then Moved(s, Listener(r, FetchingId, Stage(c, r, 4)), Lowered(s.available, r, 0), 0)
                         else Moved(s, Listener(r, Polling, {}), s.available, 1))
  {
    AdmittedIffNothingExhausted(s.available, r, 0);
    AcquiresAlone(c, s, Listener(r, Acquiring(0), {}));
  }

  // ---------------------------------------------------------------------------------------------
  // Refused without a single connection
  // ---------------------------------------------------------------------------------------------

  /** The listener of relay `r` has been given a client and is about to try the first limit. */
  function HasClient(s: State, r: nat): State {
    s.(procs := s.procs[OfListener(r) := Listening(Listener(r, Acquiring(0), {}))],
       counters := ApplyToCounters(s.counters, Add(Tallied(Offered, r), 1)))
  }

  function WithListener(s: State, r: nat, pc: ListenerPc): State {
    s.(procs := s.procs[OfListener(r) := Listening(Listener(r, pc, {}))])
  }

  lemma WithListenerAgain(s: State, r: nat, pc: ListenerPc, next: ListenerPc)
    ensures WithListener(WithListener(s, r, pc), r, next) == WithListener(s, r, next)
    ensures HasClient(WithListener(s, r, pc), r) == HasClient(s, r)
  {
  }

  lemma GetsClient(c: Config, s: State, r: nat, u: State)
    requires OfListener(r) in s.procs && s.procs[OfListener(r)] == Listening(Listener(r, Polling, {}))
    requires !s.ctl.shutdown && RunsTo(c, HasClient(s, r), u)
    ensures RunsTo(c, s, u)
  {
    var s1 := WithListener(s, r, PollingAccept);
    assert Step(c, s, ProcSteps(OfListener(r), Proceed)) == Some(s1);
    AcceptsClient(c, s1, r);
    WithListenerAgain(s, r, PollingAccept, Acquiring(0));
    var s2 := WithListener(HasClient(s, r), r, CheckingShutdown);
    WithListenerAgain(HasClient(s, r), r, CheckingShutdown, Acquiring(0));
    assert WithListener(HasClient(s, r), r, Acquiring(0)) == HasClient(s, r);
    ChecksShutdown(c, s2, r);
    RunsOneMore(c, s2, HasClient(s, r), u);
    RunsOneMore(c, s1, s2, u);
    RunsOneMore(c, s, s1, u);
  }

  lemma AcceptsClient(c: Config, s: State, r: nat)
    requires OfListener(r) in s.procs && s.procs[OfListener(r)] == Listening(Listener(r, PollingAccept, {}))
    ensures StepsTo(c, s, WithListener(HasClient(s, r), r, CheckingShutdown))
  {
    WithListenerAgain(s, r, CheckingShutdown, CheckingShutdown);
    var t := WithListener(HasClient(s, r), r, CheckingShutdown);
    assert t.procs == s.procs[OfListener(r) := Listening(Listener(r, CheckingShutdown, {}))];
    assert Step(c, s, ProcSteps(OfListener(r), AcceptOk)) == Some(t);
  }

  lemma ChecksShutdown(c: Config, s: State, r: nat)
    requires OfListener(r) in s.procs && s.procs[OfListener(r)] == Listening(Listener(r, CheckingShutdown, {}))
    requires !s.ctl.shutdown
    ensures StepsTo(c, s, WithListener(s, r, Acquiring(0)))
  {
    assert Step(c, s, ProcSteps(OfListener(r), Proceed)) == Some(WithListener(s, r, Acquiring(0)));
  }

  /** A client can be refused while no connection exists at all: with a global limit of one, the listener of one relay
      holds the permit while it is still acquiring, and that of another finds the limit exhausted. */
  lemma RefusedWithoutConnections(c: Config) returns (s: State)
    requires c.relays >= 2 && GlobalConnection in c.limits && c.limits[GlobalConnection] == 1
    ensures RunsTo(c, Init(c), s)
    ensures OfListener(1) in s.procs && s.procs[OfListener(1)] == Listening(Listener(1, Rejecting(0), {}))
    ensures forall i | i in s.procs :: s.procs[i].Listening?
  {
    var s0 := Init(c);
    var s1 := HasClient(s0, 0);
    var first, second := Listener(0, Acquiring(0), {}), Listener(1, Acquiring(0), {});
    AcquiresOne(c, s1, first);
    var s2 := Tried(c, s1, first, 0);
    var s3 := HasClient(s2, 1);
    AcquiresOne(c, s3, second);
    s := Tried(c, s3, second, 0);
    RunsOne(c, s3, s);
    GetsClient(c, s2, 1, s);
    RunsOneMore(c, s1, s2, s);
    GetsClient(c, s0, 0, s);
  }
}

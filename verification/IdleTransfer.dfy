/**
 A transfer with an idle timeout: two directions joined, a watchdog fed by a coalescing watch channel, and the select
 that races them.  All of it is one task, so the branches are polled one after the other; within the poll of the
 transfer the directions make their own steps.  Time passes only between polls.
 */
module IdleTransfer {
  import opened Wrappers

  /** The watch channel holds a version, not a queue: any number of sends between two looks count as one. */
  datatype Channel = Channel(version: nat, senders: nat)

  /** The watchdog's timer and what it has seen of the channel; `consumedAt` remembers when it last reset the timer. */
  datatype Watchdog = Watchdog(deadline: nat, seen: nat, consumedAt: nat)

  datatype End = Joined | Failed | TimerFired | ChannelClosed

  datatype Phase =
    | Idle                                // suspended
    | Between(transferLeft: bool, watchdogLeft: bool)   // inside the select, these branches still to be polled
    | InTransfer(watchdogLeft: bool)
    | InWatchdog(transferLeft: bool)
    | Resolved(end: End)

  datatype Transfer = Transfer(
    now: nat, phase: Phase, channel: Channel, watchdog: Watchdog,
    running: set<bool>, failed: bool, lastSent: nat)

  datatype Action =
    | Pass(time: nat)
    | Wake
    | PollTransfer
    | Progress(direction: bool)           // bytes delivered, activity sent
    | Finish(direction: bool)             // a direction reached its end; its sender is dropped
    | Break(direction: bool)              // a direction fails; try_join drops both
    | LeaveTransfer
    | PollWatchdog
    | FireTimer
    | SeeChange
    | SeeClosed
    | LeaveWatchdog

  /** Both directions run, each owning a sender; the timer is armed. */
  function Begin(now: nat, timeout: nat): Transfer {
    Transfer(now, Idle, Channel(0, 2), Watchdog(now + timeout, 0, now), {false, true}, false, now)
  }

  function Step(timeout: nat, t: Transfer, a: Action): Option<Transfer> {
    match a
    case Pass(d) => if t.phase == Idle then Some(t.(now := t.now + d)) else None
    case Wake => if t.phase == Idle then Some(t.(phase := Between(true, true))) else None
    case PollTransfer =>
      if t.phase.Between? && t.phase.transferLeft then Some(t.(phase := InTransfer(t.phase.watchdogLeft))) else None
    case Progress(d) =>
      if t.phase.InTransfer? && d in t.running && !t.failed
      then Some(t.(channel := t.channel.(version := t.channel.version + 1), lastSent := t.now)) else None
    case Finish(d) =>
      if t.phase.InTransfer? && d in t.running && !t.failed && t.channel.senders > 0
      then Some(t.(running := t.running - {d}, channel := t.channel.(senders := t.channel.senders - 1))) else None
    case Break(d) =>
      if t.phase.InTransfer? && d in t.running && !t.failed
      then Some(t.(running := {}, failed := true, channel := t.channel.(senders := 0))) else None
    case LeaveTransfer =>
      if !t.phase.InTransfer? then None
      else if t.failed then Some(t.(phase := Resolved(Failed)))
      else if t.running == {} then Some(t.(phase := Resolved(Joined)))
      else Some(t.(phase := if t.phase.watchdogLeft then Between(false, true) else Idle))
    case PollWatchdog =>
      if t.phase.Between? && t.phase.watchdogLeft then Some(t.(phase := InWatchdog(t.phase.transferLeft))) else None
    case FireTimer =>
      if t.phase.InWatchdog? && t.now >= t.watchdog.deadline then Some(t.(phase := Resolved(TimerFired))) else None
    case SeeChange =>
      if t.phase.InWatchdog? && t.watchdog.seen != t.channel.version
      then Some(t.(watchdog := Watchdog(t.now + timeout, t.channel.version, t.now))) else None
    case SeeClosed =>
      if t.phase.InWatchdog? && t.watchdog.seen == t.channel.version && t.channel.senders == 0
      then Some(t.(phase := Resolved(ChannelClosed))) else None
    case LeaveWatchdog =>
      if t.phase.InWatchdog? && t.now < t.watchdog.deadline && t.watchdog.seen == t.channel.version
          && t.channel.senders > 0
      then Some(t.(phase := if t.phase.transferLeft then Between(true, false) else Idle)) else None
  }

  function Run(timeout: nat, t: Transfer, actions: seq<Action>): Option<Transfer>
    decreases |actions|
  {
    if actions == [] then Some(t)
    else match Step(timeout, t, actions[0]) case None => None case Some(u) => Run(timeout, u, actions[1..])
  }

  /** Every direction that runs owns a sender.  Outside a poll of the transfer an unresolved one has a running
      direction, because the join resolves in the very poll in which the last direction ends. */
  predicate Inv(timeout: nat, t: Transfer) {
    && t.channel.senders == |t.running|
    && (t.failed ==> t.phase.InTransfer? || t.phase == Resolved(Failed))
    && (t.phase == Resolved(Failed) ==> t.failed)
    && (t.phase.Idle? || t.phase.Between? || t.phase.InWatchdog? || t.phase == Resolved(TimerFired) ==> t.running != {})
    && t.phase != Resolved(ChannelClosed)
    && (t.phase.Between? ==> t.phase.transferLeft || t.phase.watchdogLeft)
    && t.watchdog.deadline == t.watchdog.consumedAt + timeout
    && t.watchdog.consumedAt <= t.now && t.lastSent <= t.now
    && t.watchdog.seen <= t.channel.version
    && (t.watchdog.seen == t.channel.version ==> t.lastSent <= t.watchdog.consumedAt)
    && (t.phase == Resolved(TimerFired) ==> t.now >= t.watchdog.deadline)
    && (t.phase == Resolved(Joined) ==> t.running == {} && !t.failed)
  }

  lemma StepKeepsInv(timeout: nat, t: Transfer, a: Action)
    requires Inv(timeout, t) && Step(timeout, t, a).Some?
    ensures Inv(timeout, Step(timeout, t, a).value)
  {
  }

  lemma {:induction false} RunKeepsInv(timeout: nat, t: Transfer, actions: seq<Action>)
    requires Inv(timeout, t) && Run(timeout, t, actions).Some?
    ensures Inv(timeout, Run(timeout, t, actions).value)
    decreases |actions|
  {
    if actions == [] {
    } else {
      StepKeepsInv(timeout, t, actions[0]);
      RunKeepsInv(timeout, Step(timeout, t, actions[0]).value, actions[1..]);
    }
  }

  /** The watchdog's closed-channel return is unreachable, and a timeout needs `timeout` of time since the start or
      the last notification the watchdog consumed, whatever was coalesced. */
  lemma TimeoutNeedsSilence(timeout: nat, start: nat, actions: seq<Action>)
    requires Run(timeout, Begin(start, timeout), actions).Some?
    ensures var t := Run(timeout, Begin(start, timeout), actions).value;
            && t.phase != Resolved(ChannelClosed)
            && (t.phase == Resolved(TimerFired) ==> t.now >= t.watchdog.consumedAt + timeout && t.running != {})
            && (t.phase == Resolved(TimerFired) && t.watchdog.seen == t.channel.version ==>
                t.now >= t.lastSent + timeout)
  {
    RunKeepsInv(timeout, Begin(start, timeout), actions);
  }

  // ---------------------------------------------------------------------------------------------
  // An active transfer can time out
  // ---------------------------------------------------------------------------------------------

  /** Closed as idle although bytes moved less than `timeout` ago. */
  predicate TimedOutActive(timeout: nat, t: Transfer) {
    t.phase == Resolved(TimerFired) && t.lastSent + timeout > t.now
  }

  predicate TimerDue(t: Transfer) {
    t.now >= t.watchdog.deadline
  }

  /** A notification was sent that the watchdog has not looked at. */
  predicate Unseen(t: Transfer) {
    t.watchdog.seen != t.channel.version
  }

  /** In the watchdog's poll itself: the select is unbiased, so an active transfer is closed exactly when the timer is
      due and there is an unseen notification younger than `timeout`, and the timer is what the select picks. */
  lemma PollTimesOutActiveIff(timeout: nat, start: nat, actions: seq<Action>)
    requires Run(timeout, Begin(start, timeout), actions).Some?
    requires Run(timeout, Begin(start, timeout), actions).value.phase.InWatchdog?
    ensures var t := Run(timeout, Begin(start, timeout), actions).value;
            (exists a :: Step(timeout, t, a).Some? && TimedOutActive(timeout, Step(timeout, t, a).value)) <==>
            TimerDue(t) && Unseen(t) && t.lastSent + timeout > t.now
  {
    var t := Run(timeout, Begin(start, timeout), actions).value;
    RunKeepsInv(timeout, Begin(start, timeout), actions);
    if TimerDue(t) && Unseen(t) && t.lastSent + timeout > t.now {
      assert TimedOutActive(timeout, Step(timeout, t, FireTimer).value);
    }
  }

  /** Nothing but the end of the transfer, or a timer that is due and certain to fire, stands in the way. */
  predicate StillOpen(timeout: nat, t: Transfer) {
    match t.phase
    case Idle => true
    case Between(transferLeft, _) => transferLeft || !TimerDue(t) || Unseen(t)
    case InTransfer(_) => t.running != {} && !t.failed
    case InWatchdog(_) => !TimerDue(t) || Unseen(t)
    case Resolved(_) => TimedOutActive(timeout, t)
  }

  ghost predicate CanTimeOutActive(timeout: nat, t: Transfer) {
    exists actions: seq<Action> ::
      Run(timeout, t, actions).Some? && TimedOutActive(timeout, Run(timeout, t, actions).value)
  }

  lemma StepBack(timeout: nat, t: Transfer, a: Action)
    requires Step(timeout, t, a).Some? && CanTimeOutActive(timeout, Step(timeout, t, a).value)
    ensures CanTimeOutActive(timeout, t)
  {
    var u := Step(timeout, t, a).value;
    var actions: seq<Action> :| Run(timeout, u, actions).Some?
        && TimedOutActive(timeout, Run(timeout, u, actions).value);
    RunThen(timeout, t, a, actions);
  }

  lemma RunThen(timeout: nat, t: Transfer, a: Action, rest: seq<Action>)
    ensures Run(timeout, t, [a] + rest) ==
            match Step(timeout, t, a) case None => None case Some(u) => Run(timeout, u, rest)
  {
    assert ([a] + rest)[1..] == rest;
  }

  lemma ARunningOne(t: Transfer) returns (d: bool)
    requires t.running != {}
    ensures d in t.running
  {
    d := true in t.running;
    forall b | b in t.running ensures b in {true} + {false} {
      assert b || !b;
    }
    assert d !in t.running ==> t.running == {};
  }

  /** Wait until the timer is due, wake, move bytes, and let the timer win. */
  lemma OpenFromIdle(timeout: nat, t: Transfer)
    requires timeout > 0 && Inv(timeout, t) && t.phase == Idle
    ensures CanTimeOutActive(timeout, t)
  {
    var d := ARunningOne(t);
    var t1 := Step(timeout, t, Pass(timeout)).value;
    var t2 := Step(timeout, t1, Wake).value;
    var t3 := Step(timeout, t2, PollTransfer).value;
    var t4 := Step(timeout, t3, Progress(d)).value;
    var t5 := Step(timeout, t4, LeaveTransfer).value;
    var t6 := Step(timeout, t5, PollWatchdog).value;
    var t7 := Step(timeout, t6, FireTimer).value;
    assert Run(timeout, t7, []).Some? && TimedOutActive(timeout, t7);
    StepBack(timeout, t6, FireTimer);
    StepBack(timeout, t5, PollWatchdog);
    StepBack(timeout, t4, LeaveTransfer);
    StepBack(timeout, t3, Progress(d));
    StepBack(timeout, t2, PollTransfer);
    StepBack(timeout, t1, Wake);
    StepBack(timeout, t, Pass(timeout));
  }

  /** Let the watchdog reset its timer if it has to, and leave it last. */
  lemma OpenFromWatchdog(timeout: nat, t: Transfer)
    requires timeout > 0 && Inv(timeout, t) && t.phase == InWatchdog(false) && (!TimerDue(t) || Unseen(t))
    ensures CanTimeOutActive(timeout, t)
  {
    if Unseen(t) {
      var u := Step(timeout, t, SeeChange).value;
      OpenFromIdle(timeout, Step(timeout, u, LeaveWatchdog).value);
      StepBack(timeout, u, LeaveWatchdog);
      StepBack(timeout, t, SeeChange);
    } else {
      OpenFromIdle(timeout, Step(timeout, t, LeaveWatchdog).value);
      StepBack(timeout, t, LeaveWatchdog);
    }
  }

  lemma OpenFromTransfer(timeout: nat, t: Transfer)
    requires timeout > 0 && Inv(timeout, t) && t.phase.InTransfer? && t.running != {} && !t.failed
    ensures CanTimeOutActive(timeout, t)
  {
    var d := ARunningOne(t);
    var u := Step(timeout, t, Progress(d)).value;
    var v := Step(timeout, u, LeaveTransfer).value;
    if v.phase == Idle {
      OpenFromIdle(timeout, v);
    } else {
      OpenFromWatchdog(timeout, Step(timeout, v, PollWatchdog).value);
      StepBack(timeout, v, PollWatchdog);
    }
    StepBack(timeout, u, LeaveTransfer);
    StepBack(timeout, t, Progress(d));
  }

  lemma OpenFromBetween(timeout: nat, t: Transfer)
    requires timeout > 0 && Inv(timeout, t) && t.phase.Between? && StillOpen(timeout, t)
    ensures CanTimeOutActive(timeout, t)
  {
    if t.phase.transferLeft {
      OpenFromTransfer(timeout, Step(timeout, t, PollTransfer).value);
      StepBack(timeout, t, PollTransfer);
    } else {
      OpenFromWatchdog(timeout, Step(timeout, t, PollWatchdog).value);
      StepBack(timeout, t, PollWatchdog);
    }
  }

  lemma OpenCanTimeOut(timeout: nat, t: Transfer)
    requires timeout > 0 && Inv(timeout, t) && StillOpen(timeout, t)
    ensures CanTimeOutActive(timeout, t)
  {
    match t.phase {
      case Idle => OpenFromIdle(timeout, t);
      case InTransfer(_) => OpenFromTransfer(timeout, t);
      case Between(_, _) => OpenFromBetween(timeout, t);
      case Resolved(_) => assert Run(timeout, t, []).Some? && TimedOutActive(timeout, t);
      case InWatchdog(transferLeft) =>
        if transferLeft {
          OpenFromFirstPoll(timeout, t);
        } else {
          OpenFromWatchdog(timeout, t);
        }
    }
  }

  /** The watchdog is polled before the transfer. */
  lemma OpenFromFirstPoll(timeout: nat, t: Transfer)
    requires timeout > 0 && Inv(timeout, t) && t.phase == InWatchdog(true) && (!TimerDue(t) || Unseen(t))
    ensures CanTimeOutActive(timeout, t)
  {
    if Unseen(t) {
      var u := Step(timeout, t, SeeChange).value;
      OpenFromBetween(timeout, Step(timeout, u, LeaveWatchdog).value);
      StepBack(timeout, u, LeaveWatchdog);
      StepBack(timeout, t, SeeChange);
    } else {
      OpenFromBetween(timeout, Step(timeout, t, LeaveWatchdog).value);
      StepBack(timeout, t, LeaveWatchdog);
    }
  }

  lemma ClosedStaysClosed(timeout: nat, t: Transfer, a: Action)
    requires Inv(timeout, t) && !StillOpen(timeout, t) && Step(timeout, t, a).Some?
    ensures !StillOpen(timeout, Step(timeout, t, a).value)
  {
  }

  lemma {:induction false} ClosedRunsStayClosed(timeout: nat, t: Transfer, actions: seq<Action>)
    requires Inv(timeout, t) && !StillOpen(timeout, t) && Run(timeout, t, actions).Some?
    ensures !TimedOutActive(timeout, Run(timeout, t, actions).value)
    decreases |actions|
  {
    if actions == [] {
    } else {
      StepKeepsInv(timeout, t, actions[0]);
      ClosedStaysClosed(timeout, t, actions[0]);
      ClosedRunsStayClosed(timeout, Step(timeout, t, actions[0]).value, actions[1..]);
    }
  }

  /** So no condition on the connection excludes it: from any state that is reached, a run to an active transfer that is
      closed as idle exists exactly as long as the transfer has not ended and the timer is not already bound to fire on
      a silent one. Zero, for which no transfer is ever active, is not accepted as a timeout by the settings. */
  lemma ActiveConnectionCanTimeOut(timeout: nat, start: nat, actions: seq<Action>)
    requires timeout > 0 && Run(timeout, Begin(start, timeout), actions).Some?
    ensures var t := Run(timeout, Begin(start, timeout), actions).value;
            CanTimeOutActive(timeout, t) <==> StillOpen(timeout, t)
  {
    var t := Run(timeout, Begin(start, timeout), actions).value;
    RunKeepsInv(timeout, Begin(start, timeout), actions);
    if StillOpen(timeout, t) {
      OpenCanTimeOut(timeout, t);
    } else {
      forall more: seq<Action> | Run(timeout, t, more).Some?
        ensures !TimedOutActive(timeout, Run(timeout, t, more).value)
      {
        ClosedRunsStayClosed(timeout, t, more);
      }
    }
  }

  // ---------------------------------------------------------------------------------------------
  // A transfer can be completed
  // ---------------------------------------------------------------------------------------------

  ghost predicate CanEnd(timeout: nat, t: Transfer, end: End) {
    exists actions: seq<Action> ::
      Run(timeout, t, actions).Some? && Run(timeout, t, actions).value.phase == Resolved(end)
  }

  lemma EndStepBack(timeout: nat, t: Transfer, a: Action, end: End)
    requires Step(timeout, t, a).Some? && CanEnd(timeout, Step(timeout, t, a).value, end)
    ensures CanEnd(timeout, t, end)
  {
    var u := Step(timeout, t, a).value;
    var actions: seq<Action> :|
      Run(timeout, u, actions).Some? && Run(timeout, u, actions).value.phase == Resolved(end);
    RunThen(timeout, t, a, actions);
  }

  lemma {:induction false} JoinsFromTransfer(timeout: nat, t: Transfer)
    requires Inv(timeout, t) && t.phase.InTransfer? && !t.failed
    ensures CanEnd(timeout, t, Joined)
    decreases |t.running|
  {
    if t.running == {} {
      var u := Step(timeout, t, LeaveTransfer).value;
      assert Run(timeout, u, []).Some? && u.phase == Resolved(Joined);
      EndStepBack(timeout, t, LeaveTransfer, Joined);
    } else {
      var d := ARunningOne(t);
      StepKeepsInv(timeout, t, Finish(d));
      JoinsFromTransfer(timeout, Step(timeout, t, Finish(d)).value);
      EndStepBack(timeout, t, Finish(d), Joined);
    }
  }

  lemma FailsFromTransfer(timeout: nat, t: Transfer)
    requires Inv(timeout, t) && t.phase.InTransfer? && !t.failed && t.running != {}
    ensures CanEnd(timeout, t, Failed)
  {
    var d := ARunningOne(t);
    var u := Step(timeout, t, Break(d)).value;
    var v := Step(timeout, u, LeaveTransfer).value;
    assert Run(timeout, v, []).Some? && v.phase == Resolved(Failed);
    EndStepBack(timeout, u, LeaveTransfer, Failed);
    EndStepBack(timeout, t, Break(d), Failed);
  }

  /** From wherever it is suspended a transfer can still end well, with both directions finished, or with the failure of
      one, however much time has passed: the select may poll the transfer first. */
  lemma SuspendedCanEnd(timeout: nat, start: nat, actions: seq<Action>)
    requires Run(timeout, Begin(start, timeout), actions).Some?
    requires Run(timeout, Begin(start, timeout), actions).value.phase == Idle
    ensures CanEnd(timeout, Run(timeout, Begin(start, timeout), actions).value, Joined)
    ensures CanEnd(timeout, Run(timeout, Begin(start, timeout), actions).value, Failed)
  {
    var t := Run(timeout, Begin(start, timeout), actions).value;
    RunKeepsInv(timeout, Begin(start, timeout), actions);
    var woken := Step(timeout, t, Wake).value;
    var polled := Step(timeout, woken, PollTransfer).value;
    StepKeepsInv(timeout, t, Wake);
    StepKeepsInv(timeout, woken, PollTransfer);
    JoinsFromTransfer(timeout, polled);
    FailsFromTransfer(timeout, polled);
    EndStepBack(timeout, woken, PollTransfer, Joined);
    EndStepBack(timeout, t, Wake, Joined);
    EndStepBack(timeout, woken, PollTransfer, Failed);
    EndStepBack(timeout, t, Wake, Failed);
  }

  /** The watchdog as the object it is: one poll of its loop, with the timer reset in place. */
  class IdleWatchdog {
    const timeout: nat
    var deadline: nat
    var seen: nat
    ghost var consumedAt: nat

    ghost function View(): Watchdog
      reads this
    {
      Watchdog(deadline, seen, consumedAt)
    }

    constructor (timeout: nat, now: nat)
      ensures this.timeout == timeout && View() == Begin(now, timeout).watchdog
    {
      this.timeout, deadline, seen, consumedAt := timeout, now + timeout, 0, now;
    }

    /** Polls until nothing is ready; `ended` when the loop returned.  It ends only for the timer or a closed channel,
        and stays suspended only with the latest version seen and a timer that runs from the last time it saw a
        change. */
    method Poll(now: nat, channel: Channel) returns (ended: bool)
      requires timeout > 0 && seen <= channel.version && deadline == consumedAt + timeout
      modifies this
      ensures seen <= channel.version && deadline == consumedAt + timeout
      ensures View() == old(View()) || View() == Watchdog(now + timeout, channel.version, now)
      ensures ended ==> now >= old(deadline) || channel.senders == 0
      ensures !ended ==> now < deadline && seen == channel.version && channel.senders > 0
      ensures !ended && old(seen) != channel.version ==> View() == Watchdog(now + timeout, channel.version, now)
    {
      while true
        invariant seen <= channel.version && deadline == consumedAt + timeout
        invariant View() == old(View()) || View() == Watchdog(now + timeout, channel.version, now)
        decreases channel.version - seen
      {
        var timerFirst := *;
        if now >= deadline && (timerFirst || (seen == channel.version && channel.senders > 0)) {
          return true;
        }
        if seen != channel.version {
          seen := channel.version;
          deadline, consumedAt := now + timeout, now;
        } else if channel.senders == 0 {
          return true;
        } else {
          return false;
        }
      }
    }
  }
}

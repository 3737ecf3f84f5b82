/**
 The readiness loop around splice(2) under edge-triggered readiness.

 Each side has a readiness flag and a tick that counts its edges.  The kernel sets a flag only on an edge; the loop
 clears a flag only after an attempt that would have blocked, and only if no edge came since it looked at the flag.
 Edges, data and room change at any moment, also between an attempt and the clearing of the flag.
 */
module SpliceReadiness {
  import opened Wrappers

  /** `Readable` is the source's side, `Writable` the destination's. */
  datatype Side = Readable | Writable

  datatype Flag = Flag(ready: bool, tick: nat)

  datatype Phase =
    | Selecting                              // at the select; parked when neither flag is set
    | Holding(side: Side, tick: nat)         // has a guard for one side
    | WouldBlock(side: Side, tick: nat)      // the attempt blocked, the flag is not cleared yet
    | Moved                                  // returned; the direction works on the other pair of descriptors

  datatype State = State(data: bool, room: bool, readable: Flag, writable: Flag, phase: Phase)

  datatype Action =
    | DataArrives | RoomAppears              // edges, repeated ones included
    | Select(side: Side)
    | Attempt
    | Clear
    | NextCall(dataLeft: bool, roomLeft: bool)

  function FlagOf(s: State, side: Side): Flag {
    match side case Readable => s.readable case Writable => s.writable
  }

  function Edge(f: Flag): Flag {
    Flag(true, f.tick + 1)
  }

  /** Data and room are used up by a successful splice only, which shows at the next call; `data` stands for bytes or
      the end of the stream. */
  function Step(s: State, a: Action): Option<State> {
    match a
    case DataArrives => Some(s.(data := true, readable := Edge(s.readable)))
    case RoomAppears => Some(s.(room := true, writable := Edge(s.writable)))
    case Select(side) =>
      if s.phase == Selecting && FlagOf(s, side).ready
      then Some(s.(phase := Holding(side, FlagOf(s, side).tick))) else None
    case Attempt =>
      if !s.phase.Holding? then None
      else if s.data && s.room then Some(s.(phase := Moved))
      else Some(s.(phase := WouldBlock(s.phase.side, s.phase.tick)))
    case Clear =>
      if !s.phase.WouldBlock? then None
      else if FlagOf(s, s.phase.side).tick != s.phase.tick then Some(s.(phase := Selecting))
      else if s.phase.side == Readable then Some(s.(readable := Flag(false, s.readable.tick), phase := Selecting))
      else Some(s.(writable := Flag(false, s.writable.tick), phase := Selecting))
    case NextCall(dataLeft, roomLeft) =>
      if s.phase == Moved
      then Some(s.(data := s.data && dataLeft, room := s.room && roomLeft, phase := Selecting)) else None
  }

  function Run(s: State, actions: seq<Action>): Option<State>
    decreases |actions|
  {
    if actions == [] then Some(s)
    else match Step(s, actions[0]) case None => None case Some(t) => Run(t, actions[1..])
  }

  lemma RunThen(s: State, a: Action, rest: seq<Action>)
    ensures Run(s, [a] + rest) == match Step(s, a) case None => None case Some(t) => Run(t, rest)
  {
    assert ([a] + rest)[1..] == rest;
  }

  /** Registration reports whatever is ready at that time. */
  function Registered(data: bool, room: bool): State {
    State(data, room, Flag(data, 0), Flag(room, 0), Selecting)
  }

  /** While a blocked attempt still has to clear its flag, either an edge came on that side, or the attempt blocked
      for want of the other side, whose flag any later edge has set. */
  predicate NoLostWakeup(s: State) {
    && (s.data && s.room ==> s.readable.ready || s.writable.ready)
    && (s.phase == Moved ==> s.readable.ready || s.writable.ready)
    && (s.phase.Holding? ==> s.phase.tick <= FlagOf(s, s.phase.side).tick && FlagOf(s, s.phase.side).ready)
    && (s.phase.WouldBlock? ==>
          && s.phase.tick <= FlagOf(s, s.phase.side).tick
          && (s.data && s.room && FlagOf(s, s.phase.side).tick == s.phase.tick ==>
                FlagOf(s, if s.phase.side == Readable then Writable else Readable).ready))
  }

  lemma StepKeepsWakeups(s: State, a: Action)
    requires NoLostWakeup(s) && Step(s, a).Some?
    ensures NoLostWakeup(Step(s, a).value)
  {
  }

  lemma {:induction false} RunKeepsWakeups(s: State, actions: seq<Action>)
    requires NoLostWakeup(s) && Run(s, actions).Some?
    ensures NoLostWakeup(Run(s, actions).value)
    decreases |actions|
  {
    if actions == [] {
    } else {
      StepKeepsWakeups(s, actions[0]);
      RunKeepsWakeups(Step(s, actions[0]).value, actions[1..]);
    }
  }

  /** The loop is never parked while bytes could move: from any state reachable over any number of calls in which there
      is data and room, the loop's own next steps, at most three, complete a splice. */
  lemma NeverParkedWithWork(data: bool, room: bool, actions: seq<Action>) returns (rest: seq<Action>)
    requires Run(Registered(data, room), actions).Some?
    requires Run(Registered(data, room), actions).value.data && Run(Registered(data, room), actions).value.room
    ensures var s := Run(Registered(data, room), actions).value; s.readable.ready || s.writable.ready
    ensures |rest| <= 3 && forall i | 0 <= i < |rest| :: rest[i].Select? || rest[i] in {Attempt, Clear}
    ensures var t := Run(Run(Registered(data, room), actions).value, rest); t.Some? && t.value.phase == Moved
  {
    RunKeepsWakeups(Registered(data, room), actions);
    var t := Run(Registered(data, room), actions).value;
    match t.phase {
      case Moved => rest := [];
      case Holding(_, _) =>
        rest := [Attempt];
        RunThen(t, Attempt, []);
      case Selecting => rest := SelectAndAttempt(t);
      case WouldBlock(_, _) =>
        StepKeepsWakeups(t, Clear);
        var more := SelectAndAttempt(Step(t, Clear).value);
        rest := [Clear] + more;
        RunThen(t, Clear, more);
    }
  }

  lemma SelectAndAttempt(t: State) returns (rest: seq<Action>)
    requires NoLostWakeup(t) && t.phase == Selecting && t.data && t.room
    ensures |rest| == 2 && rest[0].Select? && rest[1] == Attempt
    ensures Run(t, rest).Some? && Run(t, rest).value.phase == Moved
  {
    var select := Select(if t.readable.ready then Readable else Writable);
    rest := [select, Attempt];
    RunThen(t, select, [Attempt]);
    RunThen(Step(t, select).value, Attempt, []);
  }

  // ---------------------------------------------------------------------------------------------
  // Parking
  // ---------------------------------------------------------------------------------------------

  predicate IsLoopStep(a: Action) {
    a.Select? || a == Attempt || a == Clear
  }

  predicate Parked(s: State) {
    s.phase == Selecting && !s.readable.ready && !s.writable.ready
  }

  function FlagsSet(s: State): nat {
    (if s.readable.ready then 1 else 0) + (if s.writable.ready then 1 else 0)
  }

  function FlagsAfterClearing(s: State, side: Side, tick: nat): nat {
    if FlagOf(s, side) == Flag(true, tick) then FlagsSet(s) - 1 else FlagsSet(s)
  }

  /** Steps until the loop parks, while there is nothing to move. */
  function StepsToPark(s: State): nat {
    match s.phase
    case Selecting => 3 * FlagsSet(s)
    case Holding(side, tick) => 2 + 3 * FlagsAfterClearing(s, side, tick)
    case WouldBlock(side, tick) => 1 + 3 * FlagsAfterClearing(s, side, tick)
    case Moved => 0
  }

  lemma LoopStepParks(s: State, a: Action)
    requires NoLostWakeup(s) && !(s.data && s.room) && IsLoopStep(a) && Step(s, a).Some?
    ensures var t := Step(s, a).value;
            StepsToPark(t) < StepsToPark(s) && t.phase != Moved && t.data == s.data && t.room == s.room
  {
  }

  lemma {:induction false} LoopStepsPark(s: State, actions: seq<Action>)
    requires NoLostWakeup(s) && s.phase != Moved && !(s.data && s.room) && Run(s, actions).Some?
    requires forall i | 0 <= i < |actions| :: IsLoopStep(actions[i])
    ensures var t := Run(s, actions).value;
            |actions| + StepsToPark(t) <= StepsToPark(s) <= 8
            && ((forall a | IsLoopStep(a) :: Step(t, a) == None) <==> Parked(t))
    decreases |actions|
  {
    if actions == [] {
      if forall a | IsLoopStep(a) :: Step(s, a) == None {
        assert Step(s, Select(Readable)) == None && Step(s, Select(Writable)) == None;
        assert Step(s, Attempt) == None && Step(s, Clear) == None;
      }
    } else {
      LoopStepParks(s, actions[0]);
      StepKeepsWakeups(s, actions[0]);
      LoopStepsPark(Step(s, actions[0]).value, actions[1..]);
    }
  }

  /** The loop does not spin: in any state reached over any number of calls, with nothing to read or no room and no
      further edge, every run of its own steps has at most eight, and it stops exactly when it is parked. */
  lemma ParksWithoutWork(data: bool, room: bool, actions: seq<Action>, more: seq<Action>)
    requires Run(Registered(data, room), actions).Some?
    requires var s := Run(Registered(data, room), actions).value;
             s.phase != Moved && !(s.data && s.room) && Run(s, more).Some?
    requires forall i | 0 <= i < |more| :: IsLoopStep(more[i])
    ensures var t := Run(Run(Registered(data, room), actions).value, more).value;
            |more| <= 8 && ((forall a | IsLoopStep(a) :: Step(t, a) == None) <==> Parked(t))
  {
    RunKeepsWakeups(Registered(data, room), actions);
    LoopStepsPark(Run(Registered(data, room), actions).value, more);
  }

  /** An edge on either side wakes it: the side can be selected, and the splice is tried again. */
  lemma EdgeWakes(s: State, side: Side)
    requires Parked(s)
    ensures Step(s, Select(Readable)) == None && Step(s, Select(Writable)) == None
    ensures var edge := if side == Readable then DataArrives else RoomAppears;
            var t := Run(s, [edge, Select(side), Attempt]);
            && t.Some? && (t.value.phase == Moved <==> (side == Readable || s.data) && (side == Writable || s.room))
  {
    var edge := if side == Readable then DataArrives else RoomAppears;
    RunThree(s, edge, Select(side), Attempt, []);
    assert [edge, Select(side), Attempt] + [] == [edge, Select(side), Attempt];
  }

  /** The tick matters: without the comparison an edge between an attempt and its clearing would be lost.  Here the
      readable flag is stale, the attempt blocks, data arrives, and clearing blindly would park with work to do. */
  lemma ClearingBlindlyLosesWakeup() returns (actions: seq<Action>)
    ensures var t := Run(Registered(false, true), actions);
            && t.Some? && t.value.phase == WouldBlock(Readable, 1)
            && var blind := t.value.(readable := Flag(false, t.value.readable.tick), phase := Selecting);
               blind.data && blind.room && !blind.readable.ready && !blind.writable.ready
  {
    var s0 := Registered(false, true);
    var s3 := State(false, true, Flag(false, 0), Flag(false, 0), Selecting);
    var s6 := State(true, true, Flag(true, 1), Flag(false, 0), Moved);
    var s7 := State(false, true, Flag(true, 1), Flag(false, 0), Selecting);
    var last := [Select(Readable), Attempt, DataArrives];
    RunThree(s7, Select(Readable), Attempt, DataArrives, []);
    RunThen(s6, NextCall(false, true), last);
    RunThree(s3, DataArrives, Select(Readable), Attempt, [NextCall(false, true)] + last);
    RunThree(s0, Select(Writable), Attempt, Clear,
             [DataArrives, Select(Readable), Attempt] + ([NextCall(false, true)] + last));
    actions := [Select(Writable), Attempt, Clear]
        + ([DataArrives, Select(Readable), Attempt] + ([NextCall(false, true)] + last));
    assert last == [Select(Readable), Attempt, DataArrives] + [];
  }

  lemma RunThree(s: State, a: Action, b: Action, c: Action, rest: seq<Action>)
    requires Step(s, a).Some? && Step(Step(s, a).value, b).Some? && Step(Step(Step(s, a).value, b).value, c).Some?
    ensures Run(s, [a, b, c] + rest) == Run(Step(Step(Step(s, a).value, b).value, c).value, rest)
  {
    RunThen(s, a, [b, c] + rest);
    RunThen(Step(s, a).value, b, [c] + rest);
    RunThen(Step(Step(s, a).value, b).value, c, rest);
    assert [a, b, c] + rest == [a] + ([b, c] + rest);
    assert [b, c] + rest == [b] + ([c] + rest);
  }
}

/**
 The buffer pool under concurrency: a FIFO semaphore whose permits are taken two at a time, and a free list that is
 popped and pushed under a lock.  Granting, claiming, pushing and releasing are separate steps.
 */
module PoolProtocol {
  import opened Wrappers
  import opened Totals

  /** One of the two buffers of a connection, together with its permit. */
  datatype Half =
    | Unclaimed   // the permit is owned, the buffer not popped yet
    | InUse
    | Pushed      // the buffer is back on the free list, the permit still owned
    | Released

  datatype Client = Waiting | Leased(first: Half, second: Half)

  datatype Pool = Pool(available: nat, queue: seq<nat>, free: nat, created: nat, clients: map<nat, Client>)

  datatype Action =
    | Request(id: nat)               // joins the queue for two permits
    | Abandon(id: nat)               // the waiting future is dropped
    | Grant                          // the head of the queue gets both permits at once
    | Claim(id: nat)                 // both buffers are popped under one lock
    | DropGrant(id: nat)             // the granted future is dropped before it claimed
    | Push(id: nat, second: bool)
    | Release(id: nat, second: bool)

  function Init(capacity: nat): Pool {
    Pool(capacity, [], 0, 0, map[])
  }

  /** How many of the buffers wanted must be allocated because the free list runs out. */
  function Missing(free: nat, wanted: nat): nat {
    if free < wanted then wanted - free else 0
  }

  function Without(queue: seq<nat>, id: nat): seq<nat> {
    if queue == [] then []
    else if queue[0] == id then queue[1..]
    else [queue[0]] + Without(queue[1..], id)
  }

  function HalfOf(k: Client, second: bool): Half
    requires k.Leased?
  {
    if second then k.second else k.first
  }

  function WithHalf(k: Client, second: bool, h: Half): Client
    requires k.Leased?
  {
    if second then Leased(k.first, h) else Leased(h, k.second)
  }

  function Step(p: Pool, a: Action): Option<Pool> {
    match a
    case Request(id) =>
      if id in p.clients then None
      else Some(p.(queue := p.queue + [id], clients := p.clients[id := Waiting]))
    case Abandon(id) =>
      if id in p.clients && p.clients[id] == Waiting
      then Some(p.(queue := Without(p.queue, id), clients := p.clients[id := Leased(Released, Released)])) else None
    case Grant =>
      if p.queue != [] && p.available >= 2
      then Some(p.(available := p.available - 2, queue := p.queue[1..],
                   clients := p.clients[p.queue[0] := Leased(Unclaimed, Unclaimed)])) else None
    case Claim(id) =>
      if id in p.clients && p.clients[id] == Leased(Unclaimed, Unclaimed)
      then Some(p.(free := p.free + Missing(p.free, 2) - 2, created := p.created + Missing(p.free, 2),
                   clients := p.clients[id := Leased(InUse, InUse)])) else None
    case DropGrant(id) =>
      if id in p.clients && p.clients[id] == Leased(Unclaimed, Unclaimed)
      then Some(p.(available := p.available + 2, clients := p.clients[id := Leased(Released, Released)])) else None
    case Push(id, second) =>
      if id in p.clients && p.clients[id].Leased? && HalfOf(p.clients[id], second) == InUse
      then Some(p.(free := p.free + 1, clients := p.clients[id := WithHalf(p.clients[id], second, Pushed)])) else None
    case Release(id, second) =>
      if id in p.clients && p.clients[id].Leased? && HalfOf(p.clients[id], second) == Pushed
      then Some(p.(available := p.available + 1,
                   clients := p.clients[id := WithHalf(p.clients[id], second, Released)])) else None
  }

  function Run(p: Pool, actions: seq<Action>): Option<Pool>
    decreases |actions|
  {
    if actions == [] then Some(p)
    else match Step(p, actions[0]) case None => None case Some(q) => Run(q, actions[1..])
  }

  // ---------------------------------------------------------------------------------------------
  // What clients hold
  // ---------------------------------------------------------------------------------------------

  function HalfPermits(h: Half): int { if h == Released then 0 else 1 }

  function HalfBuffers(h: Half): int { if h == InUse then 1 else 0 }

  function PermitsHeld(k: Client): int {
    match k case Waiting => 0 case Leased(a, b) => HalfPermits(a) + HalfPermits(b)
  }

  function BuffersHeld(k: Client): int {
    match k case Waiting => 0 case Leased(a, b) => HalfBuffers(a) + HalfBuffers(b)
  }

  ghost function PermitsOut(p: Pool): int {
    Sum(p.clients, Permits())
  }

  /** Directions running on a pooled buffer; a half-closed connection counts as one. */
  ghost function Outstanding(p: Pool): int {
    Sum(p.clients, Buffers())
  }

  ghost function Permits(): Client -> int { (k: Client) => PermitsHeld(k) }

  ghost function Buffers(): Client -> int { (k: Client) => BuffersHeld(k) }

  ghost predicate QueueOk(p: Pool) {
    && (forall id :: id in p.queue <==> id in p.clients && p.clients[id] == Waiting)
    && (forall i, j | 0 <= i < j < |p.queue| :: p.queue[i] != p.queue[j])
  }

  ghost predicate LeasesOk(p: Pool) {
    forall id | id in p.clients && p.clients[id].Leased? ::
      p.clients[id].first == Unclaimed <==> p.clients[id].second == Unclaimed
  }

  ghost predicate Inv(capacity: nat, p: Pool) {
    && QueueOk(p) && LeasesOk(p)
    && p.available + PermitsOut(p) == capacity
    && p.free + Outstanding(p) == p.created
  }

  lemma {:induction false} WithoutRemoves(queue: seq<nat>, id: nat)
    requires forall i, j | 0 <= i < j < |queue| :: queue[i] != queue[j]
    ensures forall x :: x in Without(queue, id) <==> x in queue && x != id
    ensures forall i, j | 0 <= i < j < |Without(queue, id)| :: Without(queue, id)[i] != Without(queue, id)[j]
  {
    if queue == [] {
    } else {
      var rest := queue[1..];
      assert forall i | 0 <= i < |rest| :: rest[i] == queue[i + 1];
      WithoutRemoves(rest, id);
      assert queue == [queue[0]] + rest;
      assert queue[0] !in rest;
    }
  }

  /** The client an action is about. */
  function Actor(p: Pool, a: Action): nat
    requires a.Grant? ==> p.queue != []
  {
    match a
    case Grant => p.queue[0]
    case Request(id) => id
    case Abandon(id) => id
    case Claim(id) => id
    case DropGrant(id) => id
    case Push(id, _) => id
    case Release(id, _) => id
  }

  function PermitsOf(p: Pool, id: nat): int { if id in p.clients then PermitsHeld(p.clients[id]) else 0 }

  function BuffersOf(p: Pool, id: nat): int { if id in p.clients then BuffersHeld(p.clients[id]) else 0 }

  /** Every action changes one client; the totals move with it. */
  lemma StepMoves(p: Pool, a: Action)
    requires Step(p, a).Some?
    ensures var q, id := Step(p, a).value, Actor(p, a);
            && PermitsOut(q) == PermitsOut(p) + PermitsOf(q, id) - PermitsOf(p, id)
            && Outstanding(q) == Outstanding(p) + BuffersOf(q, id) - BuffersOf(p, id)
  {
    var q, id := Step(p, a).value, Actor(p, a);
    assert q.clients == p.clients[id := q.clients[id]];
    SumUpdate(p.clients, Permits(), id, q.clients[id]);
    SumUpdate(p.clients, Buffers(), id, q.clients[id]);
  }

  lemma StepKeepsQueue(p: Pool, a: Action)
    requires QueueOk(p) && LeasesOk(p) && Step(p, a).Some?
    ensures QueueOk(Step(p, a).value) && LeasesOk(Step(p, a).value)
  {
    var q := Step(p, a).value;
    match a {
      case Abandon(id) => WithoutRemoves(p.queue, id);
      case Grant =>
        assert p.queue == [p.queue[0]] + p.queue[1..];
        assert p.queue[0] !in p.queue[1..];
      case _ =>
    }
  }

  lemma StepKeepsTotals(capacity: nat, p: Pool, a: Action)
    requires Inv(capacity, p) && Step(p, a).Some?
    ensures var q := Step(p, a).value;
            q.available + PermitsOut(q) == capacity && q.free + Outstanding(q) == q.created
  {
    StepMoves(p, a);
    if a.Grant? {
      assert p.queue[0] in p.queue;
    }
  }

  lemma StepKeepsInv(capacity: nat, p: Pool, a: Action)
    requires Inv(capacity, p) && Step(p, a).Some?
    ensures Inv(capacity, Step(p, a).value)
  {
    StepKeepsQueue(p, a);
    StepKeepsTotals(capacity, p, a);
  }

  lemma InitIsInv(capacity: nat)
    ensures Inv(capacity, Init(capacity))
  {
  }

  lemma OutstandingBounds(p: Pool)
    ensures 0 <= Outstanding(p) <= PermitsOut(p)
  {
    SumMonotone(p.clients, Buffers(), Permits());
    SumZero(p.clients, (k: Client) => 0);
    SumMonotone(p.clients, (k: Client) => 0, Buffers());
  }

  // ---------------------------------------------------------------------------------------------
  // High-water mark
  // ---------------------------------------------------------------------------------------------

  ghost function Max(a: int, b: int): int { if a < b then b else a }

  /** The largest number of buffers simultaneously outstanding in any state of a run. */
  ghost function HighWater(p: Pool, actions: seq<Action>): int
    requires Run(p, actions).Some?
    decreases |actions|
  {
    if actions == [] then Outstanding(p)
    else Max(Outstanding(p), HighWater(Step(p, actions[0]).value, actions[1..]))
  }

  /** A buffer is allocated only when the free list is empty, so allocation never runs ahead of the demand. */
  lemma StepAllocates(capacity: nat, p: Pool, a: Action)
    requires Inv(capacity, p) && Step(p, a).Some?
    ensures Step(p, a).value.created == Max(p.created, Outstanding(Step(p, a).value))
  {
    StepMoves(p, a);
    StepKeepsTotals(capacity, p, a);
  }

  lemma {:induction false} AllocatedAlongRun(capacity: nat, p: Pool, actions: seq<Action>)
    requires Inv(capacity, p) && Run(p, actions).Some?
    ensures Inv(capacity, Run(p, actions).value)
    ensures Run(p, actions).value.created == Max(p.created, HighWater(p, actions))
    ensures HighWater(p, actions) <= capacity
    decreases |actions|
  {
    OutstandingBounds(p);
    if actions != [] {
      var q := Step(p, actions[0]).value;
      StepKeepsInv(capacity, p, actions[0]);
      StepAllocates(capacity, p, actions[0]);
      AllocatedAlongRun(capacity, q, actions[1..]);
    }
  }

  /** The buffers ever created are exactly the most that were in use at once, and never more than the capacity. */
  lemma AllocatedIsHighWater(capacity: nat, actions: seq<Action>)
    requires Run(Init(capacity), actions).Some?
    ensures var q := Run(Init(capacity), actions).value;
            && q.created == HighWater(Init(capacity), actions) <= capacity
            && q.free + Outstanding(q) == q.created
            && q.available + PermitsOut(q) == capacity
  {
    InitIsInv(capacity);
    AllocatedAlongRun(capacity, Init(capacity), actions);
  }

  // ---------------------------------------------------------------------------------------------
  // Waiting
  // ---------------------------------------------------------------------------------------------

  function HalfSteps(h: Half): nat {
    match h case Unclaimed => 3 case InUse => 2 case Pushed => 1 case Released => 0
  }

  ghost function Steps(): Client -> int {
    (k: Client) => match k case Waiting => 0 case Leased(a, b) => HalfSteps(a) + HalfSteps(b)
  }

  ghost function StepsLeft(p: Pool): int {
    Sum(p.clients, Steps())
  }

  /** What a client that owns a permit does next on its way to giving it back. */
  function Onward(id: nat, k: Client): Action
    requires k.Leased?
  {
    if k.first == Unclaimed then Claim(id)
    else if k.first == InUse then Push(id, false)
    else if k.first == Pushed then Release(id, false)
    else if k.second == InUse then Push(id, true)
    else Release(id, true)
  }

  lemma HolderMovesOn(p: Pool, id: nat)
    requires LeasesOk(p) && id in p.clients && PermitsHeld(p.clients[id]) > 0
    ensures var a := Onward(id, p.clients[id]);
            Step(p, a).Some? && Step(p, a).value.queue == p.queue && StepsLeft(Step(p, a).value) < StepsLeft(p)
  {
    var a := Onward(id, p.clients[id]);
    SumUpdate(p.clients, Steps(), id, Step(p, a).value.clients[id]);
  }

  /** Whoever waits owns nothing, so with two permits in all the head of the queue is never blocked for good: the
      clients that hold permits can, by their own steps alone, return enough of them for it to be granted. */
  lemma {:induction false} HeadIsGranted(capacity: nat, p: Pool) returns (actions: seq<Action>)
    requires Inv(capacity, p) && capacity >= 2 && p.queue != []
    ensures forall i | 0 <= i < |actions| :: actions[i].Claim? || actions[i].Push? || actions[i].Release?
    ensures Run(p, actions).Some? && Run(p, actions).value.queue == p.queue
    ensures Step(Run(p, actions).value, Grant).Some?
    ensures |actions| <= StepsLeft(p)
    decreases StepsLeft(p)
  {
    StepsLeftIsNat(p);
    if p.available >= 2 {
      actions := [];
    } else {
      if forall id | id in p.clients :: PermitsHeld(p.clients[id]) == 0 {
        SumZero(p.clients, Permits());
      }
      var id :| id in p.clients && PermitsHeld(p.clients[id]) != 0;
      var a := Onward(id, p.clients[id]);
      HolderMovesOn(p, id);
      StepKeepsInv(capacity, p, a);
      StepsLeftIsNat(Step(p, a).value);
      var rest := HeadIsGranted(capacity, Step(p, a).value);
      actions := [a] + rest;
      assert actions[1..] == rest;
    }
  }

  lemma StepsLeftIsNat(p: Pool)
    ensures StepsLeft(p) >= 0
  {
    SumZero(p.clients, (k: Client) => 0);
    SumMonotone(p.clients, (k: Client) => 0, Steps());
  }

  /** How many requests are ahead of `id`. */
  function Ahead(queue: seq<nat>, id: nat): nat
    requires id in queue
  {
    if queue[0] == id then 0 else 1 + Ahead(queue[1..], id)
  }

  /** First come, first served: nobody overtakes a waiting client, and every grant brings it one place forward. */
  lemma NobodyOvertakes(p: Pool, a: Action, id: nat)
    requires QueueOk(p) && Step(p, a).Some? && id in p.queue && id in Step(p, a).value.queue
    ensures Ahead(Step(p, a).value.queue, id) <= Ahead(p.queue, id)
    ensures a.Grant? && p.queue[0] != id ==> Ahead(Step(p, a).value.queue, id) == Ahead(p.queue, id) - 1
  {
    match a {
      case Request(other) => AheadOfAppended(p.queue, other, id);
      case Abandon(other) =>
        WithoutRemoves(p.queue, other);
        AheadOfWithout(p.queue, other, id);
      case _ =>
    }
  }

  lemma {:induction false} AheadOfAppended(queue: seq<nat>, other: nat, id: nat)
    requires id in queue
    ensures Ahead(queue + [other], id) == Ahead(queue, id)
  {
    if queue[0] != id {
      assert (queue + [other])[1..] == queue[1..] + [other];
      AheadOfAppended(queue[1..], other, id);
    }
  }

  lemma {:induction false} AheadOfWithout(queue: seq<nat>, other: nat, id: nat)
    requires id in queue && id != other && id in Without(queue, other)
    ensures Ahead(Without(queue, other), id) <= Ahead(queue, id)
  {
    if queue[0] != other && queue[0] != id {
      assert id in queue[1..];
      assert Without(queue, other) == [queue[0]] + Without(queue[1..], other);
      assert Without(queue, other)[1..] == Without(queue[1..], other);
      AheadOfWithout(queue[1..], other, id);
    }
  }

  lemma {:induction false} RunsCompose(p: Pool, first: seq<Action>, second: seq<Action>)
    requires Run(p, first).Some?
    ensures Run(p, first + second) == Run(Run(p, first).value, second)
    decreases |first|
  {
    if first == [] {
      assert first + second == second;
    } else {
      assert (first + second)[1..] == first[1..] + second;
      RunsCompose(Step(p, first[0]).value, first[1..], second);
    }
  }

  lemma {:induction false} RunKeepsInv(capacity: nat, p: Pool, actions: seq<Action>)
    requires Inv(capacity, p) && Run(p, actions).Some?
    ensures Inv(capacity, Run(p, actions).value)
    decreases |actions|
  {
    if actions == [] {
    } else {
      StepKeepsInv(capacity, p, actions[0]);
      RunKeepsInv(capacity, Step(p, actions[0]).value, actions[1..]);
    }
  }

  /** The steps of clients on their way to giving permits back, and grants. */
  predicate Serves(a: Action) {
    a.Claim? || a.Push? || a.Release? || a.Grant?
  }

  /** Wherever a client waits in the queue, grants and the steps of those that hold permits are enough for it to come to
      the head and be granted. */
  lemma {:induction false} EveryoneIsGranted(capacity: nat, p: Pool, id: nat) returns (actions: seq<Action>)
    requires Inv(capacity, p) && capacity >= 2 && id in p.queue
    ensures forall i | 0 <= i < |actions| :: Serves(actions[i])
    ensures Run(p, actions).Some?
    ensures var q := Run(p, actions).value; q.queue != [] && q.queue[0] == id && Step(q, Grant).Some?
    decreases Ahead(p.queue, id), 1
  {
    actions := HeadIsGranted(capacity, p);
    RunKeepsInv(capacity, p, actions);
    if p.queue[0] != id {
      var rest := GrantedAfterHead(capacity, Run(p, actions).value, id);
      RunsCompose(p, actions, rest);
      actions := actions + rest;
    }
  }

  lemma {:induction false} GrantedAfterHead(capacity: nat, p: Pool, id: nat) returns (actions: seq<Action>)
    requires Inv(capacity, p) && capacity >= 2 && id in p.queue && p.queue[0] != id && Step(p, Grant).Some?
    ensures forall i | 0 <= i < |actions| :: Serves(actions[i])
    ensures Run(p, actions).Some?
    ensures var q := Run(p, actions).value; q.queue != [] && q.queue[0] == id && Step(q, Grant).Some?
    decreases Ahead(p.queue, id), 0
  {
    var q := Step(p, Grant).value;
    StepKeepsInv(capacity, p, Grant);
    assert q.queue == p.queue[1..] && p.queue == [p.queue[0]] + q.queue;
    var rest := EveryoneIsGranted(capacity, q, id);
    actions := [Grant] + rest;
    assert actions[1..] == rest;
  }

  // ---------------------------------------------------------------------------------------------
  // Every schedule
  // ---------------------------------------------------------------------------------------------

  /** Grants and steps towards giving permits back that a client still takes part in. */
  ghost function Service(): Client -> int {
    (k: Client) => match k case Waiting => 7 case Leased(a, b) => HalfSteps(a) + HalfSteps(b)
  }

  ghost function ServiceLeft(p: Pool): int {
    Sum(p.clients, Service())
  }

  lemma ServiceIsNat(p: Pool)
    ensures ServiceLeft(p) >= 0
  {
    SumZero(p.clients, (k: Client) => 0);
    SumMonotone(p.clients, (k: Client) => 0, Service());
  }

  lemma ServingUsesService(capacity: nat, p: Pool, a: Action)
    requires Inv(capacity, p) && Serves(a) && Step(p, a).Some?
    ensures ServiceLeft(Step(p, a).value) < ServiceLeft(p)
  {
    var q, id := Step(p, a).value, Actor(p, a);
    if a.Grant? {
      assert p.queue[0] in p.queue;
    }
    assert q.clients == p.clients[id := q.clients[id]];
    SumUpdate(p.clients, Service(), id, q.clients[id]);
  }

  ghost predicate CanServe(p: Pool) {
    exists a :: Serves(a) && Step(p, a).Some?
  }

  /** Nobody waits and nobody holds a permit. */
  ghost predicate AllServed(p: Pool) {
    p.queue == [] && forall id | id in p.clients :: PermitsHeld(p.clients[id]) == 0
  }

  lemma ServesUntilAllServed(capacity: nat, p: Pool)
    requires Inv(capacity, p) && capacity >= 2
    ensures CanServe(p) <==> !AllServed(p)
  {
    if id :| id in p.clients && PermitsHeld(p.clients[id]) != 0 {
      HolderMovesOn(p, id);
      assert Serves(Onward(id, p.clients[id]));
    } else {
      SumZero(p.clients, Permits());
      if p.queue != [] {
        assert Serves(Grant) && Step(p, Grant).Some?;
      }
    }
  }

  /** As long as those that hold permits keep moving on, everybody is served, in whatever order that happens: no
      schedule of such steps is longer than the service left, and one that cannot be continued has served everybody. */
  lemma {:induction false} EveryScheduleServes(capacity: nat, p: Pool, actions: seq<Action>)
    requires Inv(capacity, p) && capacity >= 2 && Run(p, actions).Some?
    requires forall i | 0 <= i < |actions| :: Serves(actions[i])
    ensures var q := Run(p, actions).value;
            && |actions| + ServiceLeft(q) <= ServiceLeft(p)
            && ServiceLeft(q) >= 0
            && (CanServe(q) <==> !AllServed(q))
    decreases |actions|
  {
    if actions == [] {
      ServiceIsNat(p);
      ServesUntilAllServed(capacity, p);
    } else {
      StepKeepsInv(capacity, p, actions[0]);
      ServingUsesService(capacity, p, actions[0]);
      EveryScheduleServes(capacity, Step(p, actions[0]).value, actions[1..]);
    }
  }

  /** A new client can always ask, and ends with two buffers in use, whatever the others have asked for before. */
  lemma NewClientGetsBuffers(capacity: nat, p: Pool, id: nat) returns (actions: seq<Action>)
    requires Inv(capacity, p) && capacity >= 2 && id !in p.clients
    ensures Run(p, actions).Some?
    ensures var q := Run(p, actions).value; id in q.clients && q.clients[id] == Leased(InUse, InUse)
  {
    var asked := Step(p, Request(id)).value;
    StepKeepsInv(capacity, p, Request(id));
    assert asked.queue[|asked.queue| - 1] == id;
    var served := EveryoneIsGranted(capacity, asked, id);
    var head := Run(asked, served).value;
    var granted := Step(head, Grant).value;
    var done := Step(granted, Claim(id)).value;
    assert [Grant, Claim(id)][1..] == [Claim(id)] && [Claim(id)][1..] == [];
    assert Run(granted, [Claim(id)]) == Some(done);
    assert Run(head, [Grant, Claim(id)]) == Some(done);
    RunsCompose(asked, served, [Grant, Claim(id)]);
    actions := [Request(id)] + (served + [Grant, Claim(id)]);
    assert actions[1..] == served + [Grant, Claim(id)];
  }

  /** A client that is dropped while it waits leaves the queue and costs nothing; one that is dropped between the grant
      and its buffers gives both permits back. */
  lemma DroppedClientReturnsEverything(capacity: nat, p: Pool, id: nat)
    requires Inv(capacity, p) && id in p.clients && p.clients[id] in {Waiting, Leased(Unclaimed, Unclaimed)}
    ensures var q := Step(p, if p.clients[id] == Waiting then Abandon(id) else DropGrant(id));
            && q.Some? && Inv(capacity, q.value) && id !in q.value.queue
            && id in q.value.clients && PermitsHeld(q.value.clients[id]) == 0
            && q.value.available == p.available + PermitsHeld(p.clients[id])
            && q.value.free == p.free && q.value.created == p.created
  {
    StepKeepsInv(capacity, p, if p.clients[id] == Waiting then Abandon(id) else DropGrant(id));
  }
}

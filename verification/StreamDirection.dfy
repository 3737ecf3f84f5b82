/**
 One direction of a relayed connection, as an observer of both sockets sees it.

 The automaton accepts the event sequences of an in-order byte stream with half-close: bytes are delivered in the
 order they were consumed, no more than `window` of them are in flight, activity is reported only for bytes that
 were delivered, and the write side is shut down only after the source has ended and everything was delivered.
 */
module StreamDirection {
  import opened Wrappers
  import opened Bytes

  datatype Event =
    | Consumed(bytes: seq<Byte>)
    | Delivered(bytes: seq<Byte>)
    | SourceEnded
    | WriteShutDown
    | Notified

  datatype Direction = Direction(consumed: seq<Byte>, delivered: seq<Byte>, ended: bool, shut: bool, unreported: bool)

  function Start(): Direction {
    Direction([], [], false, false, false)
  }

  /** One event; None when the abstract direction does not allow it. */
  function Observe(stream: seq<Byte>, window: nat, d: Direction, e: Event): Option<Direction> {
    match e
    case Consumed(bytes) =>
      if !d.ended && bytes != [] && d.consumed + bytes <= stream
         && |d.consumed| + |bytes| <= |d.delivered| + window
      then Some(d.(consumed := d.consumed + bytes)) else None
    case Delivered(bytes) =>
      if !d.shut && bytes != [] && d.delivered + bytes <= d.consumed
      then Some(d.(delivered := d.delivered + bytes, unreported := true)) else None
    case SourceEnded => if !d.ended && d.consumed == stream then Some(d.(ended := true)) else None
    case WriteShutDown =>
      if d.ended && !d.shut && !d.unreported && d.delivered == d.consumed then Some(d.(shut := true)) else None
    case Notified => if d.unreported then Some(d.(unreported := false)) else None
  }

  function ObserveAll(stream: seq<Byte>, window: nat, events: seq<Event>): Option<Direction> {
    if events == [] then Some(Start())
    else match ObserveAll(stream, window, events[..|events| - 1])
         case None => None
         case Some(d) => Observe(stream, window, d, events[|events| - 1])
  }

  lemma ObserveOneMore(stream: seq<Byte>, window: nat, events: seq<Event>, e: Event)
    ensures ObserveAll(stream, window, events + [e]) ==
            match ObserveAll(stream, window, events)
            case None => None
            case Some(d) => Observe(stream, window, d, e)
  {
    assert (events + [e])[..|events|] == events;
  }

  /** What reached the destination. */
  function Deliveries(events: seq<Event>): seq<Byte> {
    if events == [] then []
    else Deliveries(events[..|events| - 1])
         + (if events[|events| - 1].Delivered? then events[|events| - 1].bytes else [])
  }

  /** The contract both forwarding loops meet. */
  ghost predicate Forwards(stream: seq<Byte>, window: nat, events: seq<Event>, result: Io<nat>) {
    var d := ObserveAll(stream, window, events);
    && d.Some?
    && (result.Ok? ==> d.value.shut && result.value == |stream|)
    && (result.Err? ==> !d.value.shut)
  }

  /** A direction can be dropped at any await (force shutdown, idle timeout, failure of the other direction): every
      prefix of an accepted trace is accepted, and in each one the destination has a prefix of the stream, the window
      is respected, and the write side is shut only if the whole stream was delivered. */
  lemma {:induction false} CutAnywhere(stream: seq<Byte>, window: nat, events: seq<Event>, k: nat)
    requires ObserveAll(stream, window, events).Some? && k <= |events|
    ensures var d := ObserveAll(stream, window, events[..k]);
            && d.Some?
            && Deliveries(events[..k]) == d.value.delivered <= d.value.consumed <= stream
            && |d.value.consumed| <= |d.value.delivered| + window
            && (d.value.shut ==> d.value.ended)
            && (d.value.ended ==> d.value.consumed == stream)
            && (d.value.shut ==> d.value.delivered == stream && !d.value.unreported)
    decreases |events|
  {
    if k < |events| {
      CutAnywhere(stream, window, events[..|events| - 1], k);
      assert events[..|events| - 1][..k] == events[..k];
    } else {
      assert events[..k] == events;
      if events != [] {
        CutAnywhere(stream, window, events[..|events| - 1], |events| - 1);
        assert events[..|events| - 1][..|events| - 1] == events[..|events| - 1];
      }
    }
  }

  /** Success means: exactly the stream was delivered, its end was seen, and the half-close is the very last event. */
  lemma SuccessDeliversStream(stream: seq<Byte>, window: nat, events: seq<Event>, result: Io<nat>)
    requires Forwards(stream, window, events, result) && result.Ok?
    ensures Deliveries(events) == stream && result.value == |Deliveries(events)|
    ensures events != [] && events[|events| - 1] == WriteShutDown
    ensures forall j | 0 <= j < |events| - 1 :: events[j] != WriteShutDown
    ensures exists j :: 0 <= j < |events| && events[j] == SourceEnded
  {
    assert events[..|events|] == events;
    CutAnywhere(stream, window, events, |events|);
    CutAnywhere(stream, window, events, |events| - 1);
    EndedHasEvent(stream, window, events);
    forall j | 0 <= j < |events| - 1 ensures events[j] != WriteShutDown {
      NothingAfterShutDown(stream, window, events, j);
    }
  }

  lemma LastEvent(stream: seq<Byte>, window: nat, events: seq<Event>, k: nat)
    requires k < |events|
    ensures ObserveAll(stream, window, events[..k + 1]) ==
            match ObserveAll(stream, window, events[..k])
            case None => None
            case Some(d) => Observe(stream, window, d, events[k])
  {
    ObserveOneMore(stream, window, events[..k], events[k]);
    assert events[..k] + [events[k]] == events[..k + 1];
  }

  lemma NothingAfterShutDown(stream: seq<Byte>, window: nat, events: seq<Event>, j: nat)
    requires ObserveAll(stream, window, events).Some? && j + 1 < |events|
    ensures events[j] != WriteShutDown
  {
    LastEvent(stream, window, events, j);
    LastEvent(stream, window, events, j + 1);
    CutAnywhere(stream, window, events, j + 1);
    CutAnywhere(stream, window, events, j + 2);
  }

  lemma {:induction false} EndedHasEvent(stream: seq<Byte>, window: nat, events: seq<Event>)
    requires ObserveAll(stream, window, events).Some? && ObserveAll(stream, window, events).value.ended
    ensures exists j :: 0 <= j < |events| && events[j] == SourceEnded
    decreases |events|
  {
    var n := |events| - 1;
    if events[n] != SourceEnded {
      EndedHasEvent(stream, window, events[..n]);
      var j :| 0 <= j < n && events[..n][j] == SourceEnded;
      assert events[j] == SourceEnded;
    }
  }
}

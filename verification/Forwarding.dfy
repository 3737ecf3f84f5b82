/**
 The two loops that forward one direction: through a pooled user-space buffer, and through a kernel pipe.
 Both are verified against the same abstract direction, for every pattern of short reads, short splices and errors.
 */
module Forwarding {
  import opened Wrappers
  import opened Bytes
  import opened StreamDirection

  const SPLICE_CHUNK_SIZE: nat := 64 * 1024

  /** What an observer of one direction has seen so far; sockets and pipes report to it. */
  class Trace {
    ghost var events: seq<Event>
    /** A call on one of the sockets or pipes has failed; a splice out of the pipe has moved nothing. */
    ghost var failed: bool
    ghost var stalled: bool

    constructor ()
      ensures events == [] && !failed && !stalled
    {
      events, failed, stalled := [], false, false;
    }

    /** `activity.send(())` */
    method Notify()
      modifies this
      ensures events == old(events) + [Notified] && failed == old(failed) && stalled == old(stalled)
    {
      events := events + [Notified];
    }
  }

  /** The reading half of a socket: `stream` is everything the peer will ever send before it closes. */
  class Source {
    const stream: seq<Byte>
    const trace: Trace
    var taken: nat

    constructor (stream: seq<Byte>, trace: Trace)
      ensures this.stream == stream && this.trace == trace && taken == 0
    {
      this.stream, this.trace, taken := stream, trace, 0;
    }

    ghost predicate Valid()
      reads this
    {
      taken <= |stream|
    }

    /** A read fails, or reports the end with 0, or fills a nonempty part of the buffer. */
    method Read(buffer: array<Byte>) returns (r: Io<nat>)
      requires Valid() && buffer.Length > 0
      modifies this, trace, buffer
      ensures Valid()
      ensures trace.failed == (old(trace.failed) || r.Err?) && trace.stalled == old(trace.stalled)
      ensures r.Err? ==> taken == old(taken) && trace.events == old(trace.events)
      ensures r.Ok? && r.value == 0 ==>
                taken == old(taken) == |stream| && trace.events == old(trace.events) + [SourceEnded]
      ensures r.Ok? && r.value > 0 ==>
                && r.value <= buffer.Length && taken == old(taken) + r.value
                && buffer[..r.value] == stream[old(taken)..taken]
                && trace.events == old(trace.events) + [Consumed(stream[old(taken)..taken])]
    {
      if * {
        trace.failed := true;
        return Err;
      }
      if taken == |stream| {
        trace.events := trace.events + [SourceEnded];
        return Ok(0);
      }
      var n: nat :| 0 < n <= buffer.Length && taken + n <= |stream|;
      forall i | 0 <= i < n {
        buffer[i] := stream[taken + i];
      }
      taken := taken + n;
      trace.events := trace.events + [Consumed(stream[taken - n..taken])];
      r := Ok(n);
    }
  }

  /** The writing half of a socket. */
  class Sink {
    const trace: Trace
    var received: seq<Byte>
    var shut: bool

    constructor (trace: Trace)
      ensures this.trace == trace && received == [] && !shut
    {
      this.trace, received, shut := trace, [], false;
    }

    /** `write_all`: everything, or an error after some prefix. */
    method WriteAll(data: seq<Byte>) returns (r: Io<()>)
      requires data != []
      modifies this, trace
      ensures shut == old(shut)
      ensures trace.failed == (old(trace.failed) || r.Err?) && trace.stalled == old(trace.stalled)
      ensures exists n: nat | n <= |data| && (r.Ok? ==> n == |data|) ::
                && received == old(received) + data[..n]
                && trace.events == old(trace.events) + (if n == 0 then [] else [Delivered(data[..n])])
    {
      var n: nat :| n <= |data|;
      received := received + data[..n];
      trace.events := trace.events + (if n == 0 then [] else [Delivered(data[..n])]);
      r := if n == |data| then Ok(()) else Err;
      trace.failed := trace.failed || r.Err?;
    }

    method Shutdown() returns (r: Io<()>)
      modifies this, trace
      ensures received == old(received)
      ensures trace.failed == (old(trace.failed) || r.Err?) && trace.stalled == old(trace.stalled)
      ensures r.Err? ==> shut == old(shut) && trace.events == old(trace.events)
      ensures r.Ok? ==> shut && trace.events == old(trace.events) + [WriteShutDown]
    {
      if * {
        trace.failed := true;
        return Err;
      }
      shut := true;
      trace.events := trace.events + [WriteShutDown];
      r := Ok(());
    }
  }

  /** A kernel pipe, with the two calls of splice(2) that move bytes into it and out of it. */
  class Pipe {
    const trace: Trace
    var contents: seq<Byte>

    constructor (trace: Trace)
      ensures this.trace == trace && contents == []
    {
      this.trace, contents := trace, [];
    }

    /** Socket to pipe: 0 only at the end of the stream, otherwise some bytes, never more than `length`. */
    method Fill(source: Source, length: nat) returns (r: Io<nat>)
      requires source.Valid() && source.trace == trace && length > 0
      modifies this, source, trace
      ensures source.Valid()
      ensures trace.failed == (old(trace.failed) || r.Err?) && trace.stalled == old(trace.stalled)
      ensures r.Err? ==>
                source.taken == old(source.taken) && contents == old(contents) && trace.events == old(trace.events)
      ensures r.Ok? && r.value == 0 ==>
                && source.taken == old(source.taken) == |source.stream| && contents == old(contents)
                && trace.events == old(trace.events) + [SourceEnded]
      ensures r.Ok? && r.value > 0 ==>
                && r.value <= length && source.taken == old(source.taken) + r.value
                && contents == old(contents) + source.stream[old(source.taken)..source.taken]
                && trace.events == old(trace.events) + [Consumed(source.stream[old(source.taken)..source.taken])]
    {
      if * {
        trace.failed := true;
        return Err;
      }
      if source.taken == |source.stream| {
        trace.events := trace.events + [SourceEnded];
        return Ok(0);
      }
      var n: nat :| 0 < n <= length && source.taken + n <= |source.stream|;
      var moved := source.stream[source.taken..source.taken + n];
      source.taken := source.taken + n;
      contents := contents + moved;
      trace.events := trace.events + [Consumed(moved)];
      r := Ok(n);
    }

    /** Pipe to socket: some prefix of the contents, possibly none. */
    method Drain(destination: Sink, length: nat) returns (r: Io<nat>)
      requires destination.trace == trace && length <= |contents|
      modifies this, destination, trace
      ensures destination.shut == old(destination.shut)
      ensures trace.failed == (old(trace.failed) || r.Err?)
      ensures trace.stalled == (old(trace.stalled) || r == Ok(0))
      ensures var n := if r.Ok? then r.value else 0;
              && n <= length
              && contents == old(contents)[n..]
              && destination.received == old(destination.received) + old(contents)[..n]
              && trace.events == old(trace.events) + (if n == 0 then [] else [Delivered(old(contents)[..n])])
    {
      if * {
        trace.failed := true;
        return Err;
      }
      var n: nat :| n <= length;
      trace.stalled := trace.stalled || n == 0;
      destination.received := destination.received + contents[..n];
      trace.events := trace.events + (if n == 0 then [] else [Delivered(contents[..n])]);
      contents := contents[n..];
      r := Ok(n);
    }
  }

  /** `taken` bytes of the stream were consumed and `sent` of them delivered. */
  ghost predicate At(stream: seq<Byte>, window: nat, events: seq<Event>, taken: nat, sent: nat, unreported: bool) {
    && sent <= taken <= |stream|
    && ObserveAll(stream, window, events) == Some(Direction(stream[..taken], stream[..sent], false, false, unreported))
    && Deliveries(events) == stream[..sent]
  }

  lemma Consumes(stream: seq<Byte>, window: nat, events: seq<Event>, taken: nat, sent: nat, n: nat)
    requires At(stream, window, events, taken, sent, false)
    requires 0 < n && taken + n <= |stream| && taken + n <= sent + window
    ensures At(stream, window, events + [Consumed(stream[taken..taken + n])], taken + n, sent, false)
  {
    ObserveOneMore(stream, window, events, Consumed(stream[taken..taken + n]));
    assert stream[..taken] + stream[taken..taken + n] == stream[..taken + n];
    assert (events + [Consumed(stream[taken..taken + n])])[..|events|] == events;
  }

  lemma Delivers(stream: seq<Byte>, window: nat, events: seq<Event>, taken: nat, sent: nat, n: nat)
    requires At(stream, window, events, taken, sent, false)
    requires sent + n <= taken
    ensures At(stream, window, events + (if n == 0 then [] else [Delivered(stream[sent..sent + n])]), taken, sent + n,
            n > 0)
  {
    if n == 0 {
      assert events + [] == events;
    } else {
      ObserveOneMore(stream, window, events, Delivered(stream[sent..sent + n]));
      assert stream[..sent] + stream[sent..sent + n] == stream[..sent + n];
      assert (events + [Delivered(stream[sent..sent + n])])[..|events|] == events;
    }
  }

  lemma Notifies(stream: seq<Byte>, window: nat, events: seq<Event>, taken: nat, sent: nat)
    requires At(stream, window, events, taken, sent, true)
    ensures At(stream, window, events + [Notified], taken, sent, false)
  {
    ObserveOneMore(stream, window, events, Notified);
    assert (events + [Notified])[..|events|] == events;
  }

  lemma Ends(stream: seq<Byte>, window: nat, events: seq<Event>)
    requires At(stream, window, events, |stream|, |stream|, false)
    ensures Forwards(stream, window, events + [SourceEnded], Err)
    ensures Forwards(stream, window, events + [SourceEnded] + [WriteShutDown], Ok(|stream|))
    ensures Deliveries(events + [SourceEnded]) == Deliveries(events + [SourceEnded] + [WriteShutDown]) == stream
  {
    ObserveOneMore(stream, window, events, SourceEnded);
    ObserveOneMore(stream, window, events + [SourceEnded], WriteShutDown);
    assert (events + [SourceEnded])[..|events|] == events;
    assert (events + [SourceEnded] + [WriteShutDown])[..|events| + 1] == events + [SourceEnded];
  }

  /** The user-space loop.  It fails only if a call has failed: otherwise it delivers the whole stream, shuts the write
      side and returns the length. */
  method CopyDirection(reader: Source, writer: Sink, buffer: array<Byte>, activity: Trace) returns (r: Io<nat>)
    requires buffer.Length > 0
    requires reader.trace == writer.trace == activity && activity.events == []
    requires reader.taken == 0 && writer.received == [] && !writer.shut && !activity.failed
    modifies reader, writer, buffer, activity
    ensures Forwards(reader.stream, buffer.Length, activity.events, r)
    ensures writer.received == Deliveries(activity.events) && (writer.shut <==> r.Ok?)
    ensures r.Err? <==> activity.failed
  {
    ghost var stream, window := reader.stream, buffer.Length;
    var copied: nat := 0;
    while true
      invariant At(stream, window, activity.events, reader.taken, copied, false)
      invariant copied == reader.taken && writer.received == stream[..copied] && !writer.shut && !activity.failed
      decreases |stream| - reader.taken
    {
      ghost var events := activity.events;
      var read := reader.Read(buffer);
      if read.Err? {
        return Err;
      }
      if read.value == 0 {
        Ends(stream, window, events);
        var shutdown := writer.Shutdown();
        return if shutdown.Ok? then Ok(copied) else Err;
      }
      Consumes(stream, window, events, copied, copied, read.value);
      ghost var consumed := activity.events;
      ghost var received := writer.received;
      var data := buffer[..read.value];
      var written := writer.WriteAll(data);
      ghost var n: nat :| n <= |data| && (written.Ok? ==> n == |data|) && writer.received == received + data[..n]
                          && activity.events == consumed + (if n == 0 then [] else [Delivered(data[..n])]);
      assert data[..n] == stream[copied..copied + n];
      Delivers(stream, window, consumed, reader.taken, copied, n);
      if written.Err? {
        return Err;
      }
      copied := copied + read.value;
      Notifies(stream, window, activity.events, reader.taken, copied);
      activity.Notify();
    }
  }

  /** The inner loop of `SpliceDirection`: drain what one fill put into the pipe. */
  method DrainPending(destination: Sink, pipe: Pipe, pending: nat, activity: Trace,
                      ghost stream: seq<Byte>, ghost taken: nat)
    returns (r: Io<nat>, ghost sent: nat, ghost unreported: bool)
    requires destination.trace == pipe.trace == activity && !activity.failed && !activity.stalled
    requires pending <= taken
    requires At(stream, SPLICE_CHUNK_SIZE, activity.events, taken, taken - pending, false)
    requires destination.received == stream[..taken - pending] && pipe.contents == stream[taken - pending..taken]
    modifies destination, pipe, activity
    ensures destination.shut == old(destination.shut)
    ensures At(stream, SPLICE_CHUNK_SIZE, activity.events, taken, sent, unreported)
    ensures destination.received == stream[..sent] && pipe.contents == stream[sent..taken]
    ensures r.Ok? ==> sent == taken && !unreported && r.value == pending
    ensures r.Err? <==> activity.failed || activity.stalled
  {
    var left, copied := pending, 0;
    sent, unreported := taken - pending, false;
    while left > 0
      invariant left + copied == pending && sent == taken - left && !unreported
      invariant At(stream, SPLICE_CHUNK_SIZE, activity.events, taken, sent, false)
      invariant destination.received == stream[..sent] && pipe.contents == stream[sent..taken]
      invariant destination.shut == old(destination.shut) && !activity.failed && !activity.stalled
    {
      ghost var events := activity.events;
      var written := pipe.Drain(destination, left);
      ghost var n := if written.Ok? then written.value else 0;
      assert stream[sent..taken][..n] == stream[sent..sent + n];
      Delivers(stream, SPLICE_CHUNK_SIZE, events, taken, sent, n);
      sent, unreported := sent + n, n > 0;
      if written.Err? || written.value == 0 {
        r := Err;
        return;
      }
      left, copied := left - written.value, copied + written.value;
      Notifies(stream, SPLICE_CHUNK_SIZE, activity.events, taken, sent);
      activity.Notify();
      unreported := false;
    }
    r := Ok(copied);
  }

  /** The kernel-pipe loop: fill the pipe, then drain it completely before the next fill.  It fails only if a call has
      failed or a splice out of the pipe has moved nothing. */
  method SpliceDirection(source: Source, destination: Sink, pipe: Pipe, activity: Trace) returns (r: Io<nat>)
    requires source.trace == destination.trace == pipe.trace == activity && activity.events == []
    requires source.taken == 0 && destination.received == [] && !destination.shut && pipe.contents == []
    requires !activity.failed && !activity.stalled
    modifies source, destination, pipe, activity
    ensures Forwards(source.stream, SPLICE_CHUNK_SIZE, activity.events, r)
    ensures destination.received == Deliveries(activity.events) && (destination.shut <==> r.Ok?)
    ensures source.Valid() && destination.received + pipe.contents == source.stream[..source.taken]
    ensures r.Ok? ==> pipe.contents == []
    ensures r.Err? <==> activity.failed || activity.stalled
  {
    ghost var stream := source.stream;
    var copied: nat := 0;
    while true
      invariant At(stream, SPLICE_CHUNK_SIZE, activity.events, source.taken, copied, false)
      invariant copied == source.taken && destination.received == stream[..copied] && pipe.contents == []
      invariant !destination.shut && !activity.failed && !activity.stalled
      decreases |stream| - source.taken
    {
      ghost var events := activity.events;
      var moved := pipe.Fill(source, SPLICE_CHUNK_SIZE);
      if moved.Err? {
        return Err;
      }
      if moved.value == 0 {
        Ends(stream, SPLICE_CHUNK_SIZE, events);
        var shutdown := destination.Shutdown();
        return if shutdown.Ok? then Ok(copied) else Err;
      }
      Consumes(stream, SPLICE_CHUNK_SIZE, events, copied, copied, moved.value);
      var drained, sent, unreported := DrainPending(destination, pipe, moved.value, activity, stream, source.taken);
      if drained.Err? {
        return Err;
      }
      copied := copied + drained.value;
    }
  }
}

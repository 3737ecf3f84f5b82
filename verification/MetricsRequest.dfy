/** Reading a metrics request that arrives in fragments, and the status it is answered with. */
module MetricsRequest {
  import opened Wrappers
  import opened Bytes
  import opened BearerToken

  const REQUEST_SIZE: nat := 4 * 1024

  /** `windows(4).any(..)`: the blank line that ends the header section. */
  predicate EndsAt(s: seq<Byte>, i: nat) {
    i + 4 <= |s| && s[i..i + 4] == [CR, LF, CR, LF]
  }

  predicate HasTerminator(s: seq<Byte>) {
    exists i: nat | i < |s| :: EndsAt(s, i)
  }

  /** A connection whose peer sends `data` and then closes; every read fails or returns a fragment of unpredictable
      size. */
  class Stream {
    const data: seq<Byte>
    var taken: nat
    /** The sizes of the fragments read so far, for talking about them. */
    ghost var fragments: seq<nat>
    /** A read has failed. */
    ghost var failed: bool

    constructor (data: seq<Byte>)
      ensures this.data == data && taken == 0 && fragments == [] && !failed
    {
      this.data, taken, fragments, failed := data, 0, [], false;
    }

    ghost predicate Valid()
      reads this
    {
      taken <= |data|
    }

    /** Reads into `buffer[from..]`; 0 when there is no room or the peer has closed. */
    method Read(buffer: array<Byte>, from: nat) returns (r: Io<nat>)
      requires Valid() && from <= buffer.Length
      modifies this, buffer
      ensures Valid() && buffer[..from] == old(buffer[..from]) && failed == (old(failed) || r.Err?)
      ensures r.Err? ==> taken == old(taken) && fragments == old(fragments)
      ensures r.Ok? ==>
                && taken == old(taken) + r.value && from + r.value <= buffer.Length
                && (r.value == 0 <==> from == buffer.Length || old(taken) == |data|)
                && buffer[from..from + r.value] == data[old(taken)..taken]
                && fragments == old(fragments) + [r.value]
    {
      if * {
        failed := true;
        return Err;
      }
      var n: nat := 0;
      if from < buffer.Length && taken < |data| {
        n :| 0 < n <= buffer.Length - from && taken + n <= |data|;
      }
      forall i | 0 <= i < n {
        buffer[from + i] := data[taken + i];
      }
      taken := taken + n;
      fragments := fragments + [n];
      r := Ok(n);
    }
  }

  function Min(a: nat, b: nat): nat { if a < b then a else b }

  /** What a read of `data` into a buffer of `capacity` bytes may return: complete exactly when the part of the data
      that fits has a terminator; then the terminator was read, and otherwise everything that fits was. */
  ghost predicate MayRead(data: seq<Byte>, capacity: nat, size: nat, complete: bool) {
    && size <= Min(|data|, capacity)
    && (complete <==> HasTerminator(data[..Min(|data|, capacity)]))
    && (complete <==> HasTerminator(data[..size]))
    && (!complete ==> size == Min(|data|, capacity))
  }

  /** For every fragmentation: what is read is a prefix of the data, and it is complete exactly when the part of the
      data that fits the buffer has a terminator.  Reading stops with the first fragment that completes one. */
  method ReadMetricsRequest(stream: Stream, request: array<Byte>) returns (r: Io<(nat, bool)>)
    requires stream.Valid() && stream.taken == 0 && stream.fragments == [] && !stream.failed
    modifies stream, request
    ensures stream.taken <= request.Length && stream.taken <= |stream.data|
    ensures request[..stream.taken] == stream.data[..stream.taken]
    ensures r.Ok? ==> r.value.0 == stream.taken && MayRead(stream.data, request.Length, r.value.0, r.value.1)
    ensures r.Ok? && r.value.1 ==> StoppedEarly(stream.data, stream.taken, stream.fragments)
    ensures r.Err? ==> !HasTerminator(stream.data[..stream.taken])
    ensures r.Err? <==> stream.failed
  {
    var size := 0;
    while true
      invariant size <= request.Length && size == stream.taken <= |stream.data|
      invariant request[..size] == stream.data[..size] && !stream.failed
      invariant size > 0 ==> StoppedEarly(stream.data, size, stream.fragments)
      decreases request.Length - size
    {
      if HasTerminator(request[..size]) {
        TerminatorPersists(stream.data[..size], stream.data[..Min(|stream.data|, request.Length)]);
        return Ok((size, true));
      }
      ghost var before := size;
      var read := stream.Read(request, size);
      if read.Err? {
        return Err;
      }
      if read.value == 0 {
        return Ok((size, false));
      }
      size := size + read.value;
      assert request[..size] == request[..before] + request[before..size];
    }
  }

  /** Without the last fragment there was no terminator yet. */
  ghost predicate StoppedEarly(data: seq<Byte>, size: nat, fragments: seq<nat>)
    requires size <= |data|
  {
    && fragments != [] && fragments[|fragments| - 1] <= size
    && !HasTerminator(data[..size - fragments[|fragments| - 1]])
  }

  lemma TerminatorPersists(s: seq<Byte>, t: seq<Byte>)
    requires s <= t && HasTerminator(s)
    ensures HasTerminator(t)
  {
    var i: nat :| i < |s| && EndsAt(s, i);
    assert t[i..i + 4] == s[i..i + 4];
    assert EndsAt(t, i);
  }

  // ---------------------------------------------------------------------------------------------
  // Status
  // ---------------------------------------------------------------------------------------------

  datatype Status = Unauthorized | BadRequest | Success | NotFound

  /** "GET /metrics " */
  const METRICS_LINE: seq<Byte> := [71, 69, 84, 32, 47, 109, 101, 116, 114, 105, 99, 115, 32]

  function RequestLine(request: seq<Byte>): seq<Byte> {
    Lines(request)[0]
  }

  /** The branches of `serve_metrics_connection`, in their order. */
  function StatusOf(request: seq<Byte>, complete: bool, token: Option<seq<Byte>>): Status {
    if token.Some? && !HasValidBearerToken(request, token.value) then Unauthorized
    else if !complete then BadRequest
    else if METRICS_LINE <= RequestLine(request) then Success
    else NotFound
  }

  predicate IsAuthorized(request: seq<Byte>, token: Option<seq<Byte>>) {
    token == None || HasValidBearerToken(request, token.value)
  }

  lemma {:induction false} PrefixOfFirstLine(s: seq<Byte>, p: seq<Byte>)
    requires LF !in p
    ensures p <= Lines(s)[0] <==> p <= s
    decreases |s|
  {
    if p == [] || s == [] {
    } else {
      PrefixOfFirstLine(s[1..], p[1..]);
      assert s == [s[0]] + s[1..] && p == [p[0]] + p[1..];
    }
  }

  /** What each status means, in terms of what was read. */
  lemma StatusMeans(request: seq<Byte>, complete: bool, token: Option<seq<Byte>>)
    ensures var asksForMetrics := Ascii("GET /metrics ") <= request;
            StatusOf(request, complete, token) ==
            if !IsAuthorized(request, token) then Unauthorized
            else if !complete then BadRequest
            else if asksForMetrics then Success
            else NotFound
  {
    assert METRICS_LINE == Ascii("GET /metrics ");
    assert LF !in METRICS_LINE;
    PrefixOfFirstLine(request, METRICS_LINE);
  }

  /** A printed request has its only blank line at its end. */
  lemma {:induction false} BlankOnlyAtEnd(line: seq<Byte>, headers: seq<Header>, i: nat)
    requires LF !in line && forall h | h in headers :: WellFormed(h)
    requires EndsAt(PrintRequest(line, headers), i)
    ensures i + 4 == |PrintRequest(line, headers)|
    decreases |headers|
  {
    var data := PrintRequest(line, headers);
    assert data == line + [CR, LF] + PrintHeaders(headers);
    assert data[i..i + 4][1] == data[i + 1] == LF && data[i..i + 4][3] == data[i + 3] == LF;
    if headers == [] {
      assert data == line + [CR, LF, CR, LF];
    } else {
      var first := PrintHeader(headers[0]);
      var tail := PrintRequest(first, headers[1..]);
      assert PrintHeaders(headers) == tail;
      assert data == line + [CR, LF] + tail;
      assert headers[0] in headers;
      HeaderHasNoLineFeed(headers[0]);
      BlankNotBefore(line, first, tail, data, i);
      assert data[i..i + 4] == tail[i - |line| - 2..i - |line| + 2];
      BlankOnlyAtEnd(first, headers[1..], i - |line| - 2);
    }
  }

  lemma BlankNotBefore(line: seq<Byte>, first: seq<Byte>, tail: seq<Byte>, data: seq<Byte>, i: nat)
    requires LF !in line && LF !in first && first != [] && first + [CR] <= tail && data == line + [CR, LF] + tail
    requires i + 4 <= |data| && data[i + 1] == LF && data[i + 3] == LF
    ensures i >= |line| + 2
  {
  }

  lemma HeaderHasNoLineFeed(h: Header)
    requires WellFormed(h)
    ensures LF !in PrintHeader(h) && PrintHeader(h) != []
  {
  }

  /** A scrape with its credential gets the metrics, however it is fragmented: every request that asks for them, is not
      longer than the buffer, and has a header that carries the token. */
  lemma ScrapeSucceeds(
      data: seq<Byte>, version: seq<Byte>, headers: seq<Header>, token: seq<Byte>, size: nat, complete: bool)
    requires data == PrintRequest(Ascii("GET /metrics ") + version, headers) && |data| <= 4096
    requires LF !in version && forall h | h in headers :: WellFormed(h)
    requires exists h | h in headers :: Authorizes(h, token)
    requires MayRead(data, REQUEST_SIZE, size, complete)
    ensures StatusOf(data[..size], complete, Some(token)) == Success
  {
    var line := Ascii("GET /metrics ") + version;
    assert LF !in line;
    PrintedIsReadWhole(line, headers, size, complete);
    assert data[..size] == data == Ascii("GET /metrics ") + (version + [CR, LF] + PrintHeaders(headers));
    ScrapeIsAuthorized(data, line, headers, token);
    AuthorizedScrape(data, token);
  }

  lemma ScrapeIsAuthorized(data: seq<Byte>, line: seq<Byte>, headers: seq<Header>, token: seq<Byte>)
    requires data == PrintRequest(line, headers) && LF !in line
    requires (forall h | h in headers :: WellFormed(h)) && exists h | h in headers :: Authorizes(h, token)
    ensures HasValidBearerToken(data, token)
  {
    AuthorizedIffSomeHeader(line, headers, token);
  }

  lemma AuthorizedScrape(data: seq<Byte>, token: seq<Byte>)
    requires Ascii("GET /metrics ") <= data && HasValidBearerToken(data, token)
    ensures StatusOf(data, true, Some(token)) == Success
  {
    StatusMeans(data, true, Some(token));
  }

  lemma PrintedIsReadWhole(line: seq<Byte>, headers: seq<Header>, size: nat, complete: bool)
    requires LF !in line && forall h | h in headers :: WellFormed(h)
    requires |PrintRequest(line, headers)| <= 4096
    requires MayRead(PrintRequest(line, headers), REQUEST_SIZE, size, complete)
    ensures complete && size == |PrintRequest(line, headers)|
  {
    var data := PrintRequest(line, headers);
    PrintedTerminates(line, headers);
    assert data[..|data|] == data;
    var i: nat :| i < size && EndsAt(data[..size], i);
    assert data[..size][i..i + 4] == data[i..i + 4];
    BlankOnlyAtEnd(line, headers, i);
  }

  lemma {:induction false} PrintedTerminates(line: seq<Byte>, headers: seq<Header>)
    ensures HasTerminator(PrintRequest(line, headers))
    decreases |headers|
  {
    var data := PrintRequest(line, headers);
    if headers == [] {
      HeadTerminates(line);
    } else {
      var tail := PrintRequest(PrintHeader(headers[0]), headers[1..]);
      PrintedTerminates(PrintHeader(headers[0]), headers[1..]);
      assert data == (line + [CR, LF]) + tail;
      var i: nat :| i < |tail| && EndsAt(tail, i);
      assert data[|line| + 2 + i..|line| + 2 + i + 4] == tail[i..i + 4];
      assert EndsAt(data, |line| + 2 + i);
    }
  }

  /** A header section that does not end within 4096 bytes is a bad request. */
  lemma LongRequestIsBad(data: seq<Byte>, size: nat, complete: bool)
    requires |data| >= 4096 && !HasTerminator(data[..4096])
    requires MayRead(data, REQUEST_SIZE, size, complete)
    ensures size == 4096 && StatusOf(data[..size], complete, None) == BadRequest
  {
  }

  /** The first blank line is at `i`. */
  predicate FirstBlank(data: seq<Byte>, i: nat) {
    EndsAt(data, i) && forall j: nat | j < i :: !EndsAt(data, j)
  }

  /** The part of the data after position `i` that fits the buffer. */
  function After(data: seq<Byte>, i: nat): seq<Byte>
    requires i <= Min(|data|, REQUEST_SIZE)
  {
    data[i..Min(|data|, REQUEST_SIZE)]
  }

  /** The header section carries the token, or no later line does, wherever it is cut off. */
  predicate HeaderDecides(data: seq<Byte>, token: seq<Byte>) {
    forall i: nat | i + 4 <= Min(|data|, REQUEST_SIZE) && FirstBlank(data, i) ::
      HasValidBearerToken(data[..i + 4], token) || !SomeLinePrefix(Lines(After(data, i + 4)), Matching(token))
  }

  lemma CompleteReads(data: seq<Byte>, size: nat, i: nat)
    requires i + 4 <= Min(|data|, REQUEST_SIZE) && FirstBlank(data, i)
    ensures MayRead(data, REQUEST_SIZE, size, true) <==> i + 4 <= size <= Min(|data|, REQUEST_SIZE)
    ensures !MayRead(data, REQUEST_SIZE, size, false)
  {
    var all := data[..Min(|data|, REQUEST_SIZE)];
    assert all[i..i + 4] == data[i..i + 4];
    assert EndsAt(all, i);
    if size <= Min(|data|, REQUEST_SIZE) && HasTerminator(data[..size]) {
      var j: nat :| j < size && EndsAt(data[..size], j);
      assert data[..size][j..j + 4] == data[j..j + 4];
      assert EndsAt(data, j);
    }
    if i + 4 <= size <= Min(|data|, REQUEST_SIZE) {
      assert data[..size][i..i + 4] == data[i..i + 4];
      assert EndsAt(data[..size], i);
    }
  }

  lemma SomeLineAtCut(data: seq<Byte>, i: nat, n: nat, p: seq<Byte> -> bool)
    requires i + 4 <= Min(|data|, REQUEST_SIZE) && FirstBlank(data, i) && n <= |After(data, i + 4)| && !p([])
    ensures SomeFrom(Lines(data[..i + 4 + n]), 1, p) <==>
            SomeFrom(Lines(data[..i + 4]), 1, p) || SomeFrom(Lines(After(data, i + 4)[..n]), 0, p)
  {
    var head, more := data[..i + 4], After(data, i + 4)[..n];
    assert head[i + 3] == data[i..i + 4][3] == LF;
    assert data[..i + 4 + n] == head + more;
    SomeLineWithMore(head, more, p);
  }

  lemma FirstBlankExists(data: seq<Byte>, n: nat) returns (i: nat)
    requires n <= |data| && HasTerminator(data[..n])
    ensures i + 4 <= n && FirstBlank(data, i)
  {
    var j: nat :| j < n && EndsAt(data[..n], j);
    assert data[..n][j..j + 4] == data[j..j + 4];
    i := Earliest(data, j);
  }

  lemma Earliest(data: seq<Byte>, j: nat) returns (i: nat)
    requires EndsAt(data, j)
    ensures i <= j && FirstBlank(data, i)
  {
    if k: nat :| k < j && EndsAt(data, k) {
      i := Earliest(data, k);
    } else {
      i := j;
    }
  }

  /** If the header section decides, the status does not depend on how the request was fragmented ... */
  lemma StatusIgnoresFragmentation(
    data: seq<Byte>, size: nat, complete: bool, size': nat, complete': bool, token: seq<Byte>)
    requires MayRead(data, REQUEST_SIZE, size, complete) && MayRead(data, REQUEST_SIZE, size', complete')
    requires HeaderDecides(data, token)
    ensures StatusOf(data[..size], complete, Some(token)) == StatusOf(data[..size'], complete', Some(token))
  {
    if complete {
      var i := FirstBlankExists(data, size);
      CompleteReads(data, size', i);
      AuthorizedByHeader(data, size, i, token);
      AuthorizedByHeader(data, size', i, token);
      RequestLineIsFixed(data, size);
      RequestLineIsFixed(data, size');
    }
  }

  lemma AuthorizedByHeader(data: seq<Byte>, size: nat, i: nat, token: seq<Byte>)
    requires i + 4 <= size <= Min(|data|, REQUEST_SIZE) && FirstBlank(data, i) && HeaderDecides(data, token)
    ensures HasValidBearerToken(data[..size], token) <==> HasValidBearerToken(data[..i + 4], token)
  {
    AuthorizedIffSomeLine(data[..i + 4], token);
    AuthorizedIffSomeLine(data[..size], token);
    SomeLineInHeader(data, size, i, Matching(token));
  }

  lemma SomeLineInHeader(data: seq<Byte>, size: nat, i: nat, p: seq<Byte> -> bool)
    requires i + 4 <= size <= Min(|data|, REQUEST_SIZE) && FirstBlank(data, i) && !p([])
    requires SomeFrom(Lines(data[..i + 4]), 1, p) || !SomeLinePrefix(Lines(After(data, i + 4)), p)
    ensures SomeFrom(Lines(data[..size]), 1, p) <==> SomeFrom(Lines(data[..i + 4]), 1, p)
  {
    var tail, n := After(data, i + 4), size - i - 4;
    SomeLineAtCut(data, i, n, p);
    if SomeFrom(Lines(tail[..n]), 0, p) {
      CutIsPrefix(tail, n, p);
    }
  }

  ghost predicate FragmentationIrrelevant(data: seq<Byte>, token: seq<Byte>) {
    forall size: nat, complete: bool, size': nat, complete': bool |
      MayRead(data, REQUEST_SIZE, size, complete) && MayRead(data, REQUEST_SIZE, size', complete') ::
      StatusOf(data[..size], complete, Some(token)) == StatusOf(data[..size'], complete', Some(token))
  }

  /** ... and only then. */
  lemma FragmentationIrrelevantIff(data: seq<Byte>, token: seq<Byte>)
    ensures FragmentationIrrelevant(data, token) <==> HeaderDecides(data, token)
  {
    if HeaderDecides(data, token) {
      forall size: nat, complete: bool, size': nat, complete': bool |
        MayRead(data, REQUEST_SIZE, size, complete) && MayRead(data, REQUEST_SIZE, size', complete')
        ensures StatusOf(data[..size], complete, Some(token)) == StatusOf(data[..size'], complete', Some(token))
      {
        StatusIgnoresFragmentation(data, size, complete, size', complete', token);
      }
    } else {
      var i: nat :| i + 4 <= Min(|data|, REQUEST_SIZE) && FirstBlank(data, i)
        && !HasValidBearerToken(data[..i + 4], token) && SomeLinePrefix(Lines(After(data, i + 4)), Matching(token));
      AuthorizedIffSomeLine([], token);
      var size := CutThatMatters(data, i, Matching(token));
      AuthorizedIffSomeLine(data[..size], token);
      UnauthorizedIff(data[..i + 4], token);
      UnauthorizedIff(data[..size], token);
    }
  }

  /** Reading stops right after the blank line, or wherever a later line matches. */
  lemma CutThatMatters(data: seq<Byte>, i: nat, p: seq<Byte> -> bool) returns (size: nat)
    requires i + 4 <= Min(|data|, REQUEST_SIZE) && FirstBlank(data, i) && !p([])
    requires SomeLinePrefix(Lines(After(data, i + 4)), p)
    ensures MayRead(data, REQUEST_SIZE, i + 4, true) && MayRead(data, REQUEST_SIZE, size, true)
    ensures SomeFrom(Lines(data[..size]), 1, p)
  {
    var n := PrefixIsCut(After(data, i + 4), p);
    size := i + 4 + n;
    SomeLineAtCut(data, i, n, p);
    CompleteReads(data, i + 4, i);
    CompleteReads(data, size, i);
  }

  lemma UnauthorizedIff(request: seq<Byte>, token: seq<Byte>)
    ensures StatusOf(request, true, Some(token)) == Unauthorized <==> !HasValidBearerToken(request, token)
  {
  }

  /** Nothing comes after the first blank line. */
  predicate NothingFollows(data: seq<Byte>) {
    forall i: nat | i < |data| :: EndsAt(data, i) ==> i + 4 == |data|
  }

  /** Two cases a client can arrange: a request that ends with its header section, and one that carries the token
      there. */
  lemma HeaderDecidesWhen(data: seq<Byte>, token: seq<Byte>)
    requires NothingFollows(data) ||
             forall i: nat | i + 4 <= |data| && FirstBlank(data, i) :: HasValidBearerToken(data[..i + 4], token)
    ensures HeaderDecides(data, token)
  {
    if NothingFollows(data) {
      forall i: nat | i + 4 <= Min(|data|, REQUEST_SIZE) && FirstBlank(data, i)
        ensures !SomeLinePrefix(Lines(After(data, i + 4)), Matching(token))
      {
        assert EndsAt(data, i);
        assert After(data, i + 4) == [];
        assert Lines([]) == [[]];
      }
    }
  }

  /** Without a configured token the status never depends on it, whatever follows. */
  lemma StatusIgnoresFragmentationWithoutToken(data: seq<Byte>, size: nat, complete: bool, size': nat, complete': bool)
    requires MayRead(data, REQUEST_SIZE, size, complete) && MayRead(data, REQUEST_SIZE, size', complete')
    ensures StatusOf(data[..size], complete, None) == StatusOf(data[..size'], complete', None)
  {
    if complete {
      RequestLineIsFixed(data, size);
      RequestLineIsFixed(data, size');
    }
  }

  lemma RequestLineIsFixed(data: seq<Byte>, size: nat)
    requires size <= |data| && HasTerminator(data[..size])
    ensures RequestLine(data[..size]) == RequestLine(data)
  {
    var i: nat :| i < size && EndsAt(data[..size], i);
    assert data[..size][i + 1] == data[..size][i..i + 4][1] == LF;
    assert data[..size] + data[size..] == data;
    FirstLineOfPrefix(data[..size], data[size..]);
  }

  lemma {:induction false} FirstLineOfPrefix(s: seq<Byte>, more: seq<Byte>)
    requires LF in s
    ensures Lines(s)[0] == Lines(s + more)[0]
  {
    if s[0] != LF {
      assert (s + more)[1..] == s[1..] + more;
      FirstLineOfPrefix(s[1..], more);
    }
  }

  /** With a token the proviso is needed: the matcher looks at every line that happened to be read, the body
      included. */
  lemma BodyLinesCount(requestLine: seq<Byte>, body: seq<Header>, token: seq<Byte>)
    requires LF !in requestLine && forall h | h in body :: WellFormed(h)
    ensures HasValidBearerToken(PrintRequest(requestLine, []) + PrintHeaders(body), token) <==>
            exists h | h in body :: Authorizes(h, token)
  {
    var request := PrintRequest(requestLine, []) + PrintHeaders(body);
    var rest := Lines(PrintHeaders(body));
    LinesAfterBlank(requestLine, PrintHeaders(body));
    BlankDoesNotMatch(token);
    AuthorizedIffSomeLine(request, token);
    SomeOfFirst(requestLine + [CR], [[CR]] + rest, Matching(token));
    SomeOfFirst([CR], rest, Matching(token));
    HeadersMatch(body, token);
  }

  lemma LinesAfterBlank(requestLine: seq<Byte>, body: seq<Byte>)
    requires LF !in requestLine
    ensures Lines(PrintRequest(requestLine, []) + body) == [requestLine + [CR]] + ([[CR]] + Lines(body))
  {
    assert PrintRequest(requestLine, []) + body == (requestLine + [CR]) + [LF] + ([CR] + [LF] + body);
    LinesSplit(requestLine + [CR], [CR] + [LF] + body);
    LinesSplit([CR], body);
  }

  /** A request that carries its credential after the blank line is refused if the first fragment ends there, and not
      refused if everything arrives at once. */
  lemma StatusCanDependOnFragmentation(requestLine: seq<Byte>, h: Header, token: seq<Byte>)
    requires LF !in requestLine && WellFormed(h) && Authorizes(h, token)
    requires |requestLine| + |PrintHeaders([h])| + 4 <= REQUEST_SIZE
    ensures var head := PrintRequest(requestLine, []);
            var data := head + PrintHeaders([h]);
            && data[..|head|] == head
            && MayRead(data, REQUEST_SIZE, |head|, true) && MayRead(data, REQUEST_SIZE, |data|, true)
            && StatusOf(head, true, Some(token)) == Unauthorized
            && StatusOf(data, true, Some(token)) != Unauthorized
  {
    var head := PrintRequest(requestLine, []);
    var data := head + PrintHeaders([h]);
    assert data[..|head|] == head && data[..|data|] == data;
    HeadTerminates(requestLine);
    TerminatorPersists(head, data);
    AuthorizedIffSomeHeader(requestLine, [], token);
    BodyLinesCount(requestLine, [h], token);
  }

  lemma HeadTerminates(requestLine: seq<Byte>)
    ensures |PrintRequest(requestLine, [])| == |requestLine| + 4 && HasTerminator(PrintRequest(requestLine, []))
  {
    var head, i := PrintRequest(requestLine, []), |requestLine|;
    assert head == requestLine + [CR, LF, CR, LF];
    assert head[i..i + 4] == [CR, LF, CR, LF];
    assert EndsAt(head, i);
  }
}

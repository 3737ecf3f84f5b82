/** Matching the bearer token in the header section of a metrics request. */
module BearerToken {
  import opened Wrappers
  import opened Bytes

  /** `u8::is_ascii_whitespace`: tab, line feed, form feed, carriage return, space; not the vertical tab. */
  predicate IsSpace(b: Byte) {
    b == 9 || b == LF || b == 12 || b == CR || b == 32
  }

  predicate AllSpace(s: seq<Byte>) {
    forall i | 0 <= i < |s| :: IsSpace(s[i])
  }

  function Lower(b: Byte): Byte {
    if 65 <= b <= 90 then b + 32 else b
  }

  predicate EqualsIgnoringCase(a: seq<Byte>, b: seq<Byte>) {
    |a| == |b| && forall i | 0 <= i < |a| :: Lower(a[i]) == Lower(b[i])
  }

  /** The small letters of "authorization" and "bearer". */
  const AUTHORIZATION: seq<Byte> := [97, 117, 116, 104, 111, 114, 105, 122, 97, 116, 105, 111, 110]
  const BEARER: seq<Byte> := [98, 101, 97, 114, 101, 114]

  /** Two bytes are the same or the two forms of one letter. */
  predicate SameLetter(a: Byte, b: Byte) {
    a == b || (65 <= a <= 90 && b == a + 32) || (65 <= b <= 90 && a == b + 32)
  }

  predicate SameIgnoringCase(a: seq<Byte>, b: seq<Byte>) {
    |a| == |b| && forall i | 0 <= i < |a| :: SameLetter(a[i], b[i])
  }

  /** Folding to small letters compares exactly without regard to case. */
  lemma EqualsIgnoringCaseIff(a: seq<Byte>, b: seq<Byte>)
    ensures EqualsIgnoringCase(a, b) <==> SameIgnoringCase(a, b)
  {
    assert forall x: Byte, y: Byte :: Lower(x) == Lower(y) <==> SameLetter(x, y);
  }

  /** The names of the field and of the scheme, as they are usually spelled. */
  lemma NamesAreMatched(name: seq<Byte>, scheme: seq<Byte>)
    ensures EqualsIgnoringCase(name, AUTHORIZATION) <==> SameIgnoringCase(name, Ascii("Authorization"))
    ensures EqualsIgnoringCase(scheme, BEARER) <==> SameIgnoringCase(scheme, Ascii("Bearer"))
  {
    EqualsIgnoringCaseIff(name, Ascii("Authorization"));
    EqualsIgnoringCaseIff(scheme, Ascii("Bearer"));
    assert AUTHORIZATION == Ascii("authorization") && BEARER == Ascii("bearer");
    assert EqualsIgnoringCase(AUTHORIZATION, Ascii("Authorization"));
    assert EqualsIgnoringCase(BEARER, Ascii("Bearer"));
  }

  /** White space is the space, the tab, the two line ends and the form feed. */
  lemma SpaceIff(b: Byte)
    ensures IsSpace(b) <==> b as char in {' ', '\t', '\n', '\r', '\U{C}'}
  {
  }

  /** `split(|byte| *byte == b'\n')` */
  function Lines(s: seq<Byte>): (lines: seq<seq<Byte>>)
    ensures lines != []
  {
    if s == [] then [[]]
    else
      var rest := Lines(s[1..]);
      if s[0] == LF then [[]] + rest else [[s[0]] + rest[0]] + rest[1..]
  }

  function WithoutCr(line: seq<Byte>): seq<Byte> {
    if line != [] && line[|line| - 1] == CR then line[..|line| - 1] else line
  }

  function Position(s: seq<Byte>, b: Byte): (r: Option<nat>)
    ensures r.Some? ==> r.value < |s| && s[r.value] == b && forall j | 0 <= j < r.value :: s[j] != b
    ensures r.None? ==> b !in s
  {
    if s == [] then None
    else if s[0] == b then Some(0)
    else match Position(s[1..], b) case None => None case Some(i) => Some(i + 1)
  }

  /** The index of the first byte that is not white space, or the length. */
  function FirstNonSpace(s: seq<Byte>): (i: nat)
    ensures i <= |s| && (forall j | 0 <= j < i :: IsSpace(s[j])) && (i < |s| ==> !IsSpace(s[i]))
  {
    if s != [] && IsSpace(s[0]) then 1 + FirstNonSpace(s[1..]) else 0
  }

  /** One past the last byte that is not white space, or 0. */
  function LastNonSpace(s: seq<Byte>): (i: nat)
    ensures i <= |s| && (forall j | i <= j < |s| :: IsSpace(s[j])) && (i > 0 ==> !IsSpace(s[i - 1]))
  {
    if s != [] && IsSpace(s[|s| - 1]) then LastNonSpace(s[..|s| - 1]) else |s|
  }

  function TrimAscii(value: seq<Byte>): seq<Byte> {
    var start := FirstNonSpace(value);
    if start == |value| then []
    else
      var end := LastNonSpace(value);
      assert !IsSpace(value[start]);
      value[start..end]
  }

  predicate LineMatches(line: seq<Byte>, expected: seq<Byte>) {
    var line := WithoutCr(line);
    match Position(line, COLON)
    case None => false
    case Some(colon) =>
      EqualsIgnoringCase(line[..colon], AUTHORIZATION) && ValueMatches(line[colon + 1..], expected)
  }

  predicate ValueMatches(field: seq<Byte>, expected: seq<Byte>) {
    var value := TrimAscii(field);
    && |value| >= 7
    && EqualsIgnoringCase(value[..6], BEARER)
    && IsSpace(value[6])
    && TrimAscii(value[6..]) == expected
  }

  predicate HasValidBearerToken(request: seq<Byte>, expected: seq<Byte>) {
    exists i | 1 <= i < |Lines(request)| :: LineMatches(Lines(request)[i], expected)
  }

  // ---------------------------------------------------------------------------------------------
  // Field values
  // ---------------------------------------------------------------------------------------------

  /** Not empty, and nothing to trim at either end. */
  predicate Tight(s: seq<Byte>) {
    s != [] && !IsSpace(s[0]) && !IsSpace(s[|s| - 1])
  }

  lemma TrimAsciiSkips(before: seq<Byte>, s: seq<Byte>, after: seq<Byte>)
    requires AllSpace(before) && AllSpace(after) && Tight(s)
    ensures TrimAscii(before + s + after) == s
  {
    var all := before + s + after;
    var first, last := |before|, |before| + |s| - 1;
    assert all[first] == s[0] && all[last] == s[|s| - 1];
    assert forall j | 0 <= j < first :: all[j] == before[j];
    assert forall j | last < j < |all| :: all[j] == after[j - last - 1];
    assert FirstNonSpace(all) == first && LastNonSpace(all) == last + 1;
  }

  lemma TrimAsciiSplits(s: seq<Byte>) returns (before: seq<Byte>, after: seq<Byte>)
    ensures s == before + TrimAscii(s) + after && AllSpace(before) && AllSpace(after)
    ensures TrimAscii(s) == [] || Tight(TrimAscii(s))
  {
    var start := FirstNonSpace(s);
    if start == |s| {
      before, after := s, [];
      assert TrimAscii(s) == [];
    } else {
      var end := LastNonSpace(s);
      assert !IsSpace(s[start]);
      before, after := Cut(s, start, end);
      assert TrimAscii(s) == s[start..end];
    }
  }

  lemma Cut(s: seq<Byte>, start: nat, end: nat) returns (before: seq<Byte>, after: seq<Byte>)
    requires start < end <= |s| && !IsSpace(s[start]) && !IsSpace(s[end - 1])
    requires forall j | 0 <= j < start || end <= j < |s| :: IsSpace(s[j])
    ensures s == before + s[start..end] + after && AllSpace(before) && AllSpace(after) && Tight(s[start..end])
  {
    before, after := s[..start], s[end..];
  }

  /** `before`, the scheme, `gap`, the token, `after`. */
  predicate Parts(field: seq<Byte>, before: seq<Byte>, scheme: seq<Byte>, gap: seq<Byte>, token: seq<Byte>,
      after: seq<Byte>) {
    && AllSpace(before) && AllSpace(gap) && gap != [] && AllSpace(after)
    && SameIgnoringCase(scheme, Ascii("Bearer"))
    && field == before + (scheme + (gap + token)) + after
  }

  /** A credential of section 2.1 of RFC 6750 with any white space around and between its parts. */
  ghost predicate IsCredential(field: seq<Byte>, token: seq<Byte>) {
    Tight(token) &&
    exists before: seq<Byte>, scheme: seq<Byte>, gap: seq<Byte>, after: seq<Byte> ::
        Parts(field, before, scheme, gap, token, after)
  }

  lemma PartsMatch(field: seq<Byte>, before: seq<Byte>, scheme: seq<Byte>, gap: seq<Byte>, token: seq<Byte>,
      after: seq<Byte>)
    requires Tight(token) && Parts(field, before, scheme, gap, token, after)
    ensures ValueMatches(field, token)
  {
    var value := scheme + (gap + token);
    assert value[..6] == scheme && value[6..] == gap + token;
    NamesAreMatched([], scheme);
    assert Lower(scheme[0]) == 98;
    assert value[|value| - 1] == token[|token| - 1];
    TrimAsciiSkips(before, value, after);
    TrimAsciiSkips(gap, token, []);
    assert gap + token + [] == gap + token;
  }

  lemma MatchHasParts(field: seq<Byte>, token: seq<Byte>)
    returns (before: seq<Byte>, scheme: seq<Byte>, gap: seq<Byte>, after: seq<Byte>)
    requires ValueMatches(field, token)
    ensures Tight(token) && Parts(field, before, scheme, gap, token, after)
  {
    var value := TrimAscii(field);
    before, after := TrimAsciiSplits(field);
    scheme, gap := ValueHasParts(value, token);
    NamesAreMatched([], scheme);
    Reassemble(field, before, value, after, gap, token);
  }

  lemma ValueHasParts(value: seq<Byte>, token: seq<Byte>) returns (scheme: seq<Byte>, gap: seq<Byte>)
    requires |value| >= 7 && Tight(value) && IsSpace(value[6]) && TrimAscii(value[6..]) == token
    ensures scheme == value[..6] && value[6..] == gap + token
    ensures AllSpace(gap) && gap != [] && Tight(token)
  {
    var suffix := value[6..];
    assert suffix[0] == value[6] && suffix[|suffix| - 1] == value[|value| - 1];
    scheme := value[..6];
    gap := TrimmedSuffix(suffix, token);
  }

  lemma Reassemble(field: seq<Byte>, before: seq<Byte>, value: seq<Byte>, after: seq<Byte>, gap: seq<Byte>,
      token: seq<Byte>)
    requires field == before + value + after && |value| >= 6 && value[6..] == gap + token
    ensures field == before + (value[..6] + (gap + token)) + after
  {
    assert value == value[..6] + value[6..];
  }

  /** A suffix that starts with a space and ends with something else. */
  lemma TrimmedSuffix(s: seq<Byte>, token: seq<Byte>) returns (gap: seq<Byte>)
    requires s != [] && IsSpace(s[0]) && !IsSpace(s[|s| - 1]) && TrimAscii(s) == token
    ensures s == gap + token && AllSpace(gap) && gap != [] && Tight(token)
  {
    gap := s[..FirstNonSpace(s)];
    assert LastNonSpace(s) == |s|;
  }

  lemma ValueMatchesIffCredential(field: seq<Byte>, token: seq<Byte>)
    ensures ValueMatches(field, token) <==> IsCredential(field, token)
  {
    if ValueMatches(field, token) {
      var before, scheme, gap, after := MatchHasParts(field, token);
    }
    if IsCredential(field, token) {
      var before: seq<Byte>, scheme: seq<Byte>, gap: seq<Byte>, after: seq<Byte> :|
          Parts(field, before, scheme, gap, token, after);
      PartsMatch(field, before, scheme, gap, token, after);
    }
  }

  // ---------------------------------------------------------------------------------------------
  // Header sections
  // ---------------------------------------------------------------------------------------------

  datatype Header = Header(name: seq<Byte>, value: seq<Byte>)

  /** A field name has no colon, and neither part has a line feed. */
  predicate WellFormed(h: Header) {
    COLON !in h.name && LF !in h.name && LF !in h.value
  }

  function PrintHeader(h: Header): seq<Byte> {
    h.name + [COLON] + h.value
  }

  /** Header lines, each ended by CRLF, and the blank line. */
  function PrintHeaders(headers: seq<Header>): seq<Byte> {
    if headers == [] then [CR, LF] else PrintHeader(headers[0]) + [CR, LF] + PrintHeaders(headers[1..])
  }

  function PrintRequest(requestLine: seq<Byte>, headers: seq<Header>): seq<Byte> {
    requestLine + [CR, LF] + PrintHeaders(headers)
  }

  lemma {:induction false} LinesSplit(line: seq<Byte>, rest: seq<Byte>)
    requires LF !in line
    ensures Lines(line + [LF] + rest) == [line] + Lines(rest)
    decreases |line|
  {
    var s := line + [LF] + rest;
    if line == [] {
      assert s[1..] == rest;
    } else {
      assert s[1..] == line[1..] + [LF] + rest;
      LinesSplit(line[1..], rest);
      assert [s[0]] + line[1..] == line;
    }
  }

  predicate SomeFrom(items: seq<seq<Byte>>, from: nat, p: seq<Byte> -> bool) {
    exists i | from <= i < |items| :: p(items[i])
  }

  function Matching(token: seq<Byte>): seq<Byte> -> bool {
    line => LineMatches(line, token)
  }

  lemma SomeOfFirst(first: seq<Byte>, rest: seq<seq<Byte>>, p: seq<Byte> -> bool)
    ensures SomeFrom([first] + rest, 0, p) <==> p(first) || SomeFrom(rest, 0, p)
    ensures SomeFrom([first] + rest, 1, p) <==> SomeFrom(rest, 0, p)
  {
    var all := [first] + rest;
    assert forall i | 0 <= i < |rest| :: all[i + 1] == rest[i];
    if i :| 0 <= i < |rest| && p(rest[i]) {
      assert p(all[i + 1]);
    }
    if i :| 1 <= i < |all| && p(all[i]) {
      assert p(rest[i - 1]);
    }
    if p(first) {
      assert p(all[0]);
    }
  }

  ghost predicate Authorizes(h: Header, token: seq<Byte>) {
    SameIgnoringCase(h.name, Ascii("Authorization")) && IsCredential(h.value, token)
  }

  lemma HeaderLineMatches(h: Header, token: seq<Byte>)
    requires WellFormed(h)
    ensures LineMatches(PrintHeader(h) + [CR], token) <==> Authorizes(h, token)
  {
    var line := PrintHeader(h);
    assert WithoutCr(line + [CR]) == line;
    assert line[|h.name|] == COLON;
    assert forall j | 0 <= j < |h.name| :: line[j] == h.name[j];
    assert Position(line, COLON) == Some(|h.name|);
    assert line[..|h.name|] == h.name && line[|h.name| + 1..] == h.value;
    NamesAreMatched(h.name, []);
    ValueMatchesIffCredential(h.value, token);
  }

  /** The field a line is: what is before and after its first colon. */
  function FieldOf(line: seq<Byte>): Option<Header> {
    var text := WithoutCr(line);
    match Position(text, COLON)
    case None => None
    case Some(colon) => Some(Header(text[..colon], text[colon + 1..]))
  }

  predicate IsField(line: seq<Byte>, h: Header) {
    COLON !in h.name && WithoutCr(line) == PrintHeader(h)
  }

  lemma FieldOfIff(line: seq<Byte>, h: Header)
    ensures FieldOf(line) == Some(h) <==> IsField(line, h)
  {
    var text := WithoutCr(line);
    if IsField(line, h) {
      assert text[|h.name|] == COLON;
      assert forall j | 0 <= j < |h.name| :: text[j] == h.name[j];
      assert Position(text, COLON) == Some(|h.name|);
      assert text[..|h.name|] == h.name && text[|h.name| + 1..] == h.value;
    }
    if FieldOf(line) == Some(h) {
      assert text == PrintHeader(h);
    }
  }

  ghost function Authorizing(token: seq<Byte>): Header -> bool {
    h => Authorizes(h, token)
  }

  lemma LineMatchesField(line: seq<Byte>, token: seq<Byte>)
    ensures LineMatches(line, token) <==> FieldOf(line).Some? && Authorizes(FieldOf(line).value, token)
  {
    if FieldOf(line).Some? {
      NamesAreMatched(FieldOf(line).value.name, []);
      ValueMatchesIffCredential(FieldOf(line).value.value, token);
    }
  }

  /** The line is a field that `p` holds of; one without a colon is no field. */
  ghost predicate SomeField(line: seq<Byte>, p: Header -> bool) {
    exists h: Header :: IsField(line, h) && p(h)
  }

  lemma SomeFieldIff(line: seq<Byte>, p: Header -> bool)
    ensures SomeField(line, p) <==> FieldOf(line).Some? && p(FieldOf(line).value)
  {
    if FieldOf(line).Some? {
      FieldOfIff(line, FieldOf(line).value);
    }
    if h: Header :| IsField(line, h) && p(h) {
      FieldOfIff(line, h);
    }
  }

  lemma LineMatchesIff(line: seq<Byte>, token: seq<Byte>)
    ensures LineMatches(line, token) <==> SomeField(line, Authorizing(token))
  {
    LineMatchesField(line, token);
    SomeFieldIff(line, Authorizing(token));
  }

  ghost function FieldAuthorizing(token: seq<Byte>): seq<Byte> -> bool {
    line => SomeField(line, Authorizing(token))
  }

  lemma SameForSome(lines: seq<seq<Byte>>, from: nat, p: seq<Byte> -> bool, q: seq<Byte> -> bool)
    requires forall line :: p(line) <==> q(line)
    ensures SomeFrom(lines, from, p) <==> SomeFrom(lines, from, q)
  {
    if SomeFrom(lines, from, p) {
      var i :| from <= i < |lines| && p(lines[i]);
      assert q(lines[i]);
    }
    if SomeFrom(lines, from, q) {
      var i :| from <= i < |lines| && q(lines[i]);
      assert p(lines[i]);
    }
  }

  /** Whatever the bytes of a request are, it is authorized exactly when some line after the first is a field named
      Authorization, in any case, that carries the token. */
  lemma AuthorizedIffSomeField(request: seq<Byte>, token: seq<Byte>)
    ensures HasValidBearerToken(request, token) <==> SomeFrom(Lines(request), 1, FieldAuthorizing(token))
  {
    forall line ensures Matching(token)(line) <==> FieldAuthorizing(token)(line) {
      LineMatchesIff(line, token);
    }
    AuthorizedIffSomeLine(request, token);
    SameForSome(Lines(request), 1, Matching(token), FieldAuthorizing(token));
  }

  function Join(lines: seq<seq<Byte>>): seq<Byte>
    requires lines != []
  {
    if |lines| == 1 then lines[0] else lines[0] + [LF] + Join(lines[1..])
  }

  /** Lines are what is between the line feeds, and nothing is lost. */
  lemma {:induction false} LinesJoin(s: seq<Byte>)
    ensures Join(Lines(s)) == s
    ensures forall i | 0 <= i < |Lines(s)| :: LF !in Lines(s)[i]
  {
    if s == [] {
    } else {
      var lines, rest := Lines(s), Lines(s[1..]);
      LinesJoin(s[1..]);
      if s[0] == LF {
        assert lines[1..] == rest;
        assert [] + [LF] + Join(rest) == s;
      } else if |rest| == 1 {
        assert [s[0]] + rest[0] == s;
      } else {
        assert lines[1..] == rest[1..];
        assert [s[0]] + rest[0] + [LF] + Join(rest[1..]) == [s[0]] + s[1..];
      }
    }
  }

  /** The delimiters of the header section. */
  lemma Delimiters()
    ensures Ascii("\r\n") == [CR, LF] && Ascii(":") == [COLON]
  {
  }

  /** What clients send: the usual spelling, ... */
  lemma UsualSpelling(requestLine: seq<Byte>, token: seq<Byte>)
    requires LF !in requestLine && LF !in token && Tight(token)
    ensures HasValidBearerToken(
              PrintRequest(requestLine, [Header(Ascii("Authorization"), Ascii(" Bearer ") + token)]), token)
  {
    var value := Ascii(" Bearer ") + token;
    assert Ascii(" Bearer ") == Ascii(" ") + Ascii("Bearer") + Ascii(" ");
    assert value == Ascii(" ") + (Ascii("Bearer") + (Ascii(" ") + token)) + [];
    SpellingAuthorizes(requestLine, Ascii("Authorization"), Ascii(" "), Ascii("Bearer"), Ascii(" "), value, token);
  }

  /** ... and any other with the letters in another case, or with a tab. */
  lemma OtherSpelling(requestLine: seq<Byte>, token: seq<Byte>)
    requires LF !in requestLine && LF !in token && Tight(token)
    ensures HasValidBearerToken(
              PrintRequest(requestLine, [Header(Ascii("AUTHORIZATION"), Ascii("bearer\t") + token)]), token)
  {
    var value := Ascii("bearer\t") + token;
    assert Ascii("bearer\t") == Ascii("bearer") + Ascii("\t");
    assert value == [] + (Ascii("bearer") + (Ascii("\t") + token)) + [];
    SpellingAuthorizes(requestLine, Ascii("AUTHORIZATION"), [], Ascii("bearer"), Ascii("\t"), value, token);
  }

  lemma SpellingAuthorizes(
      requestLine: seq<Byte>, name: seq<Byte>, before: seq<Byte>, scheme: seq<Byte>, gap: seq<Byte>,
      value: seq<Byte>, token: seq<Byte>)
    requires LF !in requestLine && LF !in value && Tight(token)
    requires SameIgnoringCase(name, Ascii("Authorization")) && SameIgnoringCase(scheme, Ascii("Bearer"))
    requires AllSpace(before) && AllSpace(gap) && gap != [] && value == before + (scheme + (gap + token)) + []
    ensures HasValidBearerToken(PrintRequest(requestLine, [Header(name, value)]), token)
  {
    var h := Header(name, value);
    assert Parts(value, before, scheme, gap, token, []);
    LettersOnly(name, Ascii("Authorization"));
    AuthorizedIffSomeHeader(requestLine, [h], token);
    assert h in [h];
  }

  lemma LettersOnly(name: seq<Byte>, letters: seq<Byte>)
    requires SameIgnoringCase(name, letters)
    requires forall i | 0 <= i < |letters| :: 65 <= letters[i] <= 90 || 97 <= letters[i] <= 122
    ensures LF !in name && COLON !in name
  {
  }

  /** Among the lines of a header section, `p` holds of one exactly when it holds of one that is a header. */
  lemma {:induction false} SomeHeaderLine(headers: seq<Header>, p: seq<Byte> -> bool)
    requires (forall h | h in headers :: WellFormed(h)) && !p([]) && !p([CR])
    ensures SomeFrom(Lines(PrintHeaders(headers)), 0, p) <==> exists h | h in headers :: p(PrintHeader(h) + [CR])
  {
    if headers == [] {
      BlankLines();
    } else {
      var h, rest := headers[0], headers[1..];
      FirstHeaderLine(headers);
      SomeOfFirst(PrintHeader(h) + [CR], Lines(PrintHeaders(rest)), p);
      SomeHeaderLine(rest, p);
      assert headers == [h] + rest;
    }
  }

  lemma BlankLines()
    ensures Lines(PrintHeaders([])) == [[CR], []]
  {
    assert PrintHeaders([]) == [CR] + [LF] + [];
    LinesSplit([CR], []);
  }

  lemma BlankDoesNotMatch(token: seq<Byte>)
    ensures !Matching(token)([]) && !Matching(token)([CR])
  {
  }

  lemma HeadersMatch(headers: seq<Header>, token: seq<Byte>)
    requires forall h | h in headers :: WellFormed(h)
    ensures SomeFrom(Lines(PrintHeaders(headers)), 0, Matching(token)) <==>
            exists h | h in headers :: Authorizes(h, token)
  {
    BlankDoesNotMatch(token);
    SomeHeaderLine(headers, Matching(token));
    forall h | h in headers ensures Matching(token)(PrintHeader(h) + [CR]) <==> Authorizes(h, token) {
      HeaderLineMatches(h, token);
    }
  }

  lemma FirstHeaderLine(headers: seq<Header>)
    requires headers != [] && WellFormed(headers[0])
    ensures Lines(PrintHeaders(headers)) == [PrintHeader(headers[0]) + [CR]] + Lines(PrintHeaders(headers[1..]))
  {
    var line := PrintHeader(headers[0]) + [CR];
    assert PrintHeaders(headers) == line + [LF] + PrintHeaders(headers[1..]);
    assert LF !in line;
    LinesSplit(line, PrintHeaders(headers[1..]));
  }

  /** A printed request is authorized exactly when one of its headers carries the token: field name and scheme in any
      case, any white space inside the value, and nothing in the request line counts. */
  lemma AuthorizedIffSomeHeader(requestLine: seq<Byte>, headers: seq<Header>, token: seq<Byte>)
    requires LF !in requestLine && forall h | h in headers :: WellFormed(h)
    ensures HasValidBearerToken(PrintRequest(requestLine, headers), token) <==>
            exists h | h in headers :: Authorizes(h, token)
  {
    var request := PrintRequest(requestLine, headers);
    assert request == (requestLine + [CR]) + [LF] + PrintHeaders(headers);
    LinesSplit(requestLine + [CR], PrintHeaders(headers));
    AuthorizedIffSomeLine(request, token);
    SomeOfFirst(requestLine + [CR], Lines(PrintHeaders(headers)), Matching(token));
    HeadersMatch(headers, token);
  }

  // ---------------------------------------------------------------------------------------------
  // More bytes after a request
  // ---------------------------------------------------------------------------------------------

  /** Bytes after a line feed make lines of their own. */
  lemma {:induction false} LinesAppend(s: seq<Byte>, more: seq<Byte>)
    requires s != [] && s[|s| - 1] == LF
    ensures |Lines(s)| >= 2 && Lines(s)[|Lines(s)| - 1] == []
    ensures Continues(Lines(s), Lines(more), Lines(s + more))
    decreases |s|
  {
    if |s| == 1 {
      LinesOfLineFeed(s, more);
    } else {
      assert (s + more)[1..] == s[1..] + more;
      LinesAppend(s[1..], more);
      LinesPrepend(s[0], s[1..], more);
      assert [s[0]] + s[1..] == s && [s[0]] + (s[1..] + more) == s + more;
    }
  }

  /** `all` is `lines`, with `more` in the place of its last item. */
  predicate Continues(lines: seq<seq<Byte>>, more: seq<seq<Byte>>, all: seq<seq<Byte>>) {
    && lines != [] && |all| + 1 == |lines| + |more|
    && (forall j | 0 <= j < |lines| - 1 :: all[j] == lines[j])
    && (forall j | 0 <= j < |more| :: all[j + (|lines| - 1)] == more[j])
  }

  lemma LinesOfLineFeed(s: seq<Byte>, more: seq<Byte>)
    requires s == [LF]
    ensures |Lines(s)| == 2 && Lines(s)[1] == []
    ensures Continues(Lines(s), Lines(more), Lines(s + more))
  {
    assert s[1..] == [] && (s + more)[1..] == more;
    assert Lines([]) == [[]];
  }

  lemma ContinuesWithFirst(lines: seq<seq<Byte>>, more: seq<seq<Byte>>, all: seq<seq<Byte>>, x: seq<Byte>)
    requires Continues(lines, more, all)
    ensures Continues([x] + lines, more, [x] + all)
    ensures |lines| >= 2 ==> all != [] && Continues(lines[0 := x], more, all[0 := x])
  {
  }

  lemma LinesPrepend(b: Byte, s: seq<Byte>, more: seq<Byte>)
    requires |Lines(s)| >= 2 && Lines(s)[|Lines(s)| - 1] == [] && Continues(Lines(s), Lines(more), Lines(s + more))
    ensures |Lines([b] + s)| >= 2 && Lines([b] + s)[|Lines([b] + s)| - 1] == []
    ensures Continues(Lines([b] + s), Lines(more), Lines([b] + (s + more)))
  {
    LinesOfPrepended(b, s);
    LinesOfPrepended(b, s + more);
    PrependedContinues(b, Lines(s), Lines(more), Lines(s + more));
  }

  function Prepended(b: Byte, lines: seq<seq<Byte>>): seq<seq<Byte>>
    requires lines != []
  {
    if b == LF then [[]] + lines else [[b] + lines[0]] + lines[1..]
  }

  lemma FirstReplaced(lines: seq<seq<Byte>>, x: seq<Byte>)
    requires lines != []
    ensures lines[0 := x] == [x] + lines[1..]
  {
  }

  lemma PrependedContinues(b: Byte, lines: seq<seq<Byte>>, more: seq<seq<Byte>>, all: seq<seq<Byte>>)
    requires |lines| >= 2 && lines[|lines| - 1] == [] && Continues(lines, more, all) && all != []
    ensures |Prepended(b, lines)| >= 2 && Prepended(b, lines)[|Prepended(b, lines)| - 1] == []
    ensures Continues(Prepended(b, lines), more, Prepended(b, all))
  {
    assert all[0] == lines[0];
    FirstReplaced(lines, [b] + lines[0]);
    FirstReplaced(all, [b] + lines[0]);
    ContinuesWithFirst(lines, more, all, if b == LF then [] else [b] + lines[0]);
  }

  lemma LinesOfPrepended(b: Byte, s: seq<Byte>)
    ensures Lines([b] + s) == Prepended(b, Lines(s))
  {
    assert ([b] + s)[1..] == s;
  }

  lemma SomeContinued(
    lines: seq<seq<Byte>>, more: seq<seq<Byte>>, all: seq<seq<Byte>>, from: nat, p: seq<Byte> -> bool)
    requires Continues(lines, more, all) && from < |lines| && !p(lines[|lines| - 1])
    ensures SomeFrom(all, from, p) <==> SomeFrom(lines, from, p) || SomeFrom(more, 0, p)
  {
    var n := |lines| - 1;
    if i :| from <= i < n && p(lines[i]) {
      assert p(all[i]);
    }
    if i :| 0 <= i < |more| && p(more[i]) {
      assert p(all[i + n]);
    }
    if i :| from <= i < |all| && p(all[i]) {
      assert i < n ==> all[i] == lines[i];
      assert i >= n ==> all[(i - n) + n] == more[i - n];
    }
  }

  lemma AuthorizedIffSomeLine(request: seq<Byte>, token: seq<Byte>)
    ensures HasValidBearerToken(request, token) <==> SomeFrom(Lines(request), 1, Matching(token))
    ensures !Matching(token)([])
  {
  }

  /** What comes after a line feed can only add a line that matches. */
  lemma SomeLineWithMore(head: seq<Byte>, more: seq<Byte>, p: seq<Byte> -> bool)
    requires head != [] && head[|head| - 1] == LF && !p([])
    ensures SomeFrom(Lines(head + more), 1, p) <==> SomeFrom(Lines(head), 1, p) || SomeFrom(Lines(more), 0, p)
  {
    LinesAppend(head, more);
    SomeContinued(Lines(head), Lines(more), Lines(head + more), 1, p);
  }

  // ---------------------------------------------------------------------------------------------
  // Lines that are cut off
  // ---------------------------------------------------------------------------------------------

  predicate SomePrefix(line: seq<Byte>, p: seq<Byte> -> bool) {
    exists k | 0 <= k <= |line| :: p(line[..k])
  }

  predicate SomeLinePrefix(lines: seq<seq<Byte>>, p: seq<Byte> -> bool) {
    exists j | 0 <= j < |lines| :: SomePrefix(lines[j], p)
  }

  /** The lines of a prefix are prefixes of the lines. */
  lemma {:induction false} LinesOfPrefix(s: seq<Byte>, n: nat)
    requires n <= |s|
    ensures |Lines(s[..n])| <= |Lines(s)|
    ensures forall j | 0 <= j < |Lines(s[..n])| :: Lines(s[..n])[j] <= Lines(s)[j]
    decreases |s|
  {
    if n == 0 {
      assert Lines(s[..0]) == [[]];
    } else {
      assert s[..n][1..] == s[1..][..n - 1];
      LinesOfPrefix(s[1..], n - 1);
    }
  }

  /** Every line can be cut off everywhere. */
  lemma {:induction false} CutLine(s: seq<Byte>, j: nat, k: nat) returns (n: nat)
    requires j < |Lines(s)| && k <= |Lines(s)[j]|
    ensures n <= |s| && |Lines(s[..n])| == j + 1 && Lines(s[..n])[j] == Lines(s)[j][..k]
    decreases |s|
  {
    if j == 0 && k == 0 {
      n := 0;
    } else {
      var m := CutLine(s[1..], if s[0] == LF then j - 1 else j, if s[0] != LF && j == 0 then k - 1 else k);
      n := m + 1;
      assert s[..n][1..] == s[1..][..m];
    }
  }

  /** Cutting one of its lines off is cutting the text off somewhere, ... */
  lemma PrefixIsCut(text: seq<Byte>, p: seq<Byte> -> bool) returns (n: nat)
    requires SomeLinePrefix(Lines(text), p)
    ensures n <= |text| && SomeFrom(Lines(text[..n]), 0, p)
  {
    var j :| 0 <= j < |Lines(text)| && SomePrefix(Lines(text)[j], p);
    var k :| 0 <= k <= |Lines(text)[j]| && p(Lines(text)[j][..k]);
    n := CutLine(text, j, k);
  }

  /** ... and the other way around. */
  lemma CutIsPrefix(text: seq<Byte>, n: nat, p: seq<Byte> -> bool)
    requires n <= |text| && SomeFrom(Lines(text[..n]), 0, p)
    ensures SomeLinePrefix(Lines(text), p)
  {
    var cuts := Lines(text[..n]);
    var j :| 0 <= j < |cuts| && p(cuts[j]);
    LinesOfPrefix(text, n);
    assert Lines(text)[j][..|cuts[j]|] == cuts[j];
    assert SomePrefix(Lines(text)[j], p);
  }
}

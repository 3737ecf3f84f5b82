/** Parsing and printing of `host:port` endpoints. */
module Endpoint {
  import opened Wrappers
  import opened Text

  datatype EndpointError =
    | EmptyEndpoint | UnclosedBracket | MissingPort | UnbracketedIpv6 | InvalidPort | ZeroPort | EmptyHost | InvalidHost

  datatype Result<+T> = Ok(value: T) | Err(error: EndpointError)

  datatype EndpointFields = Endpoint(address: string, host: string, port: nat)

  function Format(host: string, port: nat): string {
    (if ':' in host then "[" + host + "]" else host) + ":" + Decimal(port)
  }

  /** Only `Parse` makes endpoints, and it derives the address from the other two fields. */
  type Endpoint = e: EndpointFields | e.port < 65536 && e.address == Format(e.host, e.port)
    witness Endpoint(Format("h", 1), "h", 1)

  /** `u16::from_str`: an optional plus sign, then digits; leading zeros are allowed. */
  function ParsePort(s: string): Option<nat> {
    var digits := WithoutPlus(s);
    if digits != [] && AllDigits(digits) && DigitsValue(digits) < 65536 then Some(DigitsValue(digits)) else None
  }

  function WithoutPlus(s: string): string {
    if s != [] && s[0] == '+' then s[1..] else s
  }

  /** Host and port text of a trimmed, nonempty value. */
  function Split(value: string): Result<(string, string)>
    requires value != []
  {
    if value[0] == '[' then
      var rest := value[1..];
      match Find(rest, ']')
      case None => Err(UnclosedBracket)
      case Some(close) =>
        var suffix := rest[close + 1..];
        if suffix != [] && suffix[0] == ':' then Ok((rest[..close], suffix[1..])) else Err(MissingPort)
    else
      match FindLast(value, ':')
      case None => Err(MissingPort)
      case Some(split) =>
        if ':' in value[..split] then Err(UnbracketedIpv6) else Ok((value[..split], value[split + 1..]))
  }

  predicate HasWhitespace(s: string) {
    exists i | 0 <= i < |s| :: IsWhitespace(s[i])
  }

  function Parse(text: string, allowEmptyHost: bool, allowPortZero: bool): Result<Endpoint> {
    var value := Trim(text);
    if value == [] then Err(EmptyEndpoint)
    else match Split(value)
         case Err(e) => Err(e)
         case Ok((host, portText)) =>
           match ParsePort(portText)
           case None => Err(InvalidPort)
           case Some(port) => ParseHost(host, port, allowEmptyHost, allowPortZero)
  }

  function ParseHost(host: string, port: nat, allowEmptyHost: bool, allowPortZero: bool): Result<Endpoint>
    requires port < 65536
  {
    if port == 0 && !allowPortZero then Err(ZeroPort)
    else if host == [] && !allowEmptyHost then Err(EmptyHost)
    else
      var h := if host == [] then "0.0.0.0" else host;
      if HasWhitespace(h) || h == "*" then Err(InvalidHost) else Ok(Endpoint(Format(h, port), h, port))
  }

  // ---------------------------------------------------------------------------------------------
  // Printing is injective
  // ---------------------------------------------------------------------------------------------

  lemma DecimalHasNo(n: nat, c: char)
    requires !IsDigit(c)
    ensures c !in Decimal(n)
  {
  }

  lemma LastColonSplits(left1: string, p1: nat, left2: string, p2: nat)
    requires left1 + ":" + Decimal(p1) == left2 + ":" + Decimal(p2)
    ensures left1 == left2 && p1 == p2
  {
    var text := left1 + ":" + Decimal(p1);
    DecimalHasNo(p1, ':');
    DecimalHasNo(p2, ':');
    FindLastAt(left1, ':', Decimal(p1));
    FindLastAt(left2, ':', Decimal(p2));
    assert left1 == text[..|left1|] == left2;
    assert Decimal(p1) == text[|left1| + 1..] == Decimal(p2);
    DecimalInjective(p1, p2);
  }

  /** The address determines host and port, for any hosts whatever. */
  lemma FormatInjective(h1: string, p1: nat, h2: string, p2: nat)
    requires Format(h1, p1) == Format(h2, p2)
    ensures h1 == h2 && p1 == p2
  {
    var left1 := if ':' in h1 then "[" + h1 + "]" else h1;
    var left2 := if ':' in h2 then "[" + h2 + "]" else h2;
    LastColonSplits(left1, p1, left2, p2);
    assert ':' in h1 ==> left1[1..|left1| - 1] == h1 && ':' in left1;
    assert ':' in h2 ==> left2[1..|left2| - 1] == h2 && ':' in left2;
  }

  // ---------------------------------------------------------------------------------------------
  // What the parser accepts
  // ---------------------------------------------------------------------------------------------

  predicate AllZeros(s: string) {
    forall i | 0 <= i < |s| :: s[i] == '0'
  }

  /** The spellings of a port: an optional plus, any number of zeros, the decimal number. */
  ghost predicate SpellsPort(s: string, port: nat) {
    port < 65536 && exists zeros: string ::
        AllZeros(zeros) && (s == zeros + Decimal(port) || s == "+" + zeros + Decimal(port))
  }

  lemma {:induction false} ZerosAddNothing(zeros: string, n: nat)
    requires AllZeros(zeros)
    ensures AllDigits(zeros + Decimal(n))
    ensures DigitsValue(zeros + Decimal(n)) == n
    decreases n
  {
    var s := zeros + Decimal(n);
    if n < 10 {
      assert s[..|s| - 1] == zeros;
      ZerosAreZero(zeros);
    } else {
      assert s[..|s| - 1] == zeros + Decimal(n / 10);
      ZerosAddNothing(zeros, n / 10);
    }
  }

  lemma {:induction false} ZerosAreZero(zeros: string)
    requires AllZeros(zeros)
    ensures DigitsValue(zeros) == 0
  {
    if zeros == [] {
    } else {
      ZerosAreZero(zeros[..|zeros| - 1]);
    }
  }

  lemma {:induction false} DigitsAreZerosAndDecimal(s: string) returns (zeros: string)
    requires s != [] && AllDigits(s)
    ensures AllZeros(zeros) && s == zeros + Decimal(DigitsValue(s))
    decreases |s|
  {
    var init, c := s[..|s| - 1], s[|s| - 1];
    assert s == init + [c];
    DigitsValueAppends(init, c);
    DecimalAppends(DigitsValue(init), DigitValue(c));
    if init == [] {
      zeros := [];
    } else {
      zeros := DigitsAreZerosAndDecimal(init);
      if DigitsValue(init) == 0 {
        zeros := zeros + "0";
      }
    }
  }

  lemma ParsedPortIsSpelled(s: string, port: nat)
    requires ParsePort(s) == Some(port)
    ensures SpellsPort(s, port)
  {
    var digits := WithoutPlus(s);
    var zeros := DigitsAreZerosAndDecimal(digits);
    assert s == digits || s == "+" + digits;
    assert "+" + digits == "+" + zeros + Decimal(port);
  }

  predicate DigitsOrPlus(s: string) {
    s != [] && IsDigit(s[|s| - 1]) && forall i | 0 <= i < |s| :: IsDigit(s[i]) || s[i] == '+'
  }

  lemma SpelledPortParses(s: string, port: nat)
    requires SpellsPort(s, port)
    ensures ParsePort(s) == Some(port) && DigitsOrPlus(s)
  {
    var zeros: string :| AllZeros(zeros) && (s == zeros + Decimal(port) || s == "+" + zeros + Decimal(port));
    var digits := zeros + Decimal(port);
    ZerosAddNothing(zeros, port);
    assert "+" + zeros + Decimal(port) == "+" + digits;
    DigitsParse(s, digits);
  }

  lemma DigitsParse(s: string, digits: string)
    requires digits != [] && AllDigits(digits) && DigitsValue(digits) < 65536
    requires s == digits || s == "+" + digits
    ensures ParsePort(s) == Some(DigitsValue(digits)) && DigitsOrPlus(s)
  {
    if s == digits {
      assert IsDigit(s[0]);
    } else {
      assert s[1..] == digits;
    }
  }

  /** `h` and `p` with their punctuation: brackets around a host without a closing one, or a plain host without
      colons. */
  predicate Punctuates(core: string, h: string, p: string) {
    || (core == "[" + h + "]:" + p && ']' !in h)
    || (core == h + ":" + p && ':' !in h && (h == [] || h[0] != '['))
  }

  predicate HostOk(h: string, host: string, allowEmptyHost: bool) {
    && host == (if h == [] then "0.0.0.0" else h)
    && (h == [] ==> allowEmptyHost)
    && !HasWhitespace(h) && h != "*"
  }

  /** `text` is `core` with white space around it, which spells the host and port with `h` and `p`. */
  ghost predicate SpellsBy(text: string, before: string, core: string, after: string, h: string, p: string,
      host: string, port: nat, allowEmptyHost: bool) {
    && AllWhitespace(before) && AllWhitespace(after) && text == before + core + after
    && Punctuates(core, h, p) && SpellsPort(p, port) && HostOk(h, host, allowEmptyHost)
  }

  ghost predicate Spells(text: string, host: string, port: nat, allowEmptyHost: bool, allowPortZero: bool) {
    && (port == 0 ==> allowPortZero)
    && exists before: string, core: string, after: string, h: string, p: string ::
         SpellsBy(text, before, core, after, h, p, host, port, allowEmptyHost)
  }

  lemma SpelledSplits(core: string, h: string, p: string)
    requires Punctuates(core, h, p) && ':' !in p
    ensures core != [] && Split(core) == Ok((h, p))
  {
    if core == "[" + h + "]:" + p && ']' !in h {
      var rest := core[1..];
      assert rest == h + [']'] + (":" + p);
      FindAt(h, ']', ":" + p);
      assert rest[..|h|] == h && rest[|h| + 1..] == ":" + p;
    } else {
      assert core == h + [':'] + p;
      FindLastAt(h, ':', p);
      assert core[..|h|] == h && core[|h| + 1..] == p;
    }
  }

  lemma SplitIsSpelled(core: string)
    requires core != [] && Split(core).Ok?
    ensures var (h, p) := Split(core).value; Punctuates(core, h, p)
  {
    var (h, p) := Split(core).value;
    if core[0] == '[' {
      var close := Find(core[1..], ']').value;
      assert core[1..] == h + "]" + core[1..][close + 1..];
      assert core == "[" + h + "]:" + p;
    } else {
      assert core == h + ":" + p;
    }
  }

  lemma PunctuatedIsTight(core: string, h: string, p: string, port: nat)
    requires Punctuates(core, h, p) && SpellsPort(p, port) && !HasWhitespace(h)
    ensures Tight(core) && ':' !in p
  {
    SpelledPortParses(p, port);
    assert core[|core| - 1] == p[|p| - 1];
    assert h != [] && core[0] != '[' ==> core[0] == h[0];
  }

  /** Completeness: every spelling, however padded, parses to the host and port it spells. */
  lemma SpelledParses(text: string, host: string, port: nat, allowEmptyHost: bool, allowPortZero: bool)
    requires Spells(text, host, port, allowEmptyHost, allowPortZero)
    ensures port < 65536 && Parse(text, allowEmptyHost, allowPortZero) == Ok(Endpoint(Format(host, port), host, port))
  {
    var before: string, core: string, after: string, h: string, p: string :|
      SpellsBy(text, before, core, after, h, p, host, port, allowEmptyHost);
    PunctuatedIsTight(core, h, p, port);
    TrimSkips(before, core, after);
    CoreParses(text, core, h, p, host, port, allowEmptyHost, allowPortZero);
  }

  lemma CoreParses(text: string, core: string, h: string, p: string, host: string, port: nat,
                   allowEmptyHost: bool, allowPortZero: bool)
    requires Trim(text) == core && Punctuates(core, h, p) && ':' !in p
    requires SpellsPort(p, port) && HostOk(h, host, allowEmptyHost) && (port == 0 ==> allowPortZero)
    ensures Parse(text, allowEmptyHost, allowPortZero) == Ok(Endpoint(Format(host, port), host, port))
  {
    SpelledPortParses(p, port);
    SpelledSplits(core, h, p);
    HostParses(h, host, port, allowEmptyHost, allowPortZero);
  }

  lemma HostParses(h: string, host: string, port: nat, allowEmptyHost: bool, allowPortZero: bool)
    requires port < 65536 && HostOk(h, host, allowEmptyHost) && (port == 0 ==> allowPortZero)
    ensures ParseHost(h, port, allowEmptyHost, allowPortZero) == Ok(Endpoint(Format(host, port), host, port))
  {
  }

  /** Soundness: whatever parses is a spelling of the result. */
  lemma ParsedIsSpelled(text: string, allowEmptyHost: bool, allowPortZero: bool)
    requires Parse(text, allowEmptyHost, allowPortZero).Ok?
    ensures var e := Parse(text, allowEmptyHost, allowPortZero).value;
            Spells(text, e.host, e.port, allowEmptyHost, allowPortZero)
  {
    var e := Parse(text, allowEmptyHost, allowPortZero).value;
    var before, after := TrimSplits(text);
    var core := Trim(text);
    var (h, p) := Split(core).value;
    SplitIsSpelled(core);
    ParsedPortIsSpelled(p, e.port);
    assert SpellsBy(text, before, core, after, h, p, e.host, e.port, allowEmptyHost);
  }

  /** Padding, leading zeros, a plus sign, an omitted host and redundant brackets make no difference: two texts that
      spell the same host and port parse to the same endpoint. */
  lemma ParseIffSpelled(text: string, allowEmptyHost: bool, allowPortZero: bool, e: Endpoint)
    ensures Parse(text, allowEmptyHost, allowPortZero) == Ok(e) <==>
            Spells(text, e.host, e.port, allowEmptyHost, allowPortZero)
  {
    if Spells(text, e.host, e.port, allowEmptyHost, allowPortZero) {
      SpelledParses(text, e.host, e.port, allowEmptyHost, allowPortZero);
    }
    if Parse(text, allowEmptyHost, allowPortZero) == Ok(e) {
      ParsedIsSpelled(text, allowEmptyHost, allowPortZero);
    }
  }

  // ---------------------------------------------------------------------------------------------
  // Round trip
  // ---------------------------------------------------------------------------------------------

  /** The one kind of host whose printed form cannot be read back. */
  predicate OpensBracketOnly(host: string) {
    host != [] && host[0] == '[' && ':' !in host
  }

  /** Parsing the printed address gives the endpoint back, exactly unless the host opens a bracket and has no colon. */
  lemma ReparseIff(text: string, allowEmptyHost: bool, allowPortZero: bool)
    requires Parse(text, allowEmptyHost, allowPortZero).Ok?
    ensures var e := Parse(text, allowEmptyHost, allowPortZero).value;
            && (Parse(e.address, allowEmptyHost, allowPortZero) == Ok(e) <==> !OpensBracketOnly(e.host))
            && (OpensBracketOnly(e.host) ==> Parse(e.address, allowEmptyHost, allowPortZero) == Err(UnclosedBracket))
  {
    var e := Parse(text, allowEmptyHost, allowPortZero).value;
    ParsedIsSpelled(text, allowEmptyHost, allowPortZero);
    var before: string, core: string, after: string, h: string, p: string :|
      SpellsBy(text, before, core, after, h, p, e.host, e.port, allowEmptyHost);
    if OpensBracketOnly(e.host) {
      BracketNeverCloses(e);
    } else {
      AddressSpellsItself(e, h, allowEmptyHost, allowPortZero);
    }
  }

  lemma AddressSpellsItself(e: Endpoint, h: string, allowEmptyHost: bool, allowPortZero: bool)
    requires HostOk(h, e.host, allowEmptyHost) && (':' in h ==> ']' !in h) && (e.port == 0 ==> allowPortZero)
    requires !OpensBracketOnly(e.host)
    ensures Parse(e.address, allowEmptyHost, allowPortZero) == Ok(e)
  {
    var port := Decimal(e.port);
    assert SpellsPort(port, e.port) by {
      assert port == [] + port;
    }
    assert Punctuates(e.address, e.host, port) by {
      assert ':' in e.host ==> e.address == "[" + e.host + "]:" + port;
    }
    assert SpellsBy(e.address, [], e.address, [], e.host, port, e.host, e.port, allowEmptyHost);
    SpelledParses(e.address, e.host, e.port, allowEmptyHost, allowPortZero);
  }

  lemma BracketNeverCloses(e: Endpoint)
    requires OpensBracketOnly(e.host) && ']' !in e.host && !HasWhitespace(e.host)
    ensures forall allowEmptyHost, allowPortZero ::
            Parse(e.address, allowEmptyHost, allowPortZero) == Err(UnclosedBracket)
  {
    DecimalHasNo(e.port, ']');
    TrimSkips([], e.address, []);
    assert [] + e.address + [] == e.address;
    assert ']' !in e.address;
  }

  /** Such an endpoint exists. */
  lemma BracketExample()
    ensures var e := Parse("[[x]:80", false, false);
            e.Ok? && e.value.host == "[x" && Parse(e.value.address, false, false) == Err(UnclosedBracket)
  {
    var text := "[[x]:80";
    assert SpellsPort("80", 80) by {
      assert Decimal(8) == "8" && Decimal(80) == "80" == [] + "80";
    }
    assert Punctuates(text, "[x", "80");
    assert SpellsBy(text, [], text, [], "[x", "80", "[x", 80, false);
    SpelledParses(text, "[x", 80, false, false);
    BracketNeverCloses(Parse(text, false, false).value);
  }

  // ---------------------------------------------------------------------------------------------
  // Examples
  // ---------------------------------------------------------------------------------------------

  /** One more digit. */
  lemma SpellsNext(m: nat, spelled: string, d: nat, next: string)
    requires 0 < m && Decimal(m) == spelled && d < 10 && next == spelled + [DigitChar(d)]
    ensures Decimal(10 * m + d) == next
  {
    DecimalAppends(m, d);
  }

  lemma PlainSpelling(text: string, h: string, p: string, host: string, port: nat, empty: bool, zero: bool)
    requires Punctuates(text, h, p) && port < 65536 && p == Decimal(port)
    requires HostOk(h, host, empty) && (port == 0 ==> zero)
    ensures Parse(text, empty, zero) == Ok(Endpoint(Format(host, port), host, port))
  {
    assert [] + Decimal(port) == p;
    assert SpellsPort(p, port);
    assert SpellsBy(text, [], text, [], h, p, host, port, empty);
    SpelledParses(text, host, port, empty, zero);
  }

  /** A listener without a host, ... */
  lemma ShorthandExample()
    ensures Parse(":13306", true, true) == Ok(Endpoint("0.0.0.0:13306", "0.0.0.0", 13306))
  {
    SpellsNext(1, "1", 3, "13");
    SpellsNext(13, "13", 3, "133");
    SpellsNext(133, "133", 0, "1330");
    SpellsNext(1330, "1330", 6, "13306");
    assert ":13306" == "" + ":" + "13306" && "0.0.0.0:13306" == "0.0.0.0" + ":" + "13306";
    PlainSpelling(":13306", "", "13306", "0.0.0.0", 13306, true, true);
  }

  /** ... a host name, ... */
  lemma HostNameExample()
    ensures Parse("db.internal:3306", false, false) == Ok(Endpoint("db.internal:3306", "db.internal", 3306))
  {
    SpellsNext(3, "3", 3, "33");
    SpellsNext(33, "33", 0, "330");
    SpellsNext(330, "330", 6, "3306");
    assert "db.internal:3306" == "db.internal" + ":" + "3306";
    PlainSpelling("db.internal:3306", "db.internal", "3306", "db.internal", 3306, false, false);
  }

  /** ... and an IPv6 address. */
  lemma Ipv6Example()
    ensures Parse("[::1]:5432", false, false) == Ok(Endpoint("[::1]:5432", "::1", 5432))
  {
    SpellsNext(5, "5", 4, "54");
    SpellsNext(54, "54", 3, "543");
    SpellsNext(543, "543", 2, "5432");
    assert "[::1]:5432" == "[" + "::1" + "]:" + "5432" == "[" + "::1" + "]" + ":" + "5432";
    PlainSpelling("[::1]:5432", "::1", "5432", "::1", 5432, false, false);
  }

  /** White space around a text makes no difference, whether it is an endpoint or not. */
  lemma PaddingIgnored(text: string, allowEmptyHost: bool, allowPortZero: bool)
    ensures Parse(" \t" + text + " \r\n", allowEmptyHost, allowPortZero) == Parse(text, allowEmptyHost, allowPortZero)
  {
    var before, after := TrimSplits(text);
    var core := Trim(text);
    SpacesAreWhitespace();
    assert AllWhitespace(" \t" + before) && AllWhitespace(after + " \r\n");
    TrimSkips(" \t" + before, core, after + " \r\n");
    assert " \t" + text + " \r\n" == (" \t" + before) + core + (after + " \r\n");
  }

  lemma SpacesAreWhitespace()
    ensures AllWhitespace(" \t") && AllWhitespace(" \r\n")
  {
    WhitespaceIs(' ');
    WhitespaceIs('\t');
    WhitespaceIs('\r');
    WhitespaceIs('\n');
  }
}

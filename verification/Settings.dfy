/** Validation of the settings and the names of unnamed relays. */
module Settings {
  import opened Wrappers
  import opened Text
  import E = Endpoint
  import PoolProtocol

  /** Durations are numbers of time units; only whether they are zero matters here. */
  datatype RelaySpec = RelaySpec(
    name: string, listen: E.Endpoint,
    connectTimeout: nat, idleTimeout: Option<nat>,
    maxConnections: Option<nat>, maxConnecting: Option<nat>,
    tcpKeepalive: Option<nat>, dnsRefresh: Option<nat>,
    socketBufferSize: Option<nat>, bufferSize: nat)

  datatype Settings = Settings(
    metricsListen: Option<E.Endpoint>, metricsBearerToken: Option<string>,
    metricsTlsCert: Option<string>, metricsTlsKey: Option<string>,
    shutdownTimeout: nat,
    globalMaxConnections: Option<nat>, globalMaxConnecting: Option<nat>,
    bufferPoolSize: nat, connectionLogSampleRate: nat,
    relays: seq<RelaySpec>)

  /** What can be wrong, in the order in which it is looked for. */
  datatype GlobalDefect =
    | NoRelays | ZeroShutdownTimeout | ZeroGlobalConnections | ZeroGlobalConnecting | BadPoolSize | ZeroSampleRate
    | IncompleteTls | TlsWithoutListener | EmptyToken

  datatype RelayDefect =
    | BlankName | DuplicateName | DuplicateListener
    | ZeroConnectTimeout | ZeroIdleTimeout | ZeroKeepalive | ZeroMaxConnections | ZeroMaxConnecting
    | ZeroDnsRefresh | ZeroSocketBuffer | ZeroBuffer

  datatype SettingsError = InGlobals(problem: GlobalDefect) | InRelay(index: nat, defect: RelayDefect)

  datatype Outcome = Pass | Fail(error: SettingsError)

  function GlobalRank(d: GlobalDefect): nat {
    match d
    case NoRelays => 0
    case ZeroShutdownTimeout => 1
    case ZeroGlobalConnections => 2
    case ZeroGlobalConnecting => 3
    case BadPoolSize => 4
    case ZeroSampleRate => 5
    case IncompleteTls => 6
    case TlsWithoutListener => 7
    case EmptyToken => 8
  }

  function RelayRank(d: RelayDefect): nat {
    match d
    case BlankName => 0
    case DuplicateName => 1
    case DuplicateListener => 2
    case ZeroConnectTimeout => 3
    case ZeroIdleTimeout => 4
    case ZeroKeepalive => 5
    case ZeroMaxConnections => 6
    case ZeroMaxConnecting => 7
    case ZeroDnsRefresh => 8
    case ZeroSocketBuffer => 9
    case ZeroBuffer => 10
  }

  predicate Zero(limit: Option<nat>) {
    limit == Some(0)
  }

  predicate Positive(limit: Option<nat>) {
    limit.Some? ==> limit.value > 0
  }

  /** Buffers for a number of transfers, two for each. */
  predicate ComesInPairs(buffers: nat) {
    var transfers := buffers / 2;
    transfers > 0 && buffers == transfers + transfers
  }

  /** What the rest of the program relies on: buffers in pairs, limits that let something through, a certificate with
      its key and a listener to serve it, a token that can be sent. */
  ghost predicate GlobalsSound(s: Settings) {
    && |s.relays| > 0
    && s.shutdownTimeout > 0
    && Positive(s.globalMaxConnections) && Positive(s.globalMaxConnecting)
    && ComesInPairs(s.bufferPoolSize)
    && s.connectionLogSampleRate > 0
    && (match (s.metricsTlsCert, s.metricsTlsKey)
        case (None, None) => true
        case (Some(_), Some(_)) => s.metricsListen.Some?
        case _ => false)
    && (s.metricsBearerToken.Some? ==> |s.metricsBearerToken.value| > 0)
  }

  ghost predicate HasGlobalDefect(s: Settings, d: GlobalDefect) {
    match d
    case NoRelays => s.relays == []
    case ZeroShutdownTimeout => s.shutdownTimeout == 0
    case ZeroGlobalConnections => Zero(s.globalMaxConnections)
    case ZeroGlobalConnecting => Zero(s.globalMaxConnecting)
    case BadPoolSize => !ComesInPairs(s.bufferPoolSize)
    case ZeroSampleRate => s.connectionLogSampleRate == 0
    case IncompleteTls => s.metricsTlsCert.Some? <==> s.metricsTlsKey.None?
    case TlsWithoutListener => s.metricsTlsCert.Some? && s.metricsTlsKey.Some? && s.metricsListen.None?
    case EmptyToken => s.metricsBearerToken == Some("")
  }

  /** Every limit, timeout and size that is configured is positive. */
  predicate RelaySound(r: RelaySpec) {
    && r.connectTimeout > 0 && r.bufferSize > 0
    && Positive(r.idleTimeout) && Positive(r.tcpKeepalive)
    && Positive(r.maxConnections) && Positive(r.maxConnecting)
    && Positive(r.dnsRefresh) && Positive(r.socketBufferSize)
  }

  /** The limits of one relay, in the order they are checked. */
  function LimitDefect(r: RelaySpec): Option<RelayDefect> {
    if r.connectTimeout == 0 then Some(ZeroConnectTimeout)
    else if Zero(r.idleTimeout) then Some(ZeroIdleTimeout)
    else if Zero(r.tcpKeepalive) then Some(ZeroKeepalive)
    else if Zero(r.maxConnections) then Some(ZeroMaxConnections)
    else if Zero(r.maxConnecting) then Some(ZeroMaxConnecting)
    else if Zero(r.dnsRefresh) then Some(ZeroDnsRefresh)
    else if Zero(r.socketBufferSize) then Some(ZeroSocketBuffer)
    else if r.bufferSize == 0 then Some(ZeroBuffer)
    else None
  }

  /** Listeners clash when they name the same host and the same port; port 0 lets the system choose and never
      clashes. */
  predicate SameListener(a: E.Endpoint, b: E.Endpoint) {
    a.port != 0 && a.host == b.host && a.port == b.port
  }

  predicate HasDefect(relays: seq<RelaySpec>, i: nat, d: RelayDefect)
    requires i < |relays|
  {
    match d
    case BlankName => AllWhitespace(relays[i].name)
    case DuplicateName => exists j | 0 <= j < i :: relays[j].name == relays[i].name
    case DuplicateListener => exists j | 0 <= j < i :: SameListener(relays[j].listen, relays[i].listen)
    case ZeroConnectTimeout => relays[i].connectTimeout == 0
    case ZeroIdleTimeout => Zero(relays[i].idleTimeout)
    case ZeroKeepalive => Zero(relays[i].tcpKeepalive)
    case ZeroMaxConnections => Zero(relays[i].maxConnections)
    case ZeroMaxConnecting => Zero(relays[i].maxConnecting)
    case ZeroDnsRefresh => Zero(relays[i].dnsRefresh)
    case ZeroSocketBuffer => Zero(relays[i].socketBufferSize)
    case ZeroBuffer => relays[i].bufferSize == 0
  }

  /** A relay is sound in itself and shares neither name nor listener with an earlier one. */
  predicate RelayFits(relays: seq<RelaySpec>, i: nat)
    requires i < |relays|
  {
    && !AllWhitespace(relays[i].name)
    && RelaySound(relays[i])
    && (forall j | 0 <= j < i :: relays[j].name != relays[i].name)
    && (forall j | 0 <= j < i :: !SameListener(relays[j].listen, relays[i].listen))
  }

  ghost predicate RelaysOk(relays: seq<RelaySpec>, n: nat)
    requires n <= |relays|
  {
    forall i | 0 <= i < n :: RelayFits(relays, i)
  }

  lemma TrimEmptyIff(s: string)
    ensures Trim(s) == [] <==> AllWhitespace(s)
  {
    var before, after := TrimSplits(s);
    if Trim(s) == [] {
      assert s == before + after;
    } else {
      assert s[|before|] == Trim(s)[0];
    }
  }

  ghost predicate FirstGlobalDefect(s: Settings, d: GlobalDefect) {
    HasGlobalDefect(s, d) && forall e :: HasGlobalDefect(s, e) ==> GlobalRank(d) <= GlobalRank(e)
  }

  predicate FirstDefect(relays: seq<RelaySpec>, i: nat, d: RelayDefect)
    requires i < |relays|
  {
    HasDefect(relays, i, d) && forall e: RelayDefect :: HasDefect(relays, i, e) ==> RelayRank(d) <= RelayRank(e)
  }

  /** Sound settings pass; otherwise the error is the first thing wrong with the globals or, if there is none, with the
      first relay that does not fit. */
  ghost predicate IsVerdict(s: Settings, r: Outcome) {
    match r
    case Pass => GlobalsSound(s) && RelaysOk(s.relays, |s.relays|)
    case Fail(InGlobals(d)) => FirstGlobalDefect(s, d)
    case Fail(InRelay(i, d)) =>
      GlobalsSound(s) && i < |s.relays| && RelaysOk(s.relays, i) && FirstDefect(s.relays, i, d)
  }

  lemma GlobalsSoundIff(s: Settings)
    ensures GlobalsSound(s) <==> forall d :: !HasGlobalDefect(s, d)
  {
    if forall d :: !HasGlobalDefect(s, d) {
      assert !HasGlobalDefect(s, NoRelays) && !HasGlobalDefect(s, ZeroShutdownTimeout);
      assert !HasGlobalDefect(s, EmptyToken);
      assert !HasGlobalDefect(s, ZeroGlobalConnections) && !HasGlobalDefect(s, ZeroGlobalConnecting);
      assert !HasGlobalDefect(s, BadPoolSize) && !HasGlobalDefect(s, ZeroSampleRate);
      assert !HasGlobalDefect(s, IncompleteTls) && !HasGlobalDefect(s, TlsWithoutListener);
    }
  }

  lemma RelayFitsIffNoDefect(relays: seq<RelaySpec>, i: nat)
    requires i < |relays|
    ensures RelayFits(relays, i) <==> forall d: RelayDefect :: !HasDefect(relays, i, d)
  {
    if forall d: RelayDefect :: !HasDefect(relays, i, d) {
      assert !HasDefect(relays, i, BlankName) && !HasDefect(relays, i, DuplicateName);
      assert !HasDefect(relays, i, DuplicateListener) && !HasDefect(relays, i, ZeroConnectTimeout);
      assert !HasDefect(relays, i, ZeroIdleTimeout) && !HasDefect(relays, i, ZeroKeepalive);
      assert !HasDefect(relays, i, ZeroMaxConnections) && !HasDefect(relays, i, ZeroMaxConnecting);
      assert !HasDefect(relays, i, ZeroDnsRefresh) && !HasDefect(relays, i, ZeroSocketBuffer);
      assert !HasDefect(relays, i, ZeroBuffer);
    }
  }

  /** There is only one verdict. */
  lemma VerdictIsUnique(s: Settings, r: Outcome, r': Outcome)
    requires IsVerdict(s, r) && IsVerdict(s, r')
    ensures r == r'
  {
    GlobalsSoundIff(s);
    if r.Fail? && r.error.InRelay? {
      RelayFitsIffNoDefect(s.relays, r.error.index);
    }
    if r'.Fail? && r'.error.InRelay? {
      RelayFitsIffNoDefect(s.relays, r'.error.index);
    }
    if r.Fail? && r'.Fail? && r.error.InGlobals? && r'.error.InGlobals? {
      assert GlobalRank(r.error.problem) == GlobalRank(r'.error.problem);
    }
    if r.Fail? && r'.Fail? && r.error.InRelay? && r'.error.InRelay? {
      assert r.error.index == r'.error.index;
      assert RelayRank(r.error.defect) == RelayRank(r'.error.defect);
    }
  }

  /** A relay with nothing wrong but one field is refused for that field. */
  lemma OnlyDefectIsReported(s: Settings, i: nat, d: RelayDefect)
    requires GlobalsSound(s) && i < |s.relays| && RelaysOk(s.relays, i)
    requires HasDefect(s.relays, i, d) && forall e: RelayDefect | e != d :: !HasDefect(s.relays, i, e)
    ensures forall r | IsVerdict(s, r) :: r == Fail(InRelay(i, d))
  {
    forall r | IsVerdict(s, r) ensures r == Fail(InRelay(i, d)) {
      VerdictIsUnique(s, r, Fail(InRelay(i, d)));
    }
  }

  /** Settings that pass give every relay a pool that never gets stuck with clients waiting. */
  lemma PassServesPools(s: Settings, p: PoolProtocol.Pool)
    requires IsVerdict(s, Pass) && PoolProtocol.Inv(s.bufferPoolSize, p)
    ensures PoolProtocol.CanServe(p) <==> !PoolProtocol.AllServed(p)
  {
    PoolProtocol.ServesUntilAllServed(s.bufferPoolSize, p);
  }

  /** Accepts exactly the sound settings; on a refusal the error names the first relay that is not, and what
      is wrong. */
  method Validate(s: Settings) returns (r: Outcome)
    ensures IsVerdict(s, r)
    ensures r == Pass <==> GlobalsSound(s) && RelaysOk(s.relays, |s.relays|)
  {
    var problem := CheckGlobals(s);
    if problem.Some? {
      return Fail(InGlobals(problem.value));
    }
    var names: set<string> := {};
    var listeners: set<string> := {};
    for i := 0 to |s.relays|
      invariant RelaysOk(s.relays, i)
      invariant Collected(s.relays, i, names, listeners)
    {
      var defect;
      defect, names, listeners := CheckRelay(s.relays, i, names, listeners);
      if defect.Some? {
        return Fail(InRelay(i, defect.value));
      }
    }
    r := Pass;
  }

  /** The checks that come before the loop over the relays. */
  method CheckGlobals(s: Settings) returns (problem: Option<GlobalDefect>)
    ensures problem == None <==> GlobalsSound(s)
    ensures problem.Some? ==> FirstGlobalDefect(s, problem.value)
  {
    GlobalsSoundIff(s);
    if s.relays == [] {
      return Some(NoRelays);
    }
    if s.shutdownTimeout == 0 {
      return Some(ZeroShutdownTimeout);
    }
    if Zero(s.globalMaxConnections) {
      return Some(ZeroGlobalConnections);
    }
    if Zero(s.globalMaxConnecting) {
      return Some(ZeroGlobalConnecting);
    }
    if s.bufferPoolSize < 2 || s.bufferPoolSize % 2 != 0 {
      return Some(BadPoolSize);
    }
    if s.connectionLogSampleRate == 0 {
      return Some(ZeroSampleRate);
    }
    if s.metricsTlsCert.Some? != s.metricsTlsKey.Some? {
      return Some(IncompleteTls);
    }
    if (s.metricsTlsCert.Some? || s.metricsTlsKey.Some?) && s.metricsListen.None? {
      return Some(TlsWithoutListener);
    }
    if s.metricsBearerToken.Some? && s.metricsBearerToken.value == "" {
      return Some(EmptyToken);
    }
    problem := None;
  }

  /** One round of the loop: the relay is inserted into the two sets, or has a defect. */
  method CheckRelay(relays: seq<RelaySpec>, i: nat, names: set<string>, listeners: set<string>)
    returns (defect: Option<RelayDefect>, newNames: set<string>, newListeners: set<string>)
    requires i < |relays| && Collected(relays, i, names, listeners)
    ensures defect == None <==> RelayFits(relays, i)
    ensures defect == None ==> Collected(relays, i + 1, newNames, newListeners)
    ensures defect.Some? ==> FirstDefect(relays, i, defect.value)
  {
    var relay := relays[i];
    LimitDefectIsFirst(relays, i);
    TrimEmptyIff(relay.name);
    AddressesMatchListeners(relays, i);
    newNames, newListeners := names, listeners;
    if Trim(relay.name) == [] {
      return Some(BlankName), newNames, newListeners;
    }
    if relay.name in names {
      return Some(DuplicateName), newNames, newListeners;
    }
    newNames := names + {relay.name};
    if relay.listen.port != 0 {
      if relay.listen.address in listeners {
        return Some(DuplicateListener), newNames, newListeners;
      }
      newListeners := listeners + {relay.listen.address};
    }
    defect := LimitDefect(relay);
    if defect == None {
      CollectsOneMore(relays, i, names, listeners);
    }
  }

  /** The cascade finds the first field that is zero. */
  lemma LimitDefectIsFirst(relays: seq<RelaySpec>, i: nat)
    requires i < |relays|
    ensures LimitDefect(relays[i]) == None <==> RelaySound(relays[i])
    ensures forall d: RelayDefect | LimitDefect(relays[i]) == Some(d) ::
              && HasDefect(relays, i, d) && RelayRank(d) >= 3
              && forall e: RelayDefect :: HasDefect(relays, i, e) && RelayRank(e) >= 3 ==> RelayRank(d) <= RelayRank(e)
  {
  }

  lemma CollectsOneMore(relays: seq<RelaySpec>, i: nat, names: set<string>, listeners: set<string>)
    requires i < |relays| && Collected(relays, i, names, listeners)
    ensures var listen := relays[i].listen;
            Collected(relays, i + 1, names + {relays[i].name},
                      if listen.port != 0 then listeners + {listen.address} else listeners)
  {
  }

  /** What the two hash sets hold after `n` relays. */
  ghost predicate Collected(relays: seq<RelaySpec>, n: nat, names: set<string>, listeners: set<string>)
    requires n <= |relays|
  {
    && (forall name :: name in names <==> exists j | 0 <= j < n :: relays[j].name == name)
    && (forall address :: address in listeners <==>
          exists j | 0 <= j < n :: relays[j].listen.port != 0 && relays[j].listen.address == address)
  }

  /** Comparing printed addresses is comparing hosts and ports. */
  lemma AddressesMatchListeners(relays: seq<RelaySpec>, i: nat)
    requires i < |relays|
    ensures forall j | 0 <= j < i ::
              SameListener(relays[j].listen, relays[i].listen) <==>
              relays[j].listen.port != 0 && relays[j].listen.address == relays[i].listen.address
  {
    forall j | 0 <= j < i && relays[j].listen.address == relays[i].listen.address
      ensures relays[j].listen.host == relays[i].listen.host && relays[j].listen.port == relays[i].listen.port
    {
      E.FormatInjective(relays[j].listen.host, relays[j].listen.port, relays[i].listen.host, relays[i].listen.port);
    }
  }

  // ---------------------------------------------------------------------------------------------
  // Names of unnamed relays
  // ---------------------------------------------------------------------------------------------

  /** A name that is configured and is not only white space. */
  predicate IsNamed(configured: Option<string>) {
    configured.Some? && !AllWhitespace(configured.value)
  }

  function Generated(index: nat): string {
    "relay-" + Decimal(index + 1)
  }

  function NameOf(configured: Option<string>, index: nat): string {
    if IsNamed(configured) then configured.value else Generated(index)
  }

  method NameRelays(configured: seq<Option<string>>) returns (names: seq<string>)
    ensures |names| == |configured|
    ensures forall i | 0 <= i < |names| :: names[i] == NameOf(configured[i], i) && !AllWhitespace(names[i])
    ensures forall i, j | 0 <= i < j < |names| && names[i] == names[j] ::
            IsNamed(configured[i]) || IsNamed(configured[j])
  {
    names := [];
    for index := 0 to |configured|
      invariant |names| == index
      invariant forall i | 0 <= i < index :: names[i] == NameOf(configured[i], i)
    {
      var name := "relay-" + Decimal(index + 1);
      if configured[index].Some? {
        TrimEmptyIff(configured[index].value);
        if Trim(configured[index].value) != [] {
          name := configured[index].value;
        }
      }
      names := names + [name];
    }
    forall i | 0 <= i < |names| ensures !AllWhitespace(names[i]) {
      NamesAreNotBlank(configured[i], i);
    }
    forall i, j | 0 <= i < j < |names| && !IsNamed(configured[i]) && !IsNamed(configured[j])
      ensures names[i] != names[j]
    {
      GeneratedNamesDiffer(i, j);
    }
  }

  lemma NamesAreNotBlank(configured: Option<string>, index: nat)
    ensures !AllWhitespace(NameOf(configured, index))
  {
    if IsNamed(configured) {
      TrimEmptyIff(configured.value);
    } else {
      assert NameOf(configured, index)[0] == 'r';
    }
  }

  /** Generated names never collide with each other. */
  lemma GeneratedNamesDiffer(i: nat, j: nat)
    requires i != j
    ensures Generated(i) != Generated(j)
  {
    if Generated(i) == Generated(j) {
      assert Generated(i)[6..] == Decimal(i + 1);
      assert Generated(j)[6..] == Decimal(j + 1);
      DecimalInjective(i + 1, j + 1);
    }
  }

  /** The configured names differ from each other and from the names generated for the unnamed relays. */
  predicate NamesAreFree(configured: seq<Option<string>>) {
    && (forall i, j | 0 <= i < j < |configured| && IsNamed(configured[i]) && IsNamed(configured[j]) ::
          configured[i] != configured[j])
    && (forall i, j | 0 <= i < |configured| && 0 <= j < |configured| && IsNamed(configured[i])
        && !IsNamed(configured[j]) ::
          configured[i].value != Generated(j))
  }

  predicate NameDiffers(configured: seq<Option<string>>, i: nat)
    requires i < |configured|
  {
    forall j | 0 <= j < i :: NameOf(configured[j], j) != NameOf(configured[i], i)
  }

  /** Exactly when the names that are given to the relays are distinct. */
  lemma NamesDifferIffFree(configured: seq<Option<string>>)
    ensures NamesAreFree(configured) <==> forall i | 0 <= i < |configured| :: NameDiffers(configured, i)
  {
    if NamesAreFree(configured) {
      forall i | 0 <= i < |configured| ensures NameDiffers(configured, i) {
        FreeNameDiffers(configured, i);
      }
    } else if forall i | 0 <= i < |configured| :: NameDiffers(configured, i) {
      DifferentNamesAreFree(configured);
    }
  }

  lemma FreeNameDiffers(configured: seq<Option<string>>, i: nat)
    requires NamesAreFree(configured) && i < |configured|
    ensures NameDiffers(configured, i)
  {
    forall j | 0 <= j < i ensures NameOf(configured[j], j) != NameOf(configured[i], i) {
      GeneratedNamesDiffer(i, j);
    }
  }

  lemma DifferentNamesAreFree(configured: seq<Option<string>>)
    requires forall i | 0 <= i < |configured| :: NameDiffers(configured, i)
    ensures NamesAreFree(configured)
  {
    forall i, j | 0 <= i < |configured| && 0 <= j < |configured| && IsNamed(configured[i]) && !IsNamed(configured[j])
      ensures configured[i].value != Generated(j)
    {
      assert i != j && NameDiffers(configured, if i < j then j else i);
      assert NameOf(configured[i], i) == configured[i].value && NameOf(configured[j], j) == Generated(j);
    }
    forall i, j | 0 <= i < j < |configured| && IsNamed(configured[i]) && IsNamed(configured[j])
      ensures configured[i] != configured[j]
    {
      assert NameDiffers(configured, j);
      assert NameOf(configured[i], i) == configured[i].value && NameOf(configured[j], j) == configured[j].value;
    }
  }

  /** Naming the relays of a file and validating the result: a configured name that collides, be it with another one or
      with a generated one, is refused, and names are never refused for another reason. */
  method SettingsFromFile(configured: seq<Option<string>>, s: Settings) returns (r: Outcome)
    requires |configured| == |s.relays|
    ensures r == Pass <==> GlobalsSound(s) && NamesAreFree(configured) && RelaysOkButForNames(s.relays)
  {
    var names := NameRelays(configured);
    var relays := seq(|names|, i requires 0 <= i < |names| => s.relays[i].(name := names[i]));
    NamedRelaysOkIff(configured, s.relays, relays);
    r := Validate(s.(relays := relays));
  }

  /** What `RelayFits` asks for besides the name. */
  predicate FitsButForName(relays: seq<RelaySpec>, i: nat)
    requires i < |relays|
  {
    && RelaySound(relays[i])
    && (forall j | 0 <= j < i :: !SameListener(relays[j].listen, relays[i].listen))
  }

  predicate RelaysOkButForNames(relays: seq<RelaySpec>) {
    forall i | 0 <= i < |relays| :: FitsButForName(relays, i)
  }

  lemma RelayFitsIff(configured: seq<Option<string>>, plain: seq<RelaySpec>, named: seq<RelaySpec>, i: nat)
    requires |configured| == |plain| == |named| && i < |named|
    requires forall i | 0 <= i < |plain| :: named[i] == plain[i].(name := NameOf(configured[i], i))
    ensures RelayFits(named, i) <==> NameDiffers(configured, i) && FitsButForName(plain, i)
  {
    NamesAreNotBlank(configured[i], i);
    assert forall j | 0 <= j <= i :: named[j].listen == plain[j].listen && named[j].name == NameOf(configured[j], j);
    assert RelaySound(named[i]) == RelaySound(plain[i]);
  }

  lemma NamedRelaysOkIff(configured: seq<Option<string>>, plain: seq<RelaySpec>, named: seq<RelaySpec>)
    requires |configured| == |plain| == |named|
    requires forall i | 0 <= i < |plain| :: named[i] == plain[i].(name := NameOf(configured[i], i))
    ensures RelaysOk(named, |named|) <==> NamesAreFree(configured) && RelaysOkButForNames(plain)
  {
    NamesDifferIffFree(configured);
    forall i | 0 <= i < |named|
      ensures RelayFits(named, i) <==> NameDiffers(configured, i) && FitsButForName(plain, i)
    {
      RelayFitsIff(configured, plain, named, i);
    }
  }

  /** A collision is possible: the first of two relays may be given the name of the second. */
  lemma ConfiguredNameCanCollide()
    ensures !NamesAreFree([Some("relay-2"), None])
  {
    TrimSkips([], "relay-2", []);
    assert [] + "relay-2" + [] == "relay-2";
    assert Generated(1) == "relay-2" by {
      assert Decimal(2) == "2";
    }
    var configured := [Some("relay-2"), None];
    assert IsNamed(configured[0]) && !IsNamed(configured[1]);
  }
}

/**
 * The SSH client builder: a configuration record that is copied on every
 * call, so each With* operation is a function from the old record to a new
 * one. The three collaborators that do I/O (agent discovery, known-hosts
 * parsing and the network dial) are represented by their outcomes.
 */
module SshBuilder {
  import opened Options
  import Decimal

  /** Go's int on a 64-bit platform. */
  type GoInt = x: int | -0x8000_0000_0000_0000 <= x < 0x8000_0000_0000_0000

  /** A Go error value; only its identity matters to the builder. */
  datatype Error = Error(message: string)

  /** The outcome of a call into a collaborator that may fail. */
  datatype Result<+T> = Ok(value: T) | Err(error: Error)

  /** The open connection to the key agent that agent discovery yields. */
  datatype AgentHandle = AgentHandle(id: nat)

  /** The host-key database that parsing known-hosts files yields. */
  datatype KnownHostsDb = KnownHostsDb(id: nat)

  /** An authentication method offered to the server. */
  datatype AuthMethod =
    | Password(secret: string)
    | AgentKeys(agent: AgentHandle)

  /** The host-key callback; NoPolicy is Go's nil callback of a fresh builder. */
  datatype HostKeyPolicy =
    | NoPolicy
    | KnownHosts(db: KnownHostsDb)
    | InsecureAcceptAll

  datatype Builder = Builder(
    buildErrors: seq<Error>,
    ignoringErrors: bool,
    username: string,
    host: string,
    port: GoInt,
    hostPort: string,
    hostKeyCallback: HostKeyPolicy,
    authMethods: seq<AuthMethod>)

  /** At most one of the two endpoint forms is set: a combined host:port
      string excludes a separate host and port. */
  predicate EndpointExclusive(b: Builder) {
    b.hostPort != "" ==> b.host == "" && b.port == 0
  }

  /** The address a dial goes to: the combined string when set, otherwise
      the host and the decimal port joined by a colon, the host not bracketed. */
  function Endpoint(b: Builder): (addr: string)
    ensures addr != ""
    ensures b.hostPort != "" ==> addr == b.hostPort
  {
    if b.hostPort != "" then b.hostPort else b.host + ":" + Decimal.IntToDecimal(b.port)
  }

  /** The most recent build error, or None when there is none. */
  function GetError(b: Builder): (r: Option<Error>)
    ensures r.None? <==> GetErrors(b) == []
    ensures r.Some? ==> r.value in GetErrors(b) && GetErrors(b)[|GetErrors(b)| - 1] == r.value
  {
    var errors := GetErrors(b);
    if |errors| > 0 then Some(errors[|errors| - 1]) else None
  }

  /** Every build error recorded so far, oldest first. */
  function GetErrors(b: Builder): (errors: seq<Error>)
    ensures errors == b.buildErrors
  {
    b.buildErrors
  }

  function New(): (b: Builder)
    ensures GetErrors(b) == [] && GetError(b) == None && !b.ignoringErrors
    ensures b.username == "" && b.authMethods == [] && b.hostKeyCallback == NoPolicy
    ensures EndpointExclusive(b) && Endpoint(b) == ":0"
  {
    Builder([], false, "", "", 0, "", NoPolicy, [])
  }

  /** Records err unless recording is suspended; nothing else changes. */
  function AddError(b: Builder, err: Error): (r: Builder)
    ensures !b.ignoringErrors ==> r.buildErrors == b.buildErrors + [err] && GetError(r) == Some(err)
    ensures b.ignoringErrors ==> r.buildErrors == b.buildErrors
    ensures r.(buildErrors := b.buildErrors) == b
  {
    if !b.ignoringErrors then b.(buildErrors := b.buildErrors + [err]) else b
  }

  function SuspendErrors(b: Builder): (r: Builder)
    ensures r.ignoringErrors
    ensures r.(ignoringErrors := b.ignoringErrors) == b
  {
    b.(ignoringErrors := true)
  }

  function ResumeErrors(b: Builder): (r: Builder)
    ensures !r.ignoringErrors
    ensures r.(ignoringErrors := b.ignoringErrors) == b
  {
    b.(ignoringErrors := false)
  }

  /** agent is what agent discovery returned: a handle on success, the
      error it reported otherwise. */
  function WithDefaultAgent(b: Builder, agent: Result<AgentHandle>): (r: Builder)
    ensures agent.Ok? ==> r.authMethods == b.authMethods + [AgentKeys(agent.value)]
    ensures agent.Ok? ==> r.(authMethods := b.authMethods) == b
    ensures agent.Err? ==> r == AddError(b, agent.error)
  {
    match agent
    case Err(e) => AddError(b, e)
    case Ok(a) => b.(authMethods := b.authMethods + [AgentKeys(a)])
  }

  function WithUsername(b: Builder, u: string): (r: Builder)
    ensures r.username == u
    ensures r.(username := b.username) == b
  {
    b.(username := u)
  }

  function WithHost(b: Builder, h: string): (r: Builder)
    ensures r.host == h && r.hostPort == "" && r.port == b.port
    ensures r.(host := b.host, hostPort := b.hostPort) == b
    ensures EndpointExclusive(r)
    ensures Endpoint(r) == h + ":" + Decimal.IntToDecimal(b.port)
  {
    b.(hostPort := "", host := h)
  }

  function WithHostPort(b: Builder, str: string): (r: Builder)
    ensures r.hostPort == str && r.host == "" && r.port == 0
    ensures r.(host := b.host, port := b.port, hostPort := b.hostPort) == b
    ensures EndpointExclusive(r)
    ensures Endpoint(r) == if str != "" then str else ":0"
  {
    b.(host := "", port := 0, hostPort := str)
  }

  function WithPort(b: Builder, port: GoInt): (r: Builder)
    ensures r.port == port && r.hostPort == "" && r.host == b.host
    ensures r.(port := b.port, hostPort := b.hostPort) == b
    ensures EndpointExclusive(r)
    ensures Endpoint(r) == b.host + ":" + Decimal.IntToDecimal(port)
  {
    b.(hostPort := "", port := port)
  }

  function WithPassword(b: Builder, password: string): (r: Builder)
    ensures r.authMethods == b.authMethods + [Password(password)]
    ensures r.(authMethods := b.authMethods) == b
  {
    b.(authMethods := b.authMethods + [Password(password)])
  }

  /** load stands for the known-hosts parser: it maps the list of files to
      a host-key database or to the error it reported. */
  function WithKnownHostsFiles(b: Builder, khf: seq<string>, load: seq<string> -> Result<KnownHostsDb>): (r: Builder)
    ensures load(khf).Ok? ==> r.hostKeyCallback == KnownHosts(load(khf).value)
    ensures load(khf).Ok? ==> r.(hostKeyCallback := b.hostKeyCallback) == b
    ensures load(khf).Err? ==> r == AddError(b, load(khf).error)
  {
    match load(khf)
    case Err(e) => AddError(b, e)
    case Ok(db) => b.(hostKeyCallback := KnownHosts(db))
  }

  function WithInsecureIgnoreHostKey(b: Builder): (r: Builder)
    ensures r.hostKeyCallback == InsecureAcceptAll
    ensures r.(hostKeyCallback := b.hostKeyCallback) == b
  {
    b.(hostKeyCallback := InsecureAcceptAll)
  }

  /** The client configuration handed to the SSH library. */
  datatype ClientConfig = ClientConfig(user: string, auth: seq<AuthMethod>, hostKeyCallback: HostKeyPolicy)

  /** What a dial asks the SSH library to connect to. */
  datatype DialRequest = DialRequest(network: string, address: string, config: ClientConfig)

  /** Dial up to the network call: a recorded build error is returned
      unchanged; otherwise the request the SSH library would be given. */
  function Dial(b: Builder): (r: Result<DialRequest>)
    ensures r.Err? <==> GetErrors(b) != []
    ensures r.Err? ==> GetError(b) == Some(r.error)
    ensures r.Ok? ==> r.value.network == "tcp" && r.value.address == Endpoint(b)
    ensures r.Ok? ==> r.value.config == ClientConfig(b.username, b.authMethods, b.hostKeyCallback)
  {
    match GetError(b)
    case Some(err) => Err(err)
    case None => Ok(DialRequest("tcp", Endpoint(b), ClientConfig(b.username, b.authMethods, b.hostKeyCallback)))
  }

  /** The position of the last colon in s, if any. */
  function LastColon(s: string): (r: Option<nat>)
    ensures r.Some? ==> r.value < |s| && s[r.value] == ':' && ':' !in s[r.value + 1..]
    ensures r.None? ==> ':' !in s
    decreases |s|
  {
    if s == [] then None
    else if s[|s| - 1] == ':' then Some(|s| - 1)
    else
      var r := LastColon(s[..|s| - 1]);
      assert s == s[..|s| - 1] + [s[|s| - 1]];
      assert r.Some? ==> s[r.value + 1..] == s[..|s| - 1][r.value + 1..] + [s[|s| - 1]];
      r
  }

  /** Splits an address at its last colon and reads the part after it as
      %d writes an int: the inverse of the host:port form that Endpoint
      builds. It is not the dialer's own address parser, which refuses an
      unbracketed host that contains a colon. */
  function SplitAtLastColon(addr: string): (r: Option<(string, int)>)
  {
    match LastColon(addr)
    case None => None
    case Some(i) =>
      match Decimal.ParseDecimal(addr[i + 1..])
      case None => None
      case Some(p) => Some((addr[..i], p))
  }

  /** Without a combined string, the dial address determines the host and
      port that were set: splitting it at its last colon gives them back. */
  lemma EndpointSplits(b: Builder)
    requires b.hostPort == ""
    ensures SplitAtLastColon(Endpoint(b)) == Some((b.host, b.port as int))
  {
    var digits := Decimal.IntToDecimal(b.port);
    var addr := Endpoint(b);
    assert addr == b.host + ":" + digits;
    var r := LastColon(addr);
    assert addr[|b.host|] == ':';
    assert r.Some? && r.value == |b.host|;
    assert addr[|b.host| + 1..] == digits;
    assert addr[..|b.host|] == b.host;
    Decimal.DecimalRoundTrip(b.port);
  }

  /** b.WithHost(h).WithPort(p).WithHostPort(str) dials str when str is set. */
  lemma HostPortAfterHostAndPort(b: Builder, h: string, p: GoInt, str: string)
    requires str != ""
    ensures Endpoint(WithHostPort(WithPort(WithHost(b, h), p), str)) == str
  {
  }

  /** b.WithHostPort(str).WithHost(h).WithPort(p) dials h:p, whatever str was. */
  lemma HostAndPortAfterHostPort(b: Builder, str: string, h: string, p: GoInt)
    ensures Endpoint(WithPort(WithHost(WithHostPort(b, str), h), p)) == h + ":" + Decimal.IntToDecimal(p)
  {
  }

  /** Suspending and resuming are idempotent, and only the latest of them
      decides whether the next failure is recorded. */
  lemma ToggleLatestDecides(b: Builder, err: Error)
    ensures SuspendErrors(SuspendErrors(b)) == SuspendErrors(b)
    ensures ResumeErrors(ResumeErrors(b)) == ResumeErrors(b)
    ensures SuspendErrors(ResumeErrors(b)) == SuspendErrors(b)
    ensures ResumeErrors(SuspendErrors(b)) == ResumeErrors(b)
    ensures AddError(SuspendErrors(b), err).buildErrors == b.buildErrors
    ensures AddError(ResumeErrors(b), err).buildErrors == b.buildErrors + [err]
  {
  }

  /** An unreadable known-hosts file keeps the previous policy and records
      its error unless recording is suspended; accepting every host key
      afterwards still takes effect, and a recorded error still stops the dial. */
  lemma KnownHostsFailureThenInsecure(b: Builder, khf: seq<string>, load: seq<string> -> Result<KnownHostsDb>)
    requires load(khf).Err?
    ensures WithKnownHostsFiles(b, khf, load).hostKeyCallback == b.hostKeyCallback
    ensures !b.ignoringErrors ==> WithKnownHostsFiles(b, khf, load).buildErrors == b.buildErrors + [load(khf).error]
    ensures b.ignoringErrors ==> WithKnownHostsFiles(b, khf, load).buildErrors == b.buildErrors
    ensures WithInsecureIgnoreHostKey(WithKnownHostsFiles(b, khf, load)).hostKeyCallback == InsecureAcceptAll
    ensures !b.ignoringErrors ==> Dial(WithInsecureIgnoreHostKey(WithKnownHostsFiles(b, khf, load))) == Err(load(khf).error)
  {
  }

  /** While errors are recorded, a builder that dials after a known-hosts
      call checks host keys against the database that call loaded. */
  lemma KnownHostsCallGuardsDial(b: Builder, khf: seq<string>, load: seq<string> -> Result<KnownHostsDb>)
    requires !b.ignoringErrors
    ensures Dial(WithKnownHostsFiles(b, khf, load)).Ok? ==>
      load(khf).Ok? && Dial(WithKnownHostsFiles(b, khf, load)).value.config.hostKeyCallback == KnownHosts(load(khf).value)
  {
  }

  /** With recording suspended, a known-hosts call whose files cannot be read
      leaves an earlier accept-all policy in force and the dial goes ahead
      with it: the call does not by itself turn host-key checking on. */
  lemma SuspendedKnownHostsFailureKeepsAcceptAll(b: Builder, khf: seq<string>, load: seq<string> -> Result<KnownHostsDb>)
    requires load(khf).Err? && GetErrors(b) == []
    ensures var r := WithKnownHostsFiles(SuspendErrors(WithInsecureIgnoreHostKey(b)), khf, load);
      Dial(r).Ok? && Dial(r).value.config.hostKeyCallback == InsecureAcceptAll
  {
  }

  /** An agent that cannot be reached adds no auth method; it adds its error,
      which becomes the latest, unless recording is suspended. */
  lemma AgentFailureAddsNoMethod(b: Builder, e: Error)
    ensures WithDefaultAgent(b, Err(e)).authMethods == b.authMethods
    ensures !b.ignoringErrors ==> |GetErrors(WithDefaultAgent(b, Err(e)))| == |GetErrors(b)| + 1
    ensures !b.ignoringErrors ==> GetError(WithDefaultAgent(b, Err(e))) == Some(e)
    ensures b.ignoringErrors ==> GetErrors(WithDefaultAgent(b, Err(e))) == GetErrors(b)
  {
  }

  /** The configuration of the repository's integration test: user, combined
      address, accept-all host keys and one password reach the SSH library
      as they were given. */
  lemma IntegrationTestConfiguration(hostPort: string)
    requires hostPort != ""
    ensures var b := WithPassword(WithInsecureIgnoreHostKey(WithHostPort(WithUsername(New(), "testuser"), hostPort)), "pass word");
      Dial(b) == Ok(DialRequest("tcp", hostPort, ClientConfig("testuser", [Password("pass word")], InsecureAcceptAll)))
  {
    var auth: seq<AuthMethod> := [];
    assert auth + [Password("pass word")] == [Password("pass word")];
  }
}

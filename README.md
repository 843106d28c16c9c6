# sshbuilder in Dafny

A model of `sshbuilder`, a Go package that builds SSH clients by chaining
configuration calls. `Builder` is a record that every call copies:
`New().WithUsername(u).WithHostPort(a).WithPassword(p).Dial()`. The record
holds:

- the user name;
- the endpoint, either as a separate host and port or as one combined
  `host:port` string (setting one form clears the other);
- the ordered authentication methods (password, key agent);
- one host-key policy (a known-hosts database or accept-all);
- the build errors, together with a flag that suspends recording them.

`Dial` first refuses with the most recent build error. Otherwise it
computes the address and hands the configuration to the SSH library.

Files:

- `options.dfy`: `Option`, standing for a Go value that may be nil.
- `decimal.dfy`: Go's `%d` rendering of an `int`, and a parser that inverts it.
- `builder.dfy` (module `SshBuilder`): the `Builder` record and one function
  per method of `main.go`. It also has the pre-network part of `Dial` and
  lemmas about short call sequences.
- `chains.dfy` (module `BuilderChains`): a `Step` per chainable call and
  `Chain`, which applies a list of steps in order. Its lemmas hold for every
  sequence of calls: append-only lists, last-writer-wins fields, error
  gating, and dial refusal.

The collaborators that do I/O are parameters:

- agent discovery (`newAgent`) is the `Result<AgentHandle>` it returned;
- the known-hosts parser (`knownhosts.New`) is a function `load` from the
  list of files to a `Result<KnownHostsDb>`;
- the network dial is not modelled: `Dial` returns the `DialRequest`
  (network, address, client configuration) the SSH library would receive.

A known-hosts call turns host-key checking on only when its files load.
When they cannot be read and recording is on, the recorded error stops
the dial (`KnownHostsCallGuardsDial`). When recording is suspended,
nothing stops the dial, and an earlier accept-all policy stays in force
(`SuspendedKnownHostsFailureKeepsAcceptAll`). The doc comment at
main.go:95-101 says such a call "will disable ignoring unknown hosts".
That comment is out of date: it names `IgnoreUnknownHosts` and
`AddKnownHostsFile`, and neither exists in main.go. The model follows the
code.

Because Dafny datatypes are values, the Go package's promise that a
builder can be branched and reused is the model's native semantics.

## Model

| member | source | states |
|---|---|---|
| `SshBuilder.New` | main.go:38-41 | a fresh builder has no errors, records errors, has no user, methods or policy, and dials `":0"` |
| `SshBuilder.WithUsername` | main.go:54-58 | sets the user name and changes no other field |
| `SshBuilder.WithHost` | main.go:60-67 | sets the host, clears the combined string, keeps the port and every other field; the address becomes `h:port` |
| `SshBuilder.WithPort` | main.go:79-86 | sets the port, clears the combined string, keeps the host and every other field; the address becomes `host:p` |
| `SshBuilder.WithHostPort` | main.go:69-77 | sets the combined string, clears host to `""` and port to 0, changes nothing else; the address is the string, or `":0"` when it is empty |
| `SshBuilder.WithPassword` | main.go:88-93 | appends exactly one password method at the end and changes nothing else |
| `SshBuilder.WithDefaultAgent` | main.go:43-52 | on success appends one agent method at the end and changes nothing else; on failure it is `AddError` with the reported error |
| `SshBuilder.WithKnownHostsFiles` | main.go:95-109 | on success replaces the host-key policy by the parsed database and changes nothing else; on failure it is `AddError` with the parser's error |
| `SshBuilder.WithInsecureIgnoreHostKey` | main.go:111-117 | sets the accept-all policy unconditionally and changes nothing else |
| `SshBuilder.GetErrors` | main.go:119-122 | the recorded errors, oldest first |
| `SshBuilder.GetError` | main.go:124-131 | None exactly when no error is recorded, otherwise the last recorded error |
| `SshBuilder.SuspendErrors` | main.go:133-137 | sets the suspend flag and changes nothing else |
| `SshBuilder.ResumeErrors` | main.go:139-143 | clears the suspend flag and changes nothing else |
| `SshBuilder.AddError` | main.go:145-150 | appends exactly the error at the end when recording, which becomes `GetError`; keeps the list when suspended; no other field changes |
| `SshBuilder.Endpoint` | main.go:163-166 | the dial address is never empty and is the combined string whenever that is set |
| `SshBuilder.Dial` | main.go:153-166 | refused exactly when an error is recorded, with `GetError`'s error; otherwise a `tcp` request to `Endpoint` carrying user, methods in order, and policy |
| `SshBuilder.LastColon` | main.go:165 | the position of the last colon, with no colon after it; None only when there is no colon |
| `SshBuilder.SplitAtLastColon` | main.go:165 | splits at the last colon and reads the port as `%d` writes it; None when there is no colon or the port text is not such a numeral |
| `SshBuilder.EndpointSplits` | main.go:163-166 | without a combined string, the address determines the host and port: splitting it at its last colon gives back exactly the ones set (this is not a claim that the address can be dialled) |
| `SshBuilder.HostPortAfterHostAndPort` | main.go:63-86 | `WithHost(h).WithPort(p).WithHostPort(s)` dials `s` for non-empty `s` |
| `SshBuilder.HostAndPortAfterHostPort` | main.go:63-86 | `WithHostPort(s).WithHost(h).WithPort(p)` dials `h:p` |
| `SshBuilder.ToggleLatestDecides` | main.go:133-150 | suspend and resume are idempotent, the later overrides the earlier, and it decides whether `AddError` records |
| `SshBuilder.KnownHostsFailureThenInsecure` | main.go:102-117 | a failed known-hosts load keeps the policy whether or not recording is suspended; it adds its error only when recording; accept-all set afterwards is active; if the error was recorded, the dial returns it |
| `SshBuilder.KnownHostsCallGuardsDial` | main.go:102-109 | while recording, a dial that goes ahead after a known-hosts call checks keys against the database that call loaded |
| `SshBuilder.SuspendedKnownHostsFailureKeepsAcceptAll` | main.go:102-109 | with recording suspended, a failed known-hosts call after accept-all leaves accept-all in force, and the dial goes ahead with it |
| `SshBuilder.AgentFailureAddsNoMethod` | main.go:45-49 | an unreachable agent never adds an auth method; when recording, it adds one error, which becomes the latest; when suspended, the errors are unchanged |
| `SshBuilder.IntegrationTestConfiguration` | main_test.go:13-19 | the integration test's builder produces a `tcp` request to the given address with user `testuser`, one password `pass word` and accept-all host keys |
| `Decimal.NatToDecimal` | main.go:165 | `%d` of a non-negative value is a non-empty digit string with no leading zero, starting with `0` only for zero |
| `Decimal.IntToDecimal` | main.go:165 | `%d` of an int: a minus sign exactly for negatives, then a canonical numeral; never a colon |
| `Decimal.DecimalRoundTrip` | main.go:165 | parsing the `%d` text of any int gives the int back |
| `Decimal.DecimalRoundTripBack` | main.go:165 | every text the parser accepts is exactly the `%d` text of its value |
| `Decimal.IntToDecimalInjective` | main.go:165 | distinct ports give distinct address suffixes |
| `BuilderChains.ChainAppend` | main.go:17-20 | a chain of calls can be split at any point: the first part's result is the second part's receiver |
| `BuilderChains.ChainAuthMethods` | main.go:45-52 | after any calls, the auth methods are the old ones followed by those the calls added, in call order |
| `BuilderChains.ChainHostKeyPolicy` | main.go:102-117 | after any calls, the host-key policy is the one installed by the last successful policy call, or the old one if none |
| `BuilderChains.ChainIgnoringErrors` | main.go:133-143 | after any calls, the suspend flag is set by the last suspend or resume, or is unchanged if none |
| `BuilderChains.ChainErrorsAppendOnly` | main.go:145-150 | recorded errors are never removed or reordered: the old list is a prefix of the new one |
| `BuilderChains.ApplyErrors` | main.go:145-150 | one call appends its own error exactly when it fails while recording, and otherwise leaves the errors unchanged |
| `BuilderChains.ChainErrorsExact` | main.go:133-150 | after any calls, the errors are the old ones followed by the errors of the failures made while recording was on (decided by the last suspend or resume before each), in call order |
| `BuilderChains.ResumedChainRecordsEveryFailure` | main.go:139-150 | after resuming, with no later suspend, every failure is recorded in call order and recording stays on |
| `BuilderChains.ChainErrorsBounded` | main.go:45-52 | a chain adds at most one error per failing call |
| `BuilderChains.SuspendedChainRecordsNothing` | main.go:133-150 | while suspended and never resumed, no call adds an error and recording stays suspended |
| `BuilderChains.CleanChainRecordsNothing` | main.go:45-52 | calls whose collaborators all succeed add no error |
| `BuilderChains.ResumedFailureRecorded` | main.go:139-150 | after resuming, a failing call appends exactly its own error, which becomes the latest |
| `BuilderChains.OtherStepsKeepEndpoint` | main.go:54-117 | calls other than the three endpoint setters leave host, port, combined string and address unchanged |
| `BuilderChains.HostPortLastWriterWins` | main.go:63-86 | a non-empty combined string is the address whatever was set before it, until another endpoint call |
| `BuilderChains.HostAndPortLastWritersWin` | main.go:63-86 | a host then a port set after anything make the address `host:port`, until another endpoint call |
| `BuilderChains.ChainKeepsEndpointExclusive` | main.go:63-86 | no call sequence leaves both a combined string and a separate host or port set |
| `BuilderChains.ReachableEndpointExclusive` | main.go:38-86 | every builder reached from `New` has at most one endpoint form set |
| `BuilderChains.DialRefusedAfterError` | main.go:153-156 | once an error is recorded, every builder derived from it refuses to dial with its latest error |
| `BuilderChains.CleanChainDials` | main.go:153-166 | a builder reached from `New` without a collaborator failure always yields a dial request |

## Left out

- `String` (main.go:33-36): its text comes from Go's `%#v` reflection formatting.
- The `knownHostsFile` field (main.go:28): nothing writes or reads it.
- The network part of `Dial` (main.go:167-172): the TCP connection, the SSH handshake and authentication, and wrapping a failure as `Failed to connect: …`. The model stops at the request it would make.
- `newAgent` (main.go:175-188): reading `SSH_AUTH_SOCK` and opening the Unix socket are environment and I/O. `WithDefaultAgent` takes the outcome as a parameter.
- `knownhosts.New` (main.go:103): parsing files is I/O in a foreign library. `WithKnownHostsFiles` takes the parser as a function parameter.
- Go slice aliasing: two builders forked from one ancestor may share the backing array of `buildErrors` or `authMethods` under `append` (main.go:50, 91, 147). The model's lists are values, as the by-value promise of main.go:17-20 says.
- `Endpoint` does not bracket the host, as main.go:165 does not. An IPv6 literal host such as `::1` gives the address `::1:22`, which the SSH library's address parser refuses. That refusal happens inside the library and is not modelled.
- The width of Go's `int` is platform-dependent. `GoInt` fixes it at 64 bits.
- main_test.go needs a Docker-hosted SSH server. Only the configuration it builds is modelled, in `IntegrationTestConfiguration`.

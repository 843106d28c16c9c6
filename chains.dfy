/**
 * Chains of builder calls. A Step names one chainable call together with
 * the outcome of any collaborator it consults; Chain applies a sequence of
 * steps in order. The lemmas here state what holds after ANY chain: which
 * fields only grow, which value the last writer leaves, and when a dial is
 * refused before touching the network.
 */
module BuilderChains {
  import opened Options
  import Decimal
  import opened SshBuilder

  datatype Step =
    | SetUsername(u: string)
    | SetHost(h: string)
    | SetPort(p: GoInt)
    | SetHostPort(str: string)
    | AddPassword(password: string)
    | UseDefaultAgent(agent: Result<AgentHandle>)
    | UseKnownHostsFiles(khf: seq<string>, load: seq<string> -> Result<KnownHostsDb>)
    | IgnoreHostKey
    | Suspend
    | Resume

  function Apply(b: Builder, step: Step): Builder
  {
    match step
    case SetUsername(u) => WithUsername(b, u)
    case SetHost(h) => WithHost(b, h)
    case SetPort(p) => WithPort(b, p)
    case SetHostPort(str) => WithHostPort(b, str)
    case AddPassword(password) => WithPassword(b, password)
    case UseDefaultAgent(agent) => WithDefaultAgent(b, agent)
    case UseKnownHostsFiles(khf, load) => WithKnownHostsFiles(b, khf, load)
    case IgnoreHostKey => WithInsecureIgnoreHostKey(b)
    case Suspend => SuspendErrors(b)
    case Resume => ResumeErrors(b)
  }

  /** b.Step1().Step2()...: the steps applied left to right. */
  function Chain(b: Builder, steps: seq<Step>): Builder
    decreases |steps|
  {
    if steps == [] then b else Apply(Chain(b, steps[..|steps| - 1]), steps[|steps| - 1])
  }

  /** A step whose collaborator reported an error. */
  predicate Fails(step: Step) {
    || (step.UseDefaultAgent? && step.agent.Err?)
    || (step.UseKnownHostsFiles? && step.load(step.khf).Err?)
  }

  /** The error a failing step's collaborator reported. */
  function FailureOf(step: Step): Error
    requires Fails(step)
  {
    if step.UseDefaultAgent? then step.agent.error else step.load(step.khf).error
  }

  /** A step that sets the host, the port or the combined host:port. */
  predicate SetsEndpoint(step: Step) {
    step.SetHost? || step.SetPort? || step.SetHostPort?
  }

  /** The authentication methods one step adds, in order. */
  function AuthAddedBy(step: Step): seq<AuthMethod> {
    if step.AddPassword? then [Password(step.password)]
    else if step.UseDefaultAgent? && step.agent.Ok? then [AgentKeys(step.agent.value)]
    else []
  }

  /** Reference definition: every method the steps add, in the order added. */
  function AuthAdded(steps: seq<Step>): seq<AuthMethod>
  {
    if steps == [] then [] else AuthAddedBy(steps[0]) + AuthAdded(steps[1..])
  }

  /** The host-key policy one step installs, if it installs one. */
  function PolicySetBy(step: Step): Option<HostKeyPolicy> {
    if step.IgnoreHostKey? then Some(InsecureAcceptAll)
    else if step.UseKnownHostsFiles? && step.load(step.khf).Ok? then Some(KnownHosts(step.load(step.khf).value))
    else None
  }

  /** Reference definition: the policy installed by the last step that
      installs one, or start when none does. */
  function LastPolicy(start: HostKeyPolicy, steps: seq<Step>): HostKeyPolicy
    decreases |steps|
  {
    if steps == [] then start
    else match PolicySetBy(steps[|steps| - 1])
      case Some(p) => p
      case None => LastPolicy(start, steps[..|steps| - 1])
  }

  /** Reference definition: the direction of the last Suspend or Resume. */
  function LastToggle(steps: seq<Step>): Option<bool>
    decreases |steps|
  {
    if steps == [] then None
    else if steps[|steps| - 1].Suspend? then Some(true)
    else if steps[|steps| - 1].Resume? then Some(false)
    else LastToggle(steps[..|steps| - 1])
  }

  /** Chaining two call sequences is the same as chaining their concatenation. */
  lemma {:induction false} ChainAppend(b: Builder, xs: seq<Step>, ys: seq<Step>)
    ensures Chain(b, xs + ys) == Chain(Chain(b, xs), ys)
    decreases |ys|
  {
    if ys == [] {
      assert xs + ys == xs;
    } else {
      var zs := xs + ys;
      assert zs[..|zs| - 1] == xs + ys[..|ys| - 1];
      assert zs[|zs| - 1] == ys[|ys| - 1];
      ChainAppend(b, xs, ys[..|ys| - 1]);
    }
  }

  lemma {:induction false} AuthAddedSnoc(steps: seq<Step>, step: Step)
    ensures AuthAdded(steps + [step]) == AuthAdded(steps) + AuthAddedBy(step)
    decreases |steps|
  {
    if steps == [] {
      assert [step][1..] == [];
    } else {
      assert (steps + [step])[1..] == steps[1..] + [step];
      AuthAddedSnoc(steps[1..], step);
    }
  }

  /** Authentication methods are only ever appended: after any chain they
      are the old ones followed by those the steps added, in call order. */
  lemma {:induction false} ChainAuthMethods(b: Builder, steps: seq<Step>)
    ensures Chain(b, steps).authMethods == b.authMethods + AuthAdded(steps)
    decreases |steps|
  {
    if steps != [] {
      var init := steps[..|steps| - 1];
      var last := steps[|steps| - 1];
      assert steps == init + [last];
      ChainAuthMethods(b, init);
      AuthAddedSnoc(init, last);
    }
  }

  /** Exactly one host-key policy is active: the last one installed wins,
      and a failed known-hosts load installs nothing. */
  lemma {:induction false} ChainHostKeyPolicy(b: Builder, steps: seq<Step>)
    ensures Chain(b, steps).hostKeyCallback == LastPolicy(b.hostKeyCallback, steps)
    decreases |steps|
  {
    if steps != [] {
      ChainHostKeyPolicy(b, steps[..|steps| - 1]);
    }
  }

  /** Whether errors are being recorded is decided by the most recent
      Suspend or Resume alone. */
  lemma {:induction false} ChainIgnoringErrors(b: Builder, steps: seq<Step>)
    ensures Chain(b, steps).ignoringErrors == match LastToggle(steps) case Some(t) => t case None => b.ignoringErrors
    decreases |steps|
  {
    if steps != [] {
      ChainIgnoringErrors(b, steps[..|steps| - 1]);
    }
  }

  /** Build errors are only ever appended, never removed or reordered. */
  lemma {:induction false} ChainErrorsAppendOnly(b: Builder, steps: seq<Step>)
    ensures b.buildErrors <= Chain(b, steps).buildErrors
    decreases |steps|
  {
    if steps != [] {
      ChainErrorsAppendOnly(b, steps[..|steps| - 1]);
    }
  }

  /** The number of steps whose collaborator reported an error. */
  function FailureCount(steps: seq<Step>): nat
    decreases |steps|
  {
    if steps == [] then 0
    else FailureCount(steps[..|steps| - 1]) + if Fails(steps[|steps| - 1]) then 1 else 0
  }

  /** Whether recording is suspended after steps, starting from ignoring. */
  function IgnoringAfter(ignoring: bool, steps: seq<Step>): bool {
    match LastToggle(steps)
    case Some(t) => t
    case None => ignoring
  }

  /** Reference definition: the errors of the failing steps that come while
      recording is on, in call order; whether it is on at a step is decided
      by the last Suspend or Resume before it, or by ignoring if none. */
  function Recorded(ignoring: bool, steps: seq<Step>): seq<Error>
    decreases |steps|
  {
    if steps == [] then []
    else
      var init, last := steps[..|steps| - 1], steps[|steps| - 1];
      Recorded(ignoring, init)
      + if Fails(last) && !IgnoringAfter(ignoring, init) then [FailureOf(last)] else []
  }

  /** The errors of all failing steps, in call order. */
  function Failures(steps: seq<Step>): seq<Error>
    decreases |steps|
  {
    if steps == [] then []
    else
      var init, last := steps[..|steps| - 1], steps[|steps| - 1];
      Failures(init) + if Fails(last) then [FailureOf(last)] else []
  }

  /** One step appends its own error exactly when it fails while recording. */
  lemma ApplyErrors(b: Builder, step: Step)
    ensures Apply(b, step).buildErrors
      == b.buildErrors + if Fails(step) && !b.ignoringErrors then [FailureOf(step)] else []
  {
  }

  /** After any chain the build errors are exactly the old ones followed by
      the errors of the failures made while recording was on, in order. */
  lemma {:induction false} ChainErrorsExact(b: Builder, steps: seq<Step>)
    ensures Chain(b, steps).buildErrors == b.buildErrors + Recorded(b.ignoringErrors, steps)
    decreases |steps|
  {
    if steps != [] {
      var init, last := steps[..|steps| - 1], steps[|steps| - 1];
      var c := Chain(b, init);
      ChainErrorsExact(b, init);
      ChainIgnoringErrors(b, init);
      assert c.ignoringErrors == IgnoringAfter(b.ignoringErrors, init);
      ApplyErrors(c, last);
      var added := if Fails(last) && !c.ignoringErrors then [FailureOf(last)] else [];
      assert Recorded(b.ignoringErrors, steps) == Recorded(b.ignoringErrors, init) + added;
      assert Chain(b, steps).buildErrors == b.buildErrors + Recorded(b.ignoringErrors, init) + added;
    }
  }

  /** After ResumeErrors, and as long as nothing suspends recording again,
      every failure is recorded, in the order the calls were made. */
  lemma {:induction false} ResumedChainRecordsEveryFailure(b: Builder, steps: seq<Step>)
    requires forall i :: 0 <= i < |steps| ==> !steps[i].Suspend?
    ensures Chain(ResumeErrors(b), steps).buildErrors == b.buildErrors + Failures(steps)
    ensures !Chain(ResumeErrors(b), steps).ignoringErrors
    decreases |steps|
  {
    if steps != [] {
      ResumedChainRecordsEveryFailure(b, steps[..|steps| - 1]);
    }
  }

  /** Each step records at most one error, and only a failing one does. */
  lemma {:induction false} ChainErrorsBounded(b: Builder, steps: seq<Step>)
    ensures |Chain(b, steps).buildErrors| <= |b.buildErrors| + FailureCount(steps)
    decreases |steps|
  {
    if steps != [] {
      ChainErrorsBounded(b, steps[..|steps| - 1]);
    }
  }

  /** While recording is suspended and nothing resumes it, no failure adds
      to the error list. */
  lemma {:induction false} SuspendedChainRecordsNothing(b: Builder, steps: seq<Step>)
    requires b.ignoringErrors
    requires forall i :: 0 <= i < |steps| ==> !steps[i].Resume?
    ensures Chain(b, steps).buildErrors == b.buildErrors
    ensures Chain(b, steps).ignoringErrors
    decreases |steps|
  {
    if steps != [] {
      SuspendedChainRecordsNothing(b, steps[..|steps| - 1]);
    }
  }

  /** A chain in which no collaborator fails records no error. */
  lemma {:induction false} CleanChainRecordsNothing(b: Builder, steps: seq<Step>)
    requires forall i :: 0 <= i < |steps| ==> !Fails(steps[i])
    ensures Chain(b, steps).buildErrors == b.buildErrors
    decreases |steps|
  {
    if steps != [] {
      CleanChainRecordsNothing(b, steps[..|steps| - 1]);
    }
  }

  /** Once recording is resumed, a failing step appends exactly its own
      error, which becomes the most recent one. */
  lemma ResumedFailureRecorded(b: Builder, step: Step)
    requires Fails(step)
    ensures Apply(ResumeErrors(b), step).buildErrors == b.buildErrors + [FailureOf(step)]
    ensures GetError(Apply(ResumeErrors(b), step)) == Some(FailureOf(step))
  {
  }

  /** Steps that set no endpoint form leave the dial address alone. */
  lemma {:induction false} OtherStepsKeepEndpoint(b: Builder, steps: seq<Step>)
    requires forall i :: 0 <= i < |steps| ==> !SetsEndpoint(steps[i])
    ensures Endpoint(Chain(b, steps)) == Endpoint(b)
    ensures Chain(b, steps).host == b.host && Chain(b, steps).port == b.port
    ensures Chain(b, steps).hostPort == b.hostPort
    decreases |steps|
  {
    if steps != [] {
      OtherStepsKeepEndpoint(b, steps[..|steps| - 1]);
    }
  }

  /** Last writer wins: a non-empty combined host:port is the dial address
      whatever host and port were set before it, as long as no later call
      sets an endpoint form. */
  lemma HostPortLastWriterWins(b: Builder, before: seq<Step>, str: string, after: seq<Step>)
    requires str != ""
    requires forall i :: 0 <= i < |after| ==> !SetsEndpoint(after[i])
    ensures Endpoint(Chain(b, before + [SetHostPort(str)] + after)) == str
  {
    ChainAppend(b, before + [SetHostPort(str)], after);
    ChainAppend(b, before, [SetHostPort(str)]);
    OtherStepsKeepEndpoint(Chain(b, before + [SetHostPort(str)]), after);
  }

  /** Last writer wins the other way: a host and a port set after a combined
      host:port make the address host:port, as long as no later call sets an
      endpoint form. */
  lemma HostAndPortLastWritersWin(b: Builder, before: seq<Step>, h: string, p: GoInt, after: seq<Step>)
    requires forall i :: 0 <= i < |after| ==> !SetsEndpoint(after[i])
    ensures Endpoint(Chain(b, before + [SetHost(h), SetPort(p)] + after)) == h + ":" + Decimal.IntToDecimal(p)
  {
    ChainAppend(b, before + [SetHost(h), SetPort(p)], after);
    ChainAppend(b, before, [SetHost(h), SetPort(p)]);
    assert [SetHost(h), SetPort(p)][..1] == [SetHost(h)];
    OtherStepsKeepEndpoint(Chain(b, before + [SetHost(h), SetPort(p)]), after);
  }

  /** Whatever the calls, the two endpoint forms are never both set when
      the chain starts from a builder where they are not. */
  lemma {:induction false} ChainKeepsEndpointExclusive(b: Builder, steps: seq<Step>)
    requires EndpointExclusive(b)
    ensures EndpointExclusive(Chain(b, steps))
    decreases |steps|
  {
    if steps != [] {
      ChainKeepsEndpointExclusive(b, steps[..|steps| - 1]);
    }
  }

  /** A builder built with New never has both endpoint forms set. */
  lemma {:induction false} ReachableEndpointExclusive(steps: seq<Step>)
    ensures EndpointExclusive(Chain(New(), steps))
  {
    ChainKeepsEndpointExclusive(New(), steps);
  }

  /** A recorded error survives every later call, so dialing any builder
      derived from it is refused with the latest error, without a request. */
  lemma {:induction false} DialRefusedAfterError(b: Builder, steps: seq<Step>)
    requires GetErrors(b) != []
    ensures Dial(Chain(b, steps)).Err?
    ensures Dial(Chain(b, steps)).error == GetErrors(Chain(b, steps))[|GetErrors(Chain(b, steps))| - 1]
  {
    ChainErrorsAppendOnly(b, steps);
  }

  /** A chain from New in which no collaborator fails always reaches the
      network: its dial produces a request. */
  lemma {:induction false} CleanChainDials(steps: seq<Step>)
    requires forall i :: 0 <= i < |steps| ==> !Fails(steps[i])
    ensures Dial(Chain(New(), steps)).Ok?
  {
    CleanChainRecordsNothing(New(), steps);
  }
}

/**
 * The CN02 test resource's life cycle in testing/api/vpc/aws-vpc.go: its inputs read from the
 * environment, its creation, its external-IP lookup, and the idempotent cleanup that waits for
 * termination. EC2 answers are oracle inputs; the wall clock is the elapsed time recorded with
 * each poll of the wait loop.
 */
module ProbeCleanup {
  import opened Wrappers
  import opened Text
  import opened PeeringAllowList

  // ---------------------------------------------------------------------------
  // Inputs read from the environment

  /** `cnTestAmiID`: the first set of the three AMI variables, trimmed; "" when none is set. */
  function TestAmiId(env: Env): (r: string)
    ensures var cn, cn02, plain := TrimSpace(Getenv(env, "CN_TEST_AMI_ID")),
              TrimSpace(Getenv(env, "CN02_TEST_AMI_ID")), TrimSpace(Getenv(env, "TEST_AMI_ID"));
            r == if cn != "" then cn else if cn02 != "" then cn02 else plain
  {
    FirstSetEnvOfThree(env, "CN_TEST_AMI_ID", "CN02_TEST_AMI_ID", "TEST_AMI_ID");
    FirstSetEnv(env, ["CN_TEST_AMI_ID", "CN02_TEST_AMI_ID", "TEST_AMI_ID"])
  }

  /** `cnTestInstanceType`: the first set of the three instance-type variables, else t3.micro. */
  function TestInstanceType(env: Env): (r: string)
    ensures r != ""
    ensures var cn, cn02, plain := TrimSpace(Getenv(env, "CN_TEST_INSTANCE_TYPE")),
              TrimSpace(Getenv(env, "CN02_TEST_INSTANCE_TYPE")), TrimSpace(Getenv(env, "TEST_INSTANCE_TYPE"));
            r == if cn != "" then cn else if cn02 != "" then cn02 else if plain != "" then plain else "t3.micro"
  {
    FirstSetEnvOfThree(env, "CN_TEST_INSTANCE_TYPE", "CN02_TEST_INSTANCE_TYPE", "TEST_INSTANCE_TYPE");
    var v := FirstSetEnv(env, ["CN_TEST_INSTANCE_TYPE", "CN02_TEST_INSTANCE_TYPE", "TEST_INSTANCE_TYPE"]);
    if v == "" then "t3.micro" else v
  }

  /** Three variables are consulted in order. */
  lemma FirstSetEnvOfThree(env: Env, a: string, b: string, c: string)
    ensures var ta, tb, tc := TrimSpace(Getenv(env, a)), TrimSpace(Getenv(env, b)), TrimSpace(Getenv(env, c));
            FirstSetEnv(env, [a, b, c]) == if ta != "" then ta else if tb != "" then tb else tc
  {
    var ta, tb, tc := TrimSpace(Getenv(env, a)), TrimSpace(Getenv(env, b)), TrimSpace(Getenv(env, c));
    assert [a, b, c][1..] == [b, c] && [b, c][1..] == [c] && [c][1..] == [];
    assert FirstSetEnv(env, [c]) == tc;
    assert FirstSetEnv(env, [b, c]) == if tb != "" then tb else tc;
  }

  const NanosPerSecond: int := 1_000_000_000

  /** The text of the first set wait variable, trimmed; "" when neither is set. */
  function DeleteWaitText(env: Env): string
  {
    FirstSetEnv(env, ["CN_TEST_DELETE_WAIT_SECONDS", "CN02_TEST_DELETE_WAIT_SECONDS"])
  }

  /** Two's-complement 64-bit wrap-around, as Go's `int64` arithmetic does. */
  function Wrap64(x: int): (r: int)
    ensures MinInt64 <= r <= MaxInt64
    ensures MinInt64 <= x <= MaxInt64 ==> r == x
  {
    (x - MinInt64) % 0x1_0000_0000_0000_0000 + MinInt64
  }

  /**
   * `cnTestDeleteWaitTimeout` as written, in nanoseconds: a positive whole number of seconds
   * times `time.Second`, in wrapping `int64` arithmetic; 0 (asynchronous cleanup) otherwise.
   */
  function DeleteWaitTimeoutAsWritten(env: Env): (d: int)
    ensures MinInt64 <= d <= MaxInt64
    ensures DeleteWaitText(env) == "" ==> d == 0
  {
    var raw := DeleteWaitText(env);
    if raw == "" then 0
    else
      match Atoi(raw)
      case None => 0
      case Some(seconds) => if seconds <= 0 then 0 else Wrap64(seconds * NanosPerSecond)
  }

  /** Past the int64 maximum and below 2^64, a product wraps to a negative number. */
  lemma Wrap64Negative(x: int)
    requires MaxInt64 < x < 0x1_0000_0000_0000_0000
    ensures Wrap64(x) == x - 0x1_0000_0000_0000_0000 < 0
  {
  }

  lemma DeleteWaitTextIsFirstVariable(env: Env, s: string)
    requires Getenv(env, "CN_TEST_DELETE_WAIT_SECONDS") == s && TrimSpace(s) == s && s != ""
    ensures DeleteWaitText(env) == s
  {
  }

  /**
   * A wait of more than about 292 years overflows `time.Duration` and comes out negative, so
   * the cleanup that was asked to wait does not wait at all.
   */
  lemma DeleteWaitTimeoutOverflows(env: Env, seconds: nat)
    requires MaxInt64 / NanosPerSecond < seconds <= 2 * (MaxInt64 / NanosPerSecond)
    requires Getenv(env, "CN_TEST_DELETE_WAIT_SECONDS") == NatToString(seconds)
    ensures DeleteWaitTimeoutAsWritten(env) < 0
  {
    NatToStringTrimmed(seconds);
    DeleteWaitTextIsFirstVariable(env, NatToString(seconds));
    AtoiOfNatToString(seconds);
    assert MaxInt64 < seconds * 1_000_000_000 < 0x1_0000_0000_0000_0000;
    Wrap64Negative(seconds * NanosPerSecond);
  }

  /**
   * `cnTestDeleteWaitTimeout` as evidently intended: the same, except that a wait too long
   * for `time.Duration` saturates at its maximum instead of wrapping.
   */
  function DeleteWaitTimeout(env: Env): (d: int)
    ensures 0 <= d <= MaxInt64
    ensures d > 0 <==> DeleteWaitText(env) != "" && Atoi(DeleteWaitText(env)).Some? && Atoi(DeleteWaitText(env)).value > 0
    ensures d > 0 ==> d >= NanosPerSecond
  {
    var raw := DeleteWaitText(env);
    if raw == "" then 0
    else
      match Atoi(raw)
      case None => 0
      case Some(seconds) =>
        if seconds <= 0 then 0
        else if seconds > MaxInt64 / NanosPerSecond then MaxInt64
        else seconds * NanosPerSecond
  }

  /** The two agree on every wait that fits in a `time.Duration`. */
  lemma DeleteWaitTimeoutAgrees(env: Env)
    requires var p := Atoi(DeleteWaitText(env)); p.Some? ==> p.value <= MaxInt64 / NanosPerSecond
    ensures DeleteWaitTimeout(env) == DeleteWaitTimeoutAsWritten(env)
  {
  }

  // ---------------------------------------------------------------------------
  // EC2 errors and DescribeInstances

  /** An EC2 error: a smithy API error carries a code. */
  datatype AwsError = ApiErr(code: string, text: string) | PlainErr(text: string)

  /** `isEC2NotFoundError`: an API error whose lower-cased code contains "notfound". */
  predicate IsNotFoundError(e: AwsError)
  {
    e.ApiErr? && Contains(ToLower(TrimSpace(e.code)), "notfound")
  }

  datatype Instance = Instance(instanceId: string, state: string, publicIp: string, vpcId: string, subnetId: string)

  /** DescribeInstances' answer: the instances of all reservations in order, or the call's error. */
  datatype DescribeAnswer = Reservations(instances: seq<Instance>) | DescribeError(err: AwsError)

  /** The first instance whose trimmed id is `id`. */
  function FindInstance(instances: seq<Instance>, id: string): (r: Option<Instance>)
    ensures r.Some? ==> r.value in instances && TrimSpace(r.value.instanceId) == id
    ensures r.None? <==> forall k :: 0 <= k < |instances| ==> TrimSpace(instances[k].instanceId) != id
    ensures r.Some? ==> exists k :: (0 <= k < |instances| && instances[k] == r.value
      && forall j :: 0 <= j < k ==> TrimSpace(instances[j].instanceId) != id)
  {
    if |instances| == 0 then None
    else if TrimSpace(instances[0].instanceId) == id then Some(instances[0])
    else
      var r := FindInstance(instances[1..], id);
      assert forall k :: 1 <= k < |instances| ==> instances[1..][k - 1] == instances[k];
      if r.Some? then
        FirstMatchAfterHead(instances, id, r.value);
        r
      else r
  }

  /** A first match in the tail of a list whose head does not match is a first match in the list. */
  lemma FirstMatchAfterHead(instances: seq<Instance>, id: string, v: Instance)
    requires |instances| > 0 && TrimSpace(instances[0].instanceId) != id
    requires exists k :: (0 <= k < |instances[1..]| && instances[1..][k] == v
      && forall j :: 0 <= j < k ==> TrimSpace(instances[1..][j].instanceId) != id)
    ensures exists k :: (0 <= k < |instances| && instances[k] == v
      && forall j :: 0 <= j < k ==> TrimSpace(instances[j].instanceId) != id)
  {
    var k :| 0 <= k < |instances[1..]| && instances[1..][k] == v
      && forall j :: 0 <= j < k ==> TrimSpace(instances[1..][j].instanceId) != id;
    assert instances[k + 1] == v;
    assert forall j :: 1 <= j < k + 1 ==> instances[j] == instances[1..][j - 1];
  }

  datatype Lookup = Found(instance: Instance) | LookupFailed(err: AwsError)

  /**
   * `describeInstance`: a not-found API error is passed on as is, any other error is wrapped
   * (keeping its API code), and an answer without the instance is a plain "not found" error.
   */
  function DescribeInstance(id: string, answer: DescribeAnswer): (r: Lookup)
    ensures r.Found? <==> answer.Reservations? && FindInstance(answer.instances, id).Some?
    ensures r.Found? ==> TrimSpace(r.instance.instanceId) == id
    ensures answer.DescribeError? && IsNotFoundError(answer.err) ==> r == LookupFailed(answer.err)
  {
    match answer
    case DescribeError(e) =>
      if IsNotFoundError(e) then LookupFailed(e)
      else
        var text := "failed to describe resource " + id + ": " + e.text;
        LookupFailed(if e.ApiErr? then ApiErr(e.code, text) else PlainErr(text))
    case Reservations(instances) =>
      match FindInstance(instances, id)
      case Some(instance) => Found(instance)
      case None => LookupFailed(PlainErr("resource " + id + " not found"))
  }

  /** A failed lookup that the termination wait reads as "the instance is gone". */
  predicate IsGone(l: Lookup)
  {
    l.LookupFailed? && (IsNotFoundError(l.err) || Contains(ToLower(l.err.text), "not found"))
  }

  /** An answer that does not list the instance reads as "gone". */
  lemma MissingInstanceIsGone(id: string, instances: seq<Instance>)
    requires forall k :: 0 <= k < |instances| ==> TrimSpace(instances[k].instanceId) != id
    ensures IsGone(DescribeInstance(id, Reservations(instances)))
  {
    var text := "resource " + id + " not found";
    var lower := ToLower(text);
    var at := |text| - 9;
    assert lower[at..at + 9] == "not found";
    assert OccursAt(lower, "not found", at);
  }

  // ---------------------------------------------------------------------------
  // GetResourceExternalIpAssignment

  datatype IpAssignment = IpAssignment(
    resourceId: string,
    hasExternalIp: bool,
    externalIp: string,
    state: string,
    vpcId: string,
    subnetId: string)

  /** `GetResourceExternalIpAssignment`: the instance has an external IP when its public address is set. */
  function ExternalIpAssignment(resourceId: string, answer: DescribeAnswer): (r: Result<IpAssignment>)
    ensures r.Ok? <==> TrimSpace(resourceId) != "" && DescribeInstance(TrimSpace(resourceId), answer).Found?
    ensures r.Ok? ==>
      var inst := DescribeInstance(TrimSpace(resourceId), answer).instance;
      r.value.resourceId == TrimSpace(resourceId)
      && (r.value.hasExternalIp <==> TrimSpace(inst.publicIp) != "")
      && r.value.externalIp == TrimSpace(inst.publicIp)
      && r.value.state == inst.state
  {
    var id := TrimSpace(resourceId);
    if id == "" then Err("resourceID is required")
    else
      match DescribeInstance(id, answer)
      case LookupFailed(e) => Err(e.text)
      case Found(inst) =>
        var ip := TrimSpace(inst.publicIp);
        Ok(IpAssignment(id, ip != "", ip, inst.state, TrimSpace(inst.vpcId), TrimSpace(inst.subnetId)))
  }

  // ---------------------------------------------------------------------------
  // CreateTestResourceInSubnet

  /** RunInstances' answer: the ids of the launched instances, or the call's error. */
  datatype LaunchAnswer = Launched(instanceIds: seq<string>) | LaunchError(err: AwsError)

  datatype CreatedResource = CreatedResource(resourceId: string, subnetId: string, amiId: string, instanceType: string)

  /**
   * `CreateTestResourceInSubnet`: one instance of the configured AMI and type in the subnet.
   * The best-effort wait for a stable state after launch does not affect the result.
   */
  function CreateTestResource(subnetId: string, env: Env, answer: LaunchAnswer): (r: Result<CreatedResource>)
    ensures r.Ok? <==>
      TrimSpace(subnetId) != "" && TestAmiId(env) != "" && answer.Launched?
      && answer.instanceIds != [] && TrimSpace(answer.instanceIds[0]) != ""
    ensures r.Ok? ==>
      r.value.resourceId == TrimSpace(answer.instanceIds[0]) && r.value.subnetId == TrimSpace(subnetId)
      && r.value.amiId == TestAmiId(env) && r.value.instanceType == TestInstanceType(env)
  {
    var subnet := TrimSpace(subnetId);
    if subnet == "" then Err("subnetID is required")
    else
      var ami := TestAmiId(env);
      if ami == "" then Err("missing test AMI input: set CN_TEST_AMI_ID or CN02_TEST_AMI_ID")
      else
        match answer
        case LaunchError(e) => Err("failed to create test resource in subnet " + subnet + ": " + e.text)
        case Launched(ids) =>
          if |ids| == 0 then Err("failed to create test resource in subnet " + subnet + ": empty RunInstances response")
          else if TrimSpace(ids[0]) == "" then Err("failed to create test resource in subnet " + subnet + ": missing instance id")
          else Ok(CreatedResource(TrimSpace(ids[0]), subnet, ami, TestInstanceType(env)))
  }

  // ---------------------------------------------------------------------------
  // waitForInstanceTermination

  /** One round of the wait loop: DescribeInstances' answer and the time elapsed since the wait began. */
  datatype Poll = Poll(answer: DescribeAnswer, elapsed: int)

  /** What one round decides: poll again, or stop with nil (`None`) or an error text. */
  datatype StepOutcome = KeepPolling | Stop(result: Option<string>)

  /**
   * One round of `waitForInstanceTermination`: it stops on a failed lookup (nil when the
   * failure says the instance is gone), on a terminated instance (nil), or past the deadline.
   */
  function WaitStep(id: string, timeout: int, p: Poll): (s: StepOutcome)
    ensures p.elapsed > timeout ==> s.Stop?
    ensures var l := DescribeInstance(id, p.answer);
      (s.Stop? <==> l.LookupFailed? || l.instance.state == "terminated" || p.elapsed > timeout)
      && ((s.Stop? && s.result.None?) <==> IsGone(l) || (l.Found? && l.instance.state == "terminated"))
  {
    var l := DescribeInstance(id, p.answer);
    if l.LookupFailed? then Stop(if IsGone(l) then None else Some(l.err.text))
    else if l.instance.state == "terminated" then Stop(None)
    else if p.elapsed > timeout then
      Stop(Some("timeout waiting for instance " + id + " termination; last state=" + l.instance.state))
    else KeepPolling
  }

  /** The clock passes the deadline by the last poll, so the wait loop ends within `polls`. */
  predicate ReachesDeadline(polls: seq<Poll>, timeout: int)
  {
    |polls| > 0 && polls[|polls| - 1].elapsed > timeout
  }

  /** A sequence of rounds the last of which stops. */
  predicate Ends(outs: seq<StepOutcome>)
  {
    |outs| > 0 && outs[|outs| - 1].Stop?
  }

  /** The result of the first round that stops. */
  function FirstStop(outs: seq<StepOutcome>): Option<string>
    requires Ends(outs)
    decreases |outs|
  {
    if outs[0].Stop? then outs[0].result else FirstStop(outs[1..])
  }

  lemma {:induction false} FirstStopSpec(outs: seq<StepOutcome>) returns (k: nat)
    requires Ends(outs)
    ensures k < |outs| && outs[k].Stop? && FirstStop(outs) == outs[k].result
    ensures forall j :: 0 <= j < k ==> outs[j].KeepPolling?
    decreases |outs|
  {
    if outs[0].Stop? {
      k := 0;
    } else {
      var k' := FirstStopSpec(outs[1..]);
      k := k' + 1;
      assert forall j :: 1 <= j < k ==> outs[j] == outs[1..][j - 1];
    }
  }

  lemma {:induction false} FirstStopAppend(outs: seq<StepOutcome>, more: seq<StepOutcome>)
    requires Ends(outs)
    ensures Ends(outs + more) || more != []
    ensures Ends(outs + more) ==> FirstStop(outs + more) == FirstStop(outs)
    decreases |outs|
  {
    if Ends(outs + more) && !outs[0].Stop? {
      assert (outs + more)[1..] == outs[1..] + more;
      FirstStopAppend(outs[1..], more);
    }
  }

  /** The decision of every round, in order. */
  function WaitSteps(id: string, timeout: int, polls: seq<Poll>): (outs: seq<StepOutcome>)
    ensures |outs| == |polls| && forall i :: 0 <= i < |polls| ==> outs[i] == WaitStep(id, timeout, polls[i])
  {
    seq(|polls|, i requires 0 <= i < |polls| => WaitStep(id, timeout, polls[i]))
  }

  /** The outcome of waiting for termination: the decision of the first round that stops. */
  function TerminationWait(id: string, timeout: int, polls: seq<Poll>): Option<string>
    requires ReachesDeadline(polls, timeout)
  {
    FirstStop(WaitSteps(id, timeout, polls))
  }

  /**
   * The wait ends at the first round that finds the instance gone, terminated, failing, or past
   * the deadline, and succeeds exactly when that round found it gone or terminated.
   */
  lemma TerminationWaitSpec(id: string, timeout: int, polls: seq<Poll>) returns (k: nat)
    requires ReachesDeadline(polls, timeout)
    ensures k < |polls| && WaitStep(id, timeout, polls[k]).Stop?
    ensures forall j :: 0 <= j < k ==> WaitStep(id, timeout, polls[j]).KeepPolling?
    ensures TerminationWait(id, timeout, polls) == WaitStep(id, timeout, polls[k]).result
  {
    k := FirstStopSpec(WaitSteps(id, timeout, polls));
  }

  /** Polls after the one that ends the wait do not matter. */
  lemma TerminationWaitIgnoresLaterPolls(id: string, timeout: int, polls: seq<Poll>, later: seq<Poll>)
    requires ReachesDeadline(polls, timeout)
    ensures ReachesDeadline(polls + later, timeout)
      ==> TerminationWait(id, timeout, polls + later) == TerminationWait(id, timeout, polls)
  {
    assert WaitSteps(id, timeout, polls + later) == WaitSteps(id, timeout, polls) + WaitSteps(id, timeout, later);
    FirstStopAppend(WaitSteps(id, timeout, polls), WaitSteps(id, timeout, later));
  }

  /** `waitForInstanceTermination`: polls DescribeInstances until a round stops the wait. */
  method WaitForInstanceTermination(id: string, timeout: int, polls: seq<Poll>) returns (r: Option<string>)
    requires ReachesDeadline(polls, timeout)
    ensures r == TerminationWait(id, timeout, polls)
  {
    ghost var outs := WaitSteps(id, timeout, polls);
    var i := 0;
    while true
      invariant 0 <= i < |polls|
      invariant Ends(outs[i..]) && FirstStop(outs[i..]) == FirstStop(outs)
      decreases |polls| - i
    {
      var l := DescribeInstance(id, polls[i].answer);
      if l.LookupFailed? {
        if IsNotFoundError(l.err) || Contains(ToLower(l.err.text), "not found") {
          return None;
        }
        return Some(l.err.text);
      }
      if l.instance.state == "terminated" {
        return None;
      }
      if polls[i].elapsed > timeout {
        return Some("timeout waiting for instance " + id + " termination; last state=" + l.instance.state);
      }
      assert outs[i..][1..] == outs[i + 1..];
      i := i + 1;
    }
  }

  // ---------------------------------------------------------------------------
  // DeleteTestResource

  datatype CleanupStatus = NoCleanupStatus | TerminationRequested

  /** Which of the source's reasons the result carries. */
  datatype DeletionReason = AlreadyAbsent | AsyncCleanup | WaitFailed(text: string) | Terminated

  datatype Deletion = Deletion(resourceId: string, deleted: bool, cleanupStatus: CleanupStatus, reason: DeletionReason)

  /**
   * What `DeleteTestResource` returns when the wait is configured as `waitTimeout`: terminate
   * the instance, then wait for the termination when the timeout is positive. An instance that
   * is already absent counts as deleted, and a failed or timed-out wait is reported in the
   * result rather than as an error. `terminate` is the error TerminateInstances returned, if any.
   */
  function DeleteOutcome(resourceId: string, waitTimeout: int, terminate: Option<AwsError>, polls: seq<Poll>)
    : (r: Result<Deletion>)
    requires waitTimeout > 0 ==> ReachesDeadline(polls, waitTimeout)
    ensures r.Err? <==> TrimSpace(resourceId) == "" || (terminate.Some? && !IsNotFoundError(terminate.value))
    ensures r.Ok? ==> r.value.resourceId == TrimSpace(resourceId)
    ensures r.Ok? ==> (r.value.deleted <==> !r.value.reason.WaitFailed?)
    ensures r.Ok? && terminate.Some? ==> r.value == Deletion(TrimSpace(resourceId), true, NoCleanupStatus, AlreadyAbsent)
    ensures r.Ok? && terminate.None? && waitTimeout <= 0 ==>
      r.value == Deletion(TrimSpace(resourceId), true, TerminationRequested, AsyncCleanup)
    ensures r.Ok? && terminate.None? && waitTimeout > 0 ==>
      var w := TerminationWait(TrimSpace(resourceId), waitTimeout, polls);
      r.value == (if w.None? then Deletion(TrimSpace(resourceId), true, NoCleanupStatus, Terminated)
                  else Deletion(TrimSpace(resourceId), false, TerminationRequested, WaitFailed(w.value)))
  {
    var id := TrimSpace(resourceId);
    if id == "" then Err("resourceID is required")
    else if terminate.Some? then
      if IsNotFoundError(terminate.value) then Ok(Deletion(id, true, NoCleanupStatus, AlreadyAbsent))
      else Err("failed to delete test resource " + id + ": " + terminate.value.text)
    else if waitTimeout <= 0 then Ok(Deletion(id, true, TerminationRequested, AsyncCleanup))
    else
      var w := TerminationWait(id, waitTimeout, polls);
      if w.Some? then Ok(Deletion(id, false, TerminationRequested, WaitFailed(w.value)))
      else Ok(Deletion(id, true, NoCleanupStatus, Terminated))
  }

  /**
   * `DeleteTestResource`, with the wait timeout computed as the source computes it (wrapping
   * on overflow).
   */
  method DeleteTestResource(resourceId: string, env: Env, terminate: Option<AwsError>, polls: seq<Poll>)
    returns (r: Result<Deletion>)
    requires DeleteWaitTimeoutAsWritten(env) > 0 ==> ReachesDeadline(polls, DeleteWaitTimeoutAsWritten(env))
    ensures r == DeleteOutcome(resourceId, DeleteWaitTimeoutAsWritten(env), terminate, polls)
  {
    var id := TrimSpace(resourceId);
    if id == "" {
      return Err("resourceID is required");
    }
    if terminate.Some? {
      if IsNotFoundError(terminate.value) {
        return Ok(Deletion(id, true, NoCleanupStatus, AlreadyAbsent));
      }
      return Err("failed to delete test resource " + id + ": " + terminate.value.text);
    }
    var waitTimeout := DeleteWaitTimeoutAsWritten(env);
    if waitTimeout <= 0 {
      return Ok(Deletion(id, true, TerminationRequested, AsyncCleanup));
    }
    var waitErr := WaitForInstanceTermination(id, waitTimeout, polls);
    if waitErr.Some? {
      return Ok(Deletion(id, false, TerminationRequested, WaitFailed(waitErr.value)));
    }
    return Ok(Deletion(id, true, NoCleanupStatus, Terminated));
  }

  /**
   * A wait too long for `time.Duration` wraps negative, so the cleanup that was asked to wait
   * returns at once as asynchronous cleanup; with the saturating timeout it waits instead.
   */
  lemma OverflowingWaitSkipsTheWait(resourceId: string, env: Env, seconds: nat, polls: seq<Poll>)
    requires TrimSpace(resourceId) != ""
    requires MaxInt64 / NanosPerSecond < seconds <= 2 * (MaxInt64 / NanosPerSecond)
    requires Getenv(env, "CN_TEST_DELETE_WAIT_SECONDS") == NatToString(seconds)
    requires ReachesDeadline(polls, MaxInt64)
    ensures DeleteOutcome(resourceId, DeleteWaitTimeoutAsWritten(env), None, polls)
      == Ok(Deletion(TrimSpace(resourceId), true, TerminationRequested, AsyncCleanup))
    ensures DeleteOutcome(resourceId, DeleteWaitTimeout(env), None, polls).value.reason != AsyncCleanup
  {
    DeleteWaitTimeoutOverflows(env, seconds);
    NatToStringTrimmed(seconds);
    DeleteWaitTextIsFirstVariable(env, NatToString(seconds));
    AtoiOfNatToString(seconds);
    assert DeleteWaitTimeout(env) == MaxInt64;
  }
}

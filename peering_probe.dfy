/**
 * CCC.VPC.CN03: the VPC peering dry-run probe, its classification against the requester
 * allow-list, and the trial runs driven by the trial matrix (testing/api/vpc/aws-vpc.go).
 * `CreateVpcPeeringConnection` with DryRun set is an oracle: the caller supplies its answer.
 */
module PeeringProbe {
  import opened Wrappers
  import opened Text
  import opened PeeringAllowList

  /** What the dry-run `CreateVpcPeeringConnection` call returned. */
  datatype DryRunOutcome =
    | CallSucceeded
    | ApiError(code: string, text: string)   // an error carrying a smithy API error code
    | OtherError(text: string)               // any other error, by its message

  /** The probe's own part of the evidence. */
  datatype DryRunResult = DryRunResult(allowed: bool, exitCode: int, errorCode: string, stderr: string)

  /**
   * The dry run counts as allowed when the call succeeds or the API answers DryRunOperation;
   * for an error without an API code the lower-cased message is searched for it instead.
   */
  function ClassifyDryRun(outcome: DryRunOutcome): (d: DryRunResult)
    ensures d.allowed <==> d.exitCode == 0
    ensures d.exitCode == 0 || d.exitCode == 1
    ensures d.allowed <==> outcome.CallSucceeded? || EqualFold(d.errorCode, "DryRunOperation")
    ensures outcome.CallSucceeded? ==> d.errorCode == "" && d.stderr == ""
    ensures outcome.ApiError? ==> d.errorCode == TrimSpace(outcome.code) && d.stderr == TrimSpace(outcome.text)
    ensures outcome.OtherError? ==>
      d.stderr == TrimSpace(outcome.text)
      && (d.allowed <==> Contains(ToLower(TrimSpace(outcome.text)), "dryrunoperation"))
  {
    match outcome
    case CallSucceeded => DryRunResult(true, 0, "", "")
    case ApiError(code, text) =>
      var errorCode := TrimSpace(code);
      if EqualFold(errorCode, "DryRunOperation") then DryRunResult(true, 0, errorCode, TrimSpace(text))
      else DryRunResult(false, 1, errorCode, TrimSpace(text))
    case OtherError(text) =>
      var errText := TrimSpace(text);
      if Contains(ToLower(errText), "dryrunoperation") then DryRunResult(true, 0, "DryRunOperation", errText)
      else DryRunResult(false, 1, "", errText)
  }

  /** `GuardrailExpectation`: "" when no allow-list is defined, else "allow" or "deny". */
  datatype Expectation = NoExpectation | ExpectAllow | ExpectDeny

  /** The enrichment `enrichCN03EnforcementEvidence` adds to the evidence. */
  datatype Guardrail = Guardrail(
    allowListDefined: bool,
    allowListSource: string,
    requesterInAllowList: bool,
    expectation: Expectation,
    mismatch: bool)

  /**
   * The guardrail part of the evidence for a requester whose dry run was (not) allowed,
   * given the answer of `ResolveAllowedRequesters`. A failed resolution leaves everything unset.
   */
  function ExpectedGuardrail(requester: string, allowed: bool, allowList: Result<AllowList>): (g: Guardrail)
    ensures allowList.Err? ==> g == Guardrail(false, "", false, NoExpectation, false)
    ensures allowList.Ok? ==>
      g.allowListDefined == (allowList.value.ids != [])
      && g.allowListSource == allowList.value.source
      && g.requesterInAllowList == (requester in allowList.value.ids)
    ensures g.expectation == NoExpectation <==> !g.allowListDefined
    ensures g.expectation == ExpectAllow <==> g.allowListDefined && g.requesterInAllowList
    ensures g.mismatch <==> g.allowListDefined && allowed != g.requesterInAllowList
  {
    match allowList
    case Err(_) => Guardrail(false, "", false, NoExpectation, false)
    case Ok(list) =>
      var inList := requester in list.ids;
      if list.ids == [] then Guardrail(false, list.source, inList, NoExpectation, false)
      else Guardrail(true, list.source, inList, if inList then ExpectAllow else ExpectDeny, allowed != inList)
  }

  /** The linear search the source runs over an allow-list. */
  method ListContains(ids: seq<string>, x: string) returns (found: bool)
    ensures found <==> x in ids
  {
    found := false;
    var i := 0;
    while i < |ids|
      invariant 0 <= i <= |ids|
      invariant x !in ids[..i]
    {
      if ids[i] == x {
        return true;
      }
      i := i + 1;
    }
    assert ids[..i] == ids;
  }

  /** `enrichCN03EnforcementEvidence`. */
  method EnrichEvidence(requester: string, allowed: bool, allowList: Result<AllowList>) returns (g: Guardrail)
    ensures g == ExpectedGuardrail(requester, allowed, allowList)
  {
    if allowList.Err? {
      return Guardrail(false, "", false, NoExpectation, false);
    }
    var ids := allowList.value.ids;
    var inList := ListContains(ids, requester);
    if |ids| == 0 {
      return Guardrail(false, allowList.value.source, inList, NoExpectation, false);
    }
    var expectation := if inList then ExpectAllow else ExpectDeny;
    g := Guardrail(true, allowList.value.source, inList, expectation, allowed != inList);
  }

  /** The evidence map of one dry-run attempt; `ReceiverVpcId` repeats `peerVpcId`. */
  datatype PeeringEvidence = PeeringEvidence(
    requesterVpcId: string,
    peerVpcId: string,
    peerOwnerId: string,
    probe: DryRunResult,
    guardrail: Guardrail)

  /** The evidence `attemptVpcPeeringDryRunWithOwner` returns for the given call outcome. */
  function PeeringAttempt(requester: string, peer: string, owner: string, outcome: DryRunOutcome,
                          allowList: Result<AllowList>): (r: Result<PeeringEvidence>)
    ensures r.Ok? <==> TrimSpace(requester) != "" && TrimSpace(peer) != ""
    ensures r.Ok? ==>
      r.value.requesterVpcId == TrimSpace(requester) && r.value.peerVpcId == TrimSpace(peer)
      && r.value.peerOwnerId == TrimSpace(owner)
      && r.value.probe == ClassifyDryRun(outcome)
      && r.value.guardrail == ExpectedGuardrail(TrimSpace(requester), ClassifyDryRun(outcome).allowed, allowList)
  {
    var requesterId := TrimSpace(requester);
    var peerId := TrimSpace(peer);
    if requesterId == "" then Err("requesterVpcID is required")
    else if peerId == "" then Err("peerVpcID is required")
    else
      var d := ClassifyDryRun(outcome);
      Ok(PeeringEvidence(requesterId, peerId, TrimSpace(owner), d, ExpectedGuardrail(requesterId, d.allowed, allowList)))
  }

  /** `attemptVpcPeeringDryRunWithOwner`. */
  method AttemptPeeringDryRunWithOwner(requester: string, peer: string, owner: string, outcome: DryRunOutcome,
                                       allowList: Result<AllowList>) returns (r: Result<PeeringEvidence>)
    ensures r == PeeringAttempt(requester, peer, owner, outcome, allowList)
  {
    var requesterId := TrimSpace(requester);
    var peerId := TrimSpace(peer);
    var ownerId := TrimSpace(owner);
    if requesterId == "" {
      return Err("requesterVpcID is required");
    }
    if peerId == "" {
      return Err("peerVpcID is required");
    }
    var d := ClassifyDryRun(outcome);
    var g := EnrichEvidence(requesterId, d.allowed, allowList);
    return Ok(PeeringEvidence(requesterId, peerId, ownerId, d, g));
  }

  /** `AttemptVpcPeeringDryRun`: the peer owner comes from the environment. */
  method AttemptPeeringDryRun(requester: string, peer: string, env: Env, fs: FileSystem, outcome: DryRunOutcome)
    returns (r: Result<PeeringEvidence>)
    ensures r == PeeringAttempt(requester, peer, PeerOwnerFromEnv(env), outcome, ResolveAllowedRequesters(env, fs))
  {
    r := AttemptPeeringDryRunWithOwner(requester, peer, PeerOwnerFromEnv(env), outcome, ResolveAllowedRequesters(env, fs));
  }

  /** An allowed requester that is denied, or a disallowed one that is allowed, is a mismatch. */
  lemma MismatchMeansGuardrailDisagrees(requester: string, peer: string, owner: string, outcome: DryRunOutcome,
                                        allowList: Result<AllowList>)
    requires allowList.Ok? && allowList.value.ids != []
    requires TrimSpace(requester) != "" && TrimSpace(peer) != ""
    ensures var e := PeeringAttempt(requester, peer, owner, outcome, allowList).value;
      e.guardrail.mismatch <==>
        (e.probe.allowed <==> !(TrimSpace(requester) in allowList.value.ids))
  {
  }

  // ---------------------------------------------------------------------------
  // EvaluatePeerAgainstAllowList

  datatype PeerEvaluation = PeerEvaluation(
    peerVpcId: string,
    allowed: bool,
    allowListDefined: bool,
    allowListCount: nat,
    allowedIds: seq<string>,
    allowListSource: string,
    expectation: Expectation)   // which of the three reasons is given

  /** `EvaluatePeerAgainstAllowList`: whether the trimmed VPC id is in the resolved allow-list. */
  method EvaluatePeerAgainstAllowList(peer: string, env: Env, fs: FileSystem) returns (r: Result<PeerEvaluation>)
    ensures TrimSpace(peer) == "" ==> r.Err?
    ensures TrimSpace(peer) != "" ==> (r.Ok? <==> ResolveAllowedRequesters(env, fs).Ok?)
    ensures r.Ok? ==>
      var list := ResolveAllowedRequesters(env, fs).value;
      r.value.peerVpcId == TrimSpace(peer)
      && (r.value.allowed <==> TrimSpace(peer) in list.ids)
      && r.value.allowedIds == list.ids && r.value.allowListSource == list.source
      && r.value.allowListCount == |list.ids|
      && (r.value.allowListDefined <==> list.ids != [])
      && r.value.expectation == ExpectedGuardrail(TrimSpace(peer), false, Ok(list)).expectation
  {
    var peerId := TrimSpace(peer);
    if peerId == "" {
      return Err("peerVpcID is required");
    }
    var resolved := ResolveAllowedRequesters(env, fs);
    if resolved.Err? {
      return Err(resolved.message);
    }
    var ids := resolved.value.ids;
    var allowed := ListContains(ids, peerId);
    var expectation := NoExpectation;
    if |ids| > 0 {
      expectation := if allowed then ExpectAllow else ExpectDeny;
    }
    return Ok(PeerEvaluation(peerId, allowed, |ids| > 0, |ids|, ids, resolved.value.source, expectation));
  }

  // ---------------------------------------------------------------------------
  // LoadVpcPeeringTrialMatrix

  datatype MatrixSummary = MatrixSummary(
    filePath: string,
    receiverVpcId: string,
    peerOwnerId: string,
    allowedIds: seq<string>,
    disallowedIds: seq<string>,
    allRequesterIds: seq<string>,
    allowedListDefined: bool,
    disallowedListDefined: bool,
    receiverKnown: bool)

  /** `LoadVpcPeeringTrialMatrix`: the allowed requesters followed by the disallowed ones. */
  function SummarizeTrialMatrix(filePath: string, env: Env, fs: FileSystem): (r: Result<MatrixSummary>)
    ensures r.Ok? <==> LoadTrialMatrix(filePath, env, fs).Ok?
    ensures r.Ok? ==>
      var m := LoadTrialMatrix(filePath, env, fs).value.matrix;
      r.value.allRequesterIds == m.allowedRequesters + m.disallowedRequesters
      && |r.value.allRequesterIds| > 0
      && (forall x :: x in r.value.allRequesterIds ==> CleanId(x))
      && (r.value.allowedListDefined || r.value.disallowedListDefined)
      && (r.value.receiverKnown <==> m.receiverVpcId != "")
  {
    match LoadTrialMatrix(filePath, env, fs)
    case Err(e) => Err(e)
    case Ok(loaded) =>
      var m := loaded.matrix;
      Ok(MatrixSummary(loaded.path, m.receiverVpcId, m.peerOwnerId, m.allowedRequesters, m.disallowedRequesters,
        m.allowedRequesters + m.disallowedRequesters, |m.allowedRequesters| > 0, |m.disallowedRequesters| > 0,
        m.receiverVpcId != ""))
  }

  // ---------------------------------------------------------------------------
  // RunVpcPeeringDryRunTrialsFromFile

  datatype Trial = Trial(
    requesterVpcId: string,
    receiverVpcId: string,
    expectedAllowed: bool,
    dryRunAllowed: bool,
    matchesExpectation: bool,
    exitCode: int,
    errorCode: string,
    stderr: string)

  function TrialOf(requester: string, receiver: string, expected: bool, d: DryRunResult): Trial
  {
    Trial(requester, receiver, expected, d.allowed, d.allowed == expected, d.exitCode, d.errorCode, d.stderr)
  }

  /** The trials for `ids` in order; `probe` answers the dry run for each requester. */
  function Trials(ids: seq<string>, receiver: string, expected: bool, probe: string -> DryRunOutcome): (ts: seq<Trial>)
    ensures |ts| == |ids|
  {
    if |ids| == 0 then []
    else Trials(ids[..|ids| - 1], receiver, expected, probe) + [TrialOf(ids[|ids| - 1], receiver, expected, ClassifyDryRun(probe(ids[|ids| - 1])))]
  }

  /** The k-th trial is the dry run of the k-th requester, judged against the expectation. */
  lemma {:induction false} TrialAt(ids: seq<string>, receiver: string, expected: bool, probe: string -> DryRunOutcome, k: nat)
    requires k < |ids|
    ensures var t := Trials(ids, receiver, expected, probe)[k];
      t.requesterVpcId == ids[k] && t.receiverVpcId == receiver && t.expectedAllowed == expected
      && t.dryRunAllowed == ClassifyDryRun(probe(ids[k])).allowed
      && (t.matchesExpectation <==> t.dryRunAllowed == expected)
    decreases |ids|
  {
    if k < |ids| - 1 {
      TrialAt(ids[..|ids| - 1], receiver, expected, probe, k);
    }
  }

  /** How many trials did not match their expectation. */
  function UnexpectedCount(ts: seq<Trial>): (n: nat)
    ensures n <= |ts|
  {
    if |ts| == 0 then 0
    else UnexpectedCount(ts[..|ts| - 1]) + (if ts[|ts| - 1].matchesExpectation then 0 else 1)
  }

  lemma {:induction false} UnexpectedCountZero(ts: seq<Trial>)
    ensures UnexpectedCount(ts) == 0 <==> forall k :: 0 <= k < |ts| ==> ts[k].matchesExpectation
  {
    if |ts| > 0 {
      var init := ts[..|ts| - 1];
      UnexpectedCountZero(init);
      assert forall k :: 0 <= k < |init| ==> init[k] == ts[k];
    }
  }

  lemma {:induction false} UnexpectedCountAppend(a: seq<Trial>, b: seq<Trial>)
    ensures UnexpectedCount(a + b) == UnexpectedCount(a) + UnexpectedCount(b)
    decreases |b|
  {
    if |b| > 0 {
      assert (a + b)[..|a + b| - 1] == a + b[..|b| - 1];
      UnexpectedCountAppend(a, b[..|b| - 1]);
    } else {
      assert a + b == a;
    }
  }

  /** Every trial of a group matches exactly when every requester's dry run came out as expected. */
  lemma TrialsMatch(ids: seq<string>, receiver: string, expected: bool, probe: string -> DryRunOutcome)
    ensures UnexpectedCount(Trials(ids, receiver, expected, probe)) == 0 <==>
      forall x :: x in ids ==> ClassifyDryRun(probe(x)).allowed == expected
  {
    var ts := Trials(ids, receiver, expected, probe);
    UnexpectedCountZero(ts);
    forall x | x in ids && UnexpectedCount(ts) == 0
      ensures ClassifyDryRun(probe(x)).allowed == expected
    {
      var k :| 0 <= k < |ids| && ids[k] == x;
      TrialAt(ids, receiver, expected, probe, k);
      assert ts[k].matchesExpectation;
    }
  }

  datatype TrialRun = TrialRun(
    filePath: string,
    receiverVpcId: string,
    peerOwnerId: string,
    allowedIds: seq<string>,
    disallowedIds: seq<string>,
    totalTrials: nat,
    unexpectedCount: nat,
    compliant: bool,
    trials: seq<Trial>)

  /**
   * The `runTrials` closure: one dry run per requester against the receiver, each compared with
   * `expected`; it stops at the first attempt that fails.
   */
  method RunTrialGroup(ids: seq<string>, receiver: string, owner: string, expected: bool,
                       probe: string -> DryRunOutcome, allowList: Result<AllowList>)
    returns (r: Result<seq<Trial>>, unexpected: nat)
    ensures (TrimSpace(receiver) != "" && forall x :: x in ids ==> TrimSpace(x) != "") ==> r.Ok?
    ensures TrimSpace(receiver) == "" && ids != [] ==> r.Err?
    ensures r.Ok? ==> r.value == Trials(ids, receiver, expected, probe) && unexpected == UnexpectedCount(r.value)
  {
    var trials: seq<Trial> := [];
    unexpected := 0;
    for i := 0 to |ids|
      invariant trials == Trials(ids[..i], receiver, expected, probe)
      invariant unexpected == UnexpectedCount(trials)
      invariant i > 0 ==> TrimSpace(receiver) != ""
    {
      assert ids[..i + 1][..i] == ids[..i];
      var evidence := AttemptPeeringDryRunWithOwner(ids[i], receiver, owner, probe(ids[i]), allowList);
      if evidence.Err? {
        assert ids[i] in ids;
        return Err(evidence.message), unexpected;
      }
      var actual := evidence.value.probe.allowed;
      var trial := TrialOf(ids[i], receiver, expected, evidence.value.probe);
      UnexpectedCountAppend(trials, [trial]);
      if actual != expected {
        unexpected := unexpected + 1;
      }
      trials := trials + [trial];
    }
    assert ids[..|ids|] == ids;
    return Ok(trials), unexpected;
  }

  /** A loaded matrix whose receiver survives trimming: no dry-run attempt of the run can fail. */
  predicate Runnable(loaded: Result<LoadedMatrix>)
  {
    loaded.Ok? && TrimSpace(loaded.value.matrix.receiverVpcId) != ""
  }

  /**
   * The body of `RunVpcPeeringDryRunTrialsFromFile` after loading: one dry run per disallowed
   * requester (expected denied), then one per allowed requester (expected allowed); compliant
   * when there were trials and nothing was unexpected.
   */
  method RunLoadedTrials(loaded: Result<LoadedMatrix>, allowList: Result<AllowList>, probe: string -> DryRunOutcome)
    returns (r: Result<TrialRun>)
    requires loaded.Ok? ==> IsIdList(loaded.value.matrix.allowedRequesters) && IsIdList(loaded.value.matrix.disallowedRequesters)
    requires loaded.Ok? ==> loaded.value.matrix.allowedRequesters != [] || loaded.value.matrix.disallowedRequesters != []
    ensures r.Ok? <==> Runnable(loaded)
    ensures r.Ok? ==>
      var m := loaded.value.matrix;
      r.value.receiverVpcId == m.receiverVpcId
      && r.value.trials == Trials(m.disallowedRequesters, m.receiverVpcId, false, probe)
                           + Trials(m.allowedRequesters, m.receiverVpcId, true, probe)
      && r.value.totalTrials == |m.disallowedRequesters| + |m.allowedRequesters|
      && r.value.unexpectedCount == UnexpectedCount(r.value.trials)
      && (r.value.compliant <==> r.value.totalTrials > 0 && r.value.unexpectedCount == 0)
  {
    if loaded.Err? {
      return Err(loaded.message);
    }
    var m := loaded.value.matrix;
    if m.receiverVpcId == "" {
      return Err("CN03 trial matrix file " + loaded.value.path + " is missing receiver_vpc_id");
    }
    var denied, deniedUnexpected := RunTrialGroup(m.disallowedRequesters, m.receiverVpcId, m.peerOwnerId, false, probe, allowList);
    if denied.Err? {
      return Err(denied.message);
    }
    var allowed, allowedUnexpected := RunTrialGroup(m.allowedRequesters, m.receiverVpcId, m.peerOwnerId, true, probe, allowList);
    if allowed.Err? {
      return Err(allowed.message);
    }
    var trials := denied.value + allowed.value;
    UnexpectedCountAppend(denied.value, allowed.value);
    var unexpected := deniedUnexpected + allowedUnexpected;
    var total := |trials|;
    return Ok(TrialRun(loaded.value.path, m.receiverVpcId, m.peerOwnerId, m.allowedRequesters, m.disallowedRequesters,
      total, unexpected, total > 0 && unexpected == 0, trials));
  }

  /**
   * `RunVpcPeeringDryRunTrialsFromFile`. A loaded matrix always names a requester, so a run
   * that succeeds has at least one trial.
   */
  method RunPeeringTrials(filePath: string, env: Env, fs: FileSystem, probe: string -> DryRunOutcome)
    returns (r: Result<TrialRun>)
    ensures r.Ok? <==> Runnable(LoadTrialMatrix(filePath, env, fs))
    ensures r.Ok? ==> r.value.totalTrials > 0
    ensures r.Ok? ==> (r.value.compliant <==> r.value.unexpectedCount == 0)
    ensures r.Ok? ==>
      var m := LoadTrialMatrix(filePath, env, fs).value.matrix;
      r.value.receiverVpcId == m.receiverVpcId
      && r.value.trials == Trials(m.disallowedRequesters, m.receiverVpcId, false, probe)
                           + Trials(m.allowedRequesters, m.receiverVpcId, true, probe)
      && r.value.totalTrials == |m.disallowedRequesters| + |m.allowedRequesters|
      && r.value.unexpectedCount == UnexpectedCount(r.value.trials)
  {
    var loaded := LoadTrialMatrix(filePath, env, fs);
    var allowList := ResolveAllowedRequesters(env, fs);
    r := RunLoadedTrials(loaded, allowList, probe);
    if r.Ok? {
      var m := loaded.value.matrix;
      assert r.value.totalTrials == |m.disallowedRequesters| + |m.allowedRequesters|;
      assert m.allowedRequesters != [] || m.disallowedRequesters != [];
    }
  }

  /**
   * A run is compliant exactly when the guardrail denies every disallowed requester and
   * allows every allowed one.
   */
  lemma CompliantRun(m: TrialMatrix, probe: string -> DryRunOutcome)
    ensures var ts := Trials(m.disallowedRequesters, m.receiverVpcId, false, probe)
                      + Trials(m.allowedRequesters, m.receiverVpcId, true, probe);
      UnexpectedCount(ts) == 0 <==>
        (forall x :: x in m.disallowedRequesters ==> !ClassifyDryRun(probe(x)).allowed)
        && (forall x :: x in m.allowedRequesters ==> ClassifyDryRun(probe(x)).allowed)
  {
    UnexpectedCountAppend(Trials(m.disallowedRequesters, m.receiverVpcId, false, probe),
                          Trials(m.allowedRequesters, m.receiverVpcId, true, probe));
    TrialsMatch(m.disallowedRequesters, m.receiverVpcId, false, probe);
    TrialsMatch(m.allowedRequesters, m.receiverVpcId, true, probe);
  }
}

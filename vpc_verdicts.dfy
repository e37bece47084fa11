/**
 * The CCC.VPC control verdicts CN01, CN02 and CN04 and the flow-log observation counters
 * (testing/api/vpc/aws-vpc.go). Each verdict map of the source becomes a record; the free-text
 * `Reason` is left out, the branch that produced it is visible in the verdict fields.
 */
module VpcVerdicts {
  import opened Wrappers
  import opened Text
  import opened Json
  import opened VpcInventory

  datatype Verdict = Pass | Fail | NA

  /** `boolFromEvidence`: a bool as is, anything else by its trimmed text compared to "true" ignoring case. */
  function BoolFromEvidence(v: Value): (r: bool)
    ensures v.JBool? ==> r == v.b
    ensures v.JNull? ==> !r
    ensures v.JString? && v.s == "true" ==> r
  {
    match v
    case JBool(b) => b
    case JString(s) => EqualFold(TrimSpace(s), "true")
    case _ => EqualFold(TrimSpace(Render(v)), "true")
  }

  // ---------------------------------------------------------------------------
  // CN01: the in-scope VPC is not a default VPC

  /**
   * `IsDefaultVpc`: the IsDefault flag of the first VPC that DescribeVpcs returns for the id;
   * `described` is that answer, one flag per returned VPC.
   */
  function IsDefaultVpc(vpcId: string, described: Result<seq<bool>>): (r: Result<bool>)
    ensures r.Ok? <==> vpcId != "" && described.Ok? && described.value != []
    ensures r.Ok? ==> r.value == described.value[0]
  {
    if vpcId == "" then Err("vpcID is required")
    else if described.Err? then Err("failed to describe vpc " + vpcId + ": " + described.message)
    else if described.value == [] then Err("vpc " + vpcId + " not found")
    else Ok(described.value[0])
  }

  datatype DefaultVpcOutcome = DefaultVpcOutcome(
    verdict: Verdict,
    resultClass: Verdict,
    compliant: bool,
    vpcId: string,
    isDefaultVpc: bool)

  /** `EvaluateDefaultVpcControl`: FAIL exactly for a default VPC, never NA. */
  function EvaluateDefaultVpcControl(vpcId: string, described: Result<seq<bool>>): (r: Result<DefaultVpcOutcome>)
    ensures r.Ok? <==> IsDefaultVpc(vpcId, described).Ok?
    ensures r.Ok? ==> r.value.vpcId == vpcId && r.value.isDefaultVpc == IsDefaultVpc(vpcId, described).value
    ensures r.Ok? ==> r.value.resultClass == r.value.verdict && r.value.verdict != NA
    ensures r.Ok? ==> (r.value.verdict == Fail <==> r.value.isDefaultVpc)
    ensures r.Ok? ==> (r.value.compliant <==> r.value.verdict == Pass)
  {
    if vpcId == "" then Err("vpcID is required")
    else
      match IsDefaultVpc(vpcId, described)
      case Err(e) => Err(e)
      case Ok(isDefault) =>
        if isDefault then Ok(DefaultVpcOutcome(Fail, Fail, false, vpcId, true))
        else Ok(DefaultVpcOutcome(Pass, Pass, true, vpcId, false))
  }

  // ---------------------------------------------------------------------------
  // CN02: public subnets do not assign public IPs by default

  /** The trimmed ids of the public subnets that map a public IP on launch, in order. */
  function ViolatingIds(rows: seq<PublicSubnet>): (r: seq<string>)
    ensures |r| <= |rows|
  {
    if |rows| == 0 then []
    else
      var last := rows[|rows| - 1];
      ViolatingIds(rows[..|rows| - 1]) + (if last.mapPublicIpOnLaunch then [TrimSpace(last.subnetId)] else [])
  }

  /** The violating ids are exactly the trimmed ids of the rows with MapPublicIpOnLaunch set. */
  lemma {:induction false} ViolatingIdsMembers(rows: seq<PublicSubnet>, x: string)
    ensures x in ViolatingIds(rows) <==>
      exists k :: 0 <= k < |rows| && rows[k].mapPublicIpOnLaunch && TrimSpace(rows[k].subnetId) == x
  {
    if |rows| > 0 {
      var init := rows[..|rows| - 1];
      ViolatingIdsMembers(init, x);
      assert forall k :: 0 <= k < |init| ==> init[k] == rows[k];
    }
  }

  /** No violation exactly when no public subnet maps a public IP on launch. */
  lemma {:induction false} ViolatingIdsEmpty(rows: seq<PublicSubnet>)
    ensures ViolatingIds(rows) == [] <==> forall k :: 0 <= k < |rows| ==> !rows[k].mapPublicIpOnLaunch
  {
    if |rows| > 0 {
      var init := rows[..|rows| - 1];
      ViolatingIdsEmpty(init);
      assert forall k :: 0 <= k < |init| ==> init[k] == rows[k];
    }
  }

  datatype PublicSubnetOutcome = PublicSubnetOutcome(
    verdict: Verdict,
    resultClass: Verdict,
    compliant: bool,
    vpcId: string,
    publicSubnetCount: nat,
    violatingSubnetCount: nat,
    violatingSubnetIds: seq<string>)

  /**
   * `EvaluatePublicSubnetDefaultIPControl`: NA (still compliant) without public subnets,
   * FAIL when some public subnet maps a public IP on launch, PASS otherwise.
   */
  method EvaluatePublicSubnetDefaultIpControl(view: VpcView, vpcId: string) returns (r: Result<PublicSubnetOutcome>)
    ensures r.Ok? <==> PublicSubnets(view, vpcId).Ok?
    ensures r.Ok? ==>
      var rows := PublicSubnets(view, vpcId).value;
      var o := r.value;
      o.vpcId == vpcId && o.resultClass == o.verdict
      && o.publicSubnetCount == |rows|
      && o.violatingSubnetIds == ViolatingIds(rows)
      && o.violatingSubnetCount == |o.violatingSubnetIds| <= o.publicSubnetCount
      && (o.verdict == NA <==> |rows| == 0)
      && (o.verdict == Fail <==> |rows| > 0 && o.violatingSubnetIds != [])
      && (o.compliant <==> o.verdict != Fail)
  {
    if vpcId == "" {
      return Err("vpcID is required");
    }
    var listed := ListPublicSubnets(view, vpcId);
    if listed.Err? {
      return Err(listed.message);
    }
    var rows := listed.value;
    var violating: seq<string> := [];
    for i := 0 to |rows|
      invariant violating == ViolatingIds(rows[..i])
    {
      assert rows[..i + 1][..i] == rows[..i];
      if rows[i].mapPublicIpOnLaunch {
        violating := violating + [TrimSpace(rows[i].subnetId)];
      }
    }
    assert rows[..|rows|] == rows;
    var verdict := Pass;
    var compliant := true;
    if |rows| == 0 {
      verdict := NA;
    } else if |violating| > 0 {
      verdict := Fail;
      compliant := false;
    }
    return Ok(PublicSubnetOutcome(verdict, verdict, compliant, vpcId, |rows|, |violating|, violating));
  }

  // ---------------------------------------------------------------------------
  // CN04: every flow log of the VPC is ACTIVE and captures ALL traffic

  datatype FlowLog = FlowLog(flowLogId: string, flowLogStatus: string, trafficType: string, deliverLogsStatus: string)

  predicate IsActiveAllTraffic(f: FlowLog)
  {
    TrimSpace(f.flowLogStatus) == "ACTIVE" && TrimSpace(f.trafficType) == "ALL"
  }

  /** `listVpcFlowLogs`: `described` is DescribeFlowLogs' answer for the VPC. */
  function ListVpcFlowLogs(vpcId: string, described: Result<seq<FlowLog>>): (r: Result<seq<FlowLog>>)
    ensures r.Ok? <==> vpcId != "" && described.Ok?
    ensures r.Ok? ==> r.value == described.value
  {
    if vpcId == "" then Err("vpcID is required")
    else if described.Err? then Err("failed to describe flow logs for vpc " + vpcId + ": " + described.message)
    else described
  }

  /** The trimmed ids of the flow logs that are not ACTIVE with TrafficType ALL, in order. */
  function NonCompliantIds(logs: seq<FlowLog>): (r: seq<string>)
    ensures |r| <= |logs|
  {
    if |logs| == 0 then []
    else
      var last := logs[|logs| - 1];
      NonCompliantIds(logs[..|logs| - 1]) + (if IsActiveAllTraffic(last) then [] else [TrimSpace(last.flowLogId)])
  }

  lemma {:induction false} NonCompliantIdsMembers(logs: seq<FlowLog>, x: string)
    ensures x in NonCompliantIds(logs) <==>
      exists k :: 0 <= k < |logs| && !IsActiveAllTraffic(logs[k]) && TrimSpace(logs[k].flowLogId) == x
  {
    if |logs| > 0 {
      var init := logs[..|logs| - 1];
      NonCompliantIdsMembers(init, x);
      assert forall k :: 0 <= k < |init| ==> init[k] == logs[k];
    }
  }

  lemma {:induction false} NonCompliantIdsEmpty(logs: seq<FlowLog>)
    ensures NonCompliantIds(logs) == [] <==> forall k :: 0 <= k < |logs| ==> IsActiveAllTraffic(logs[k])
  {
    if |logs| > 0 {
      var init := logs[..|logs| - 1];
      NonCompliantIdsEmpty(init);
      assert forall k :: 0 <= k < |init| ==> init[k] == logs[k];
    }
  }

  datatype FlowLogOutcome = FlowLogOutcome(
    verdict: Verdict,
    resultClass: Verdict,
    compliant: bool,
    vpcId: string,
    flowLogCount: nat,
    nonCompliantFlowLogIds: seq<string>,
    nonCompliantCount: nat)

  /** `EvaluateVpcFlowLogsControl`: FAIL without flow logs or with any non-compliant one, never NA. */
  method EvaluateVpcFlowLogsControl(vpcId: string, described: Result<seq<FlowLog>>) returns (r: Result<FlowLogOutcome>)
    ensures r.Ok? <==> vpcId != "" && described.Ok?
    ensures r.Ok? ==>
      var logs := described.value;
      var o := r.value;
      o.vpcId == vpcId && o.resultClass == o.verdict && o.verdict != NA
      && o.flowLogCount == |logs|
      && o.nonCompliantFlowLogIds == NonCompliantIds(logs)
      && o.nonCompliantCount == |o.nonCompliantFlowLogIds|
      && (o.verdict == Fail <==> |logs| == 0 || o.nonCompliantFlowLogIds != [])
      && (o.compliant <==> o.verdict == Pass)
  {
    if vpcId == "" {
      return Err("vpcID is required");
    }
    var listed := ListVpcFlowLogs(vpcId, described);
    if listed.Err? {
      return Err(listed.message);
    }
    var logs := listed.value;
    var nonCompliant: seq<string> := [];
    for i := 0 to |logs|
      invariant nonCompliant == NonCompliantIds(logs[..i])
    {
      assert logs[..i + 1][..i] == logs[..i];
      var status := TrimSpace(logs[i].flowLogStatus);
      var trafficType := TrimSpace(logs[i].trafficType);
      if status != "ACTIVE" || trafficType != "ALL" {
        nonCompliant := nonCompliant + [TrimSpace(logs[i].flowLogId)];
      }
    }
    assert logs[..|logs|] == logs;
    var verdict := Pass;
    var compliant := true;
    if |logs| == 0 || |nonCompliant| > 0 {
      verdict := Fail;
      compliant := false;
    }
    return Ok(FlowLogOutcome(verdict, verdict, compliant, vpcId, |logs|, nonCompliant, |nonCompliant|));
  }

  /**
   * `HasActiveAllTrafficFlowLogs`: the CN04 Compliant flag, that is, the VPC has flow logs
   * and every one is ACTIVE with TrafficType ALL.
   */
  method HasActiveAllTrafficFlowLogs(vpcId: string, described: Result<seq<FlowLog>>) returns (r: Result<bool>)
    ensures r.Ok? <==> vpcId != "" && described.Ok?
    ensures r.Ok? ==> (r.value <==>
      (|described.value| > 0 && forall k :: 0 <= k < |described.value| ==> IsActiveAllTraffic(described.value[k])))
  {
    var outcome := EvaluateVpcFlowLogsControl(vpcId, described);
    if outcome.Err? {
      return Err(outcome.message);
    }
    NonCompliantIdsEmpty(described.value);
    return Ok(BoolFromEvidence(JBool(outcome.value.compliant)));
  }

  // ---------------------------------------------------------------------------
  // Flow-log delivery observation

  predicate DeliverySucceeded(f: FlowLog)
  {
    EqualFold(TrimSpace(f.deliverLogsStatus), "SUCCESS")
  }

  /** How many logs are ACTIVE with TrafficType ALL. */
  function ActiveAllCount(logs: seq<FlowLog>): (n: nat)
    ensures n <= |logs|
  {
    if |logs| == 0 then 0
    else ActiveAllCount(logs[..|logs| - 1]) + (if IsActiveAllTraffic(logs[|logs| - 1]) then 1 else 0)
  }

  /** How many logs report DeliverLogsStatus SUCCESS, ignoring case. */
  function DeliverySuccessCount(logs: seq<FlowLog>): (n: nat)
    ensures n <= |logs|
  {
    if |logs| == 0 then 0
    else DeliverySuccessCount(logs[..|logs| - 1]) + (if DeliverySucceeded(logs[|logs| - 1]) then 1 else 0)
  }

  /** How many logs are ACTIVE and report DeliverLogsStatus SUCCESS. */
  function RecentDeliveryCount(logs: seq<FlowLog>): (n: nat)
    ensures n <= |logs|
  {
    if |logs| == 0 then 0
    else
      var last := logs[|logs| - 1];
      RecentDeliveryCount(logs[..|logs| - 1])
        + (if TrimSpace(last.flowLogStatus) == "ACTIVE" && DeliverySucceeded(last) then 1 else 0)
  }

  /** Every log counts as ACTIVE/ALL exactly when none is reported as non-compliant by CN04. */
  lemma {:induction false} ActiveAllCountFull(logs: seq<FlowLog>)
    ensures ActiveAllCount(logs) == |logs| <==> NonCompliantIds(logs) == []
  {
    NonCompliantIdsEmpty(logs);
    if |logs| > 0 {
      var init := logs[..|logs| - 1];
      ActiveAllCountFull(init);
      NonCompliantIdsEmpty(init);
      assert forall k :: 0 <= k < |init| ==> init[k] == logs[k];
    }
  }

  /** A recent delivery is in particular a successful delivery. */
  lemma {:induction false} RecentDeliveriesAreDeliveries(logs: seq<FlowLog>)
    ensures RecentDeliveryCount(logs) <= DeliverySuccessCount(logs)
  {
    if |logs| > 0 {
      RecentDeliveriesAreDeliveries(logs[..|logs| - 1]);
    }
  }

  lemma {:induction false} RecentDeliveryCountPositive(logs: seq<FlowLog>)
    ensures RecentDeliveryCount(logs) > 0 <==>
      exists k :: 0 <= k < |logs| && TrimSpace(logs[k].flowLogStatus) == "ACTIVE" && DeliverySucceeded(logs[k])
  {
    if |logs| > 0 {
      var init := logs[..|logs| - 1];
      RecentDeliveryCountPositive(init);
      assert forall k :: 0 <= k < |init| ==> init[k] == logs[k];
    }
  }

  datatype DeliveryPreparation = DeliveryPreparation(
    vpcId: string,
    flowLogCount: nat,
    activeAllCount: nat,
    deliverySuccessCount: nat,
    ready: bool)

  /** `PrepareFlowLogDeliveryObservation`: Ready when there are flow logs and all are ACTIVE/ALL. */
  method PrepareFlowLogDeliveryObservation(vpcId: string, described: Result<seq<FlowLog>>) returns (r: Result<DeliveryPreparation>)
    ensures r.Ok? <==> TrimSpace(vpcId) != "" && described.Ok?
    ensures r.Ok? ==>
      var logs := described.value;
      r.value.vpcId == TrimSpace(vpcId) && r.value.flowLogCount == |logs|
      && r.value.activeAllCount == ActiveAllCount(logs)
      && r.value.deliverySuccessCount == DeliverySuccessCount(logs)
      && (r.value.ready <==> |logs| > 0 && ActiveAllCount(logs) == |logs|)
  {
    var id := TrimSpace(vpcId);
    if id == "" {
      return Err("vpcID is required");
    }
    var listed := ListVpcFlowLogs(id, described);
    if listed.Err? {
      return Err(listed.message);
    }
    var logs := listed.value;
    var activeAll, deliveries := 0, 0;
    for i := 0 to |logs|
      invariant activeAll == ActiveAllCount(logs[..i])
      invariant deliveries == DeliverySuccessCount(logs[..i])
    {
      assert logs[..i + 1][..i] == logs[..i];
      var status := TrimSpace(logs[i].flowLogStatus);
      var trafficType := TrimSpace(logs[i].trafficType);
      var deliverStatus := TrimSpace(logs[i].deliverLogsStatus);
      if status == "ACTIVE" && trafficType == "ALL" {
        activeAll := activeAll + 1;
      }
      if EqualFold(deliverStatus, "SUCCESS") {
        deliveries := deliveries + 1;
      }
    }
    assert logs[..|logs|] == logs;
    return Ok(DeliveryPreparation(id, |logs|, activeAll, deliveries, |logs| > 0 && activeAll == |logs|));
  }

  /** A VPC is ready for delivery observation exactly when CN04 finds it compliant. */
  lemma ReadyIffFlowLogsCompliant(logs: seq<FlowLog>)
    ensures (|logs| > 0 && ActiveAllCount(logs) == |logs|) <==> (|logs| > 0 && NonCompliantIds(logs) == [])
  {
    ActiveAllCountFull(logs);
  }

  datatype DeliveryObservation = DeliveryObservation(
    vpcId: string,
    flowLogCount: nat,
    deliverySuccessCount: nat,
    recordsObserved: bool)

  /** `ObserveRecentFlowLogDelivery`: records are observed when an ACTIVE log reports a successful delivery. */
  method ObserveRecentFlowLogDelivery(vpcId: string, described: Result<seq<FlowLog>>) returns (r: Result<DeliveryObservation>)
    ensures r.Ok? <==> TrimSpace(vpcId) != "" && described.Ok?
    ensures r.Ok? ==>
      var logs := described.value;
      r.value.vpcId == TrimSpace(vpcId) && r.value.flowLogCount == |logs|
      && r.value.deliverySuccessCount == RecentDeliveryCount(logs)
      && (r.value.recordsObserved <==> r.value.deliverySuccessCount > 0)
  {
    var id := TrimSpace(vpcId);
    if id == "" {
      return Err("vpcID is required");
    }
    var listed := ListVpcFlowLogs(id, described);
    if listed.Err? {
      return Err(listed.message);
    }
    var logs := listed.value;
    var deliveries := 0;
    for i := 0 to |logs|
      invariant deliveries == RecentDeliveryCount(logs[..i])
    {
      assert logs[..i + 1][..i] == logs[..i];
      var status := TrimSpace(logs[i].flowLogStatus);
      var deliverStatus := TrimSpace(logs[i].deliverLogsStatus);
      if status == "ACTIVE" && EqualFold(deliverStatus, "SUCCESS") {
        deliveries := deliveries + 1;
      }
    }
    assert logs[..|logs|] == logs;
    return Ok(DeliveryObservation(id, |logs|, deliveries, deliveries > 0));
  }
}

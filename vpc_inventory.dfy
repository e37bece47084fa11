/**
 * Which subnets of a VPC are public, and which public subnet the behavioural probes use
 * (testing/api/vpc/aws-vpc.go: isSubnetPublic, listPublicSubnets, SelectPublicSubnetForTest).
 *
 * The EC2 Describe* answers are inputs: a `VpcView` holds what DescribeSubnets and
 * DescribeRouteTables return for one VPC, each answer either a list or an error.
 */
module VpcInventory {
  import opened Wrappers
  import opened Text

  datatype Route = Route(destinationCidrBlock: string, gatewayId: string)
  datatype RouteTable = RouteTable(routeTableId: string, routes: seq<Route>)
  datatype Subnet = Subnet(subnetId: string, mapPublicIpOnLaunch: bool)

  /**
   * The EC2 answers for one VPC: its subnets, the route tables explicitly associated with
   * each subnet (a subnet without an entry has none), and the VPC's main route tables.
   */
  datatype VpcView = VpcView(
    subnets: Result<seq<Subnet>>,
    associations: map<string, Result<seq<RouteTable>>>,
    mainTables: Result<seq<RouteTable>>)

  /** A default route to an internet gateway: destination 0.0.0.0/0, gateway "igw-" plus at least one more byte. */
  predicate IsInternetGatewayRoute(r: Route)
  {
    r.destinationCidrBlock == "0.0.0.0/0" && |r.gatewayId| > 4 && r.gatewayId[..4] == "igw-"
  }

  predicate HasInternetGatewayRoute(t: RouteTable)
  {
    exists i :: 0 <= i < |t.routes| && IsInternetGatewayRoute(t.routes[i])
  }

  /** The route tables explicitly associated with a subnet (none when EC2 lists none). */
  function Associated(view: VpcView, subnetId: string): Result<seq<RouteTable>>
  {
    if subnetId in view.associations then view.associations[subnetId] else Ok([])
  }

  /**
   * The route tables `isSubnetPublic` examines: the explicitly associated ones, or the
   * VPC's main tables when there are none.
   */
  function ExaminedTables(view: VpcView, vpcId: string, subnetId: string): Result<seq<RouteTable>>
  {
    match Associated(view, subnetId)
    case Err(e) => Err("failed to describe route tables for subnet " + subnetId + ": " + e)
    case Ok(tables) =>
      if |tables| > 0 then Ok(tables)
      else
        match view.mainTables
        case Err(e) => Err("failed to describe main route table for vpc " + vpcId + ": " + e)
        case Ok(main) => Ok(main)
  }

  /** The answer of `isSubnetPublic`: whether the subnet is public and the table that decided it. */
  datatype Publicity = Publicity(isPublic: bool, routeTableId: string)

  /** Only the first examined table decides; no table means not public. */
  function SubnetPublicity(view: VpcView, vpcId: string, subnetId: string): (r: Result<Publicity>)
    ensures r.Ok? <==> ExaminedTables(view, vpcId, subnetId).Ok?
    ensures (r.Ok? && r.value.isPublic) <==>
      (ExaminedTables(view, vpcId, subnetId).Ok? && |ExaminedTables(view, vpcId, subnetId).value| > 0
       && HasInternetGatewayRoute(ExaminedTables(view, vpcId, subnetId).value[0]))
  {
    match ExaminedTables(view, vpcId, subnetId)
    case Err(e) => Err(e)
    case Ok(tables) =>
      if |tables| == 0 then Ok(Publicity(false, ""))
      else Ok(Publicity(HasInternetGatewayRoute(tables[0]), tables[0].routeTableId))
  }

  /** `isSubnetPublic`: scans the routes of the first examined table for an internet-gateway default route. */
  method IsSubnetPublic(view: VpcView, vpcId: string, subnetId: string) returns (r: Result<Publicity>)
    ensures r == SubnetPublicity(view, vpcId, subnetId)
  {
    var tables := ExaminedTables(view, vpcId, subnetId);
    if tables.Err? {
      return Err(tables.message);
    }
    if |tables.value| == 0 {
      return Ok(Publicity(false, ""));
    }
    var rt := tables.value[0];
    var i := 0;
    while i < |rt.routes|
      invariant 0 <= i <= |rt.routes|
      invariant forall j :: 0 <= j < i ==> !IsInternetGatewayRoute(rt.routes[j])
    {
      var route := rt.routes[i];
      if route.destinationCidrBlock == "0.0.0.0/0" {
        var gw := route.gatewayId;
        if |gw| > 4 && gw[..4] == "igw-" {
          return Ok(Publicity(true, rt.routeTableId));
        }
      }
      i := i + 1;
    }
    return Ok(Publicity(false, rt.routeTableId));
  }

  /** An explicit association shadows the main route table completely. */
  lemma AssociationShadowsMainTable(view: VpcView, vpcId: string, subnetId: string, main: Result<seq<RouteTable>>)
    requires Associated(view, subnetId).Ok? && |Associated(view, subnetId).value| > 0
    ensures SubnetPublicity(view.(mainTables := main), vpcId, subnetId) == SubnetPublicity(view, vpcId, subnetId)
  {
    assert Associated(view.(mainTables := main), subnetId) == Associated(view, subnetId);
  }

  /** Without an explicit association, the first main route table decides. */
  lemma MainTableFallback(view: VpcView, vpcId: string, subnetId: string)
    requires Associated(view, subnetId) == Ok([])
    requires view.mainTables.Ok? && |view.mainTables.value| > 0
    ensures SubnetPublicity(view, vpcId, subnetId)
      == Ok(Publicity(HasInternetGatewayRoute(view.mainTables.value[0]), view.mainTables.value[0].routeTableId))
  {
  }

  /** Tables after the first never matter. */
  lemma OnlyFirstTableMatters(view: VpcView, vpcId: string, subnetId: string, rest: seq<RouteTable>)
    requires Associated(view, subnetId).Ok? && |Associated(view, subnetId).value| > 0
    ensures var t := Associated(view, subnetId).value;
            SubnetPublicity(view.(associations := view.associations[subnetId := Ok([t[0]] + rest)]), vpcId, subnetId)
              == SubnetPublicity(view, vpcId, subnetId)
  {
    var t := Associated(view, subnetId).value;
    var view' := view.(associations := view.associations[subnetId := Ok([t[0]] + rest)]);
    assert Associated(view', subnetId) == Ok([t[0]] + rest);
  }

  /** One row of `listPublicSubnets`. */
  datatype PublicSubnet = PublicSubnet(vpcId: string, subnetId: string, routeTableId: string, mapPublicIpOnLaunch: bool)

  /** A listed row describes a subnet the view lists, found public by the table the row names. */
  ghost predicate Describes(view: VpcView, vpcId: string, subnets: seq<Subnet>, p: PublicSubnet)
  {
    p.vpcId == vpcId && p.subnetId != ""
    && (exists k :: 0 <= k < |subnets| && subnets[k].subnetId == p.subnetId
          && subnets[k].mapPublicIpOnLaunch == p.mapPublicIpOnLaunch)
    && SubnetPublicity(view, vpcId, p.subnetId) == Ok(Publicity(true, p.routeTableId))
  }

  /** One subnet processed by `listPublicSubnets`, after the rows (or the error) of the ones before it. */
  function CollectStep(view: VpcView, vpcId: string, prefix: Result<seq<PublicSubnet>>, s: Subnet): Result<seq<PublicSubnet>>
  {
    if prefix.Err? || s.subnetId == "" then prefix
    else
      match SubnetPublicity(view, vpcId, s.subnetId)
      case Err(e) => Err(e)
      case Ok(pub) =>
        if pub.isPublic then Ok(prefix.value + [PublicSubnet(vpcId, s.subnetId, pub.routeTableId, s.mapPublicIpOnLaunch)])
        else prefix
  }

  /**
   * The rows `listPublicSubnets` collects from `subnets`, in order; the first failing route
   * table lookup aborts the scan.
   */
  function CollectPublic(view: VpcView, vpcId: string, subnets: seq<Subnet>): (r: Result<seq<PublicSubnet>>)
    ensures r.Ok? ==> |r.value| <= |subnets|
  {
    if |subnets| == 0 then Ok([])
    else CollectStep(view, vpcId, CollectPublic(view, vpcId, subnets[..|subnets| - 1]), subnets[|subnets| - 1])
  }

  lemma CollectPublicStep(view: VpcView, vpcId: string, subnets: seq<Subnet>, i: nat)
    requires i < |subnets|
    ensures CollectPublic(view, vpcId, subnets[..i + 1])
      == CollectStep(view, vpcId, CollectPublic(view, vpcId, subnets[..i]), subnets[i])
  {
    assert subnets[..i + 1][..i] == subnets[..i];
  }

  /** Once a lookup has failed, the scan's answer is that failure. */
  lemma {:induction false} CollectPublicErrSticks(view: VpcView, vpcId: string, subnets: seq<Subnet>, i: nat)
    requires i <= |subnets| && CollectPublic(view, vpcId, subnets[..i]).Err?
    ensures CollectPublic(view, vpcId, subnets) == CollectPublic(view, vpcId, subnets[..i])
    decreases |subnets| - i
  {
    if i < |subnets| {
      CollectPublicStep(view, vpcId, subnets, i);
      CollectPublicErrSticks(view, vpcId, subnets, i + 1);
    } else {
      assert subnets[..i] == subnets;
    }
  }

  /** Every listed row is a subnet of the VPC with a non-empty id that its first examined table makes public. */
  lemma {:induction false} CollectPublicSound(view: VpcView, vpcId: string, subnets: seq<Subnet>)
    requires CollectPublic(view, vpcId, subnets).Ok?
    ensures forall p :: p in CollectPublic(view, vpcId, subnets).value ==> Describes(view, vpcId, subnets, p)
  {
    if |subnets| > 0 {
      var init, s := subnets[..|subnets| - 1], subnets[|subnets| - 1];
      var prefix := CollectPublic(view, vpcId, init);
      CollectPublicSound(view, vpcId, init);
      forall p | p in prefix.value
        ensures Describes(view, vpcId, subnets, p)
      {
        var k :| 0 <= k < |init| && init[k].subnetId == p.subnetId
          && init[k].mapPublicIpOnLaunch == p.mapPublicIpOnLaunch;
        assert subnets[k] == init[k];
      }
      if s.subnetId != "" && SubnetPublicity(view, vpcId, s.subnetId).Ok? {
        var pub := SubnetPublicity(view, vpcId, s.subnetId).value;
        var row := PublicSubnet(vpcId, s.subnetId, pub.routeTableId, s.mapPublicIpOnLaunch);
        assert subnets[|subnets| - 1] == s;
        if pub.isPublic {
          assert Describes(view, vpcId, subnets, row);
        }
      }
    }
  }

  /** A successful scan examined every subnet with an id and listed each public one. */
  lemma {:induction false} CollectPublicComplete(view: VpcView, vpcId: string, subnets: seq<Subnet>, k: nat)
    requires CollectPublic(view, vpcId, subnets).Ok?
    requires k < |subnets| && subnets[k].subnetId != ""
    ensures SubnetPublicity(view, vpcId, subnets[k].subnetId).Ok?
    ensures SubnetPublicity(view, vpcId, subnets[k].subnetId).value.isPublic ==>
      exists p :: p in CollectPublic(view, vpcId, subnets).value && p.subnetId == subnets[k].subnetId
  {
    var init, s := subnets[..|subnets| - 1], subnets[|subnets| - 1];
    var prefix := CollectPublic(view, vpcId, init);
    assert prefix.Ok?;
    if k < |init| {
      assert init[k] == subnets[k];
      CollectPublicComplete(view, vpcId, init, k);
      if SubnetPublicity(view, vpcId, subnets[k].subnetId).value.isPublic {
        var p :| p in prefix.value && p.subnetId == subnets[k].subnetId;
        assert p in CollectPublic(view, vpcId, subnets).value;
      }
    }
  }

  /** The answer of `listPublicSubnets(vpcId)`. */
  function PublicSubnets(view: VpcView, vpcId: string): Result<seq<PublicSubnet>>
  {
    if vpcId == "" then Err("vpcID is required")
    else
      match view.subnets
      case Err(e) => Err("failed to describe subnets: " + e)
      case Ok(subnets) => CollectPublic(view, vpcId, subnets)
  }

  /** `listPublicSubnets`. */
  method ListPublicSubnets(view: VpcView, vpcId: string) returns (r: Result<seq<PublicSubnet>>)
    ensures r == PublicSubnets(view, vpcId)
  {
    if vpcId == "" {
      return Err("vpcID is required");
    }
    if view.subnets.Err? {
      return Err("failed to describe subnets: " + view.subnets.message);
    }
    var subnets := view.subnets.value;
    var rows: seq<PublicSubnet> := [];
    for i := 0 to |subnets|
      invariant CollectPublic(view, vpcId, subnets[..i]) == Ok(rows)
    {
      CollectPublicStep(view, vpcId, subnets, i);
      var s := subnets[i];
      if s.subnetId == "" {
        continue;
      }
      var pub := IsSubnetPublic(view, vpcId, s.subnetId);
      if pub.Err? {
        CollectPublicErrSticks(view, vpcId, subnets, i + 1);
        return Err(pub.message);
      }
      if !pub.value.isPublic {
        continue;
      }
      rows := rows + [PublicSubnet(vpcId, s.subnetId, pub.value.routeTableId, s.mapPublicIpOnLaunch)];
    }
    assert subnets[..|subnets|] == subnets;
    return Ok(rows);
  }

  /** The sort key of `SelectPublicSubnetForTest`. */
  function SubnetKey(p: PublicSubnet): string
  {
    TrimSpace(p.subnetId)
  }

  /** The probe subnet `SelectPublicSubnetForTest` reports. */
  datatype SubnetSelection = SubnetSelection(
    vpcId: string,
    subnetId: string,
    routeTableId: string,
    mapPublicIpOnLaunch: bool,
    publicSubnetCount: nat)

  /** The position of a smallest key; the first one when several are equal. */
  method SmallestKey(keys: seq<string>) returns (best: nat)
    requires |keys| > 0
    ensures best < |keys|
    ensures forall j :: 0 <= j < |keys| ==> LexLessEq(keys[best], keys[j])
    ensures forall j :: 0 <= j < best ==> keys[j] != keys[best]
  {
    best := 0;
    LexReflexive(keys[0]);
    for i := 1 to |keys|
      invariant best < i
      invariant forall j :: 0 <= j < i ==> LexLessEq(keys[best], keys[j])
      invariant forall j :: 0 <= j < best ==> keys[j] != keys[best]
    {
      var a, b := keys[best], keys[i];
      if !LexLessEq(a, b) {
        LexTotal(a, b);
        LexReflexive(b);
        forall j | 0 <= j < i
          ensures LexLessEq(b, keys[j]) && keys[j] != b
        {
          LexTransitive(b, a, keys[j]);
          if keys[j] == b {
            LexAntisymmetric(a, b);
          }
        }
        best := i;
      }
    }
  }

  /**
   * `SelectPublicSubnetForTest`: the public subnet with the smallest trimmed SubnetId. An
   * empty VPC id, a failed listing and a VPC without public subnets are errors.
   */
  method SelectPublicSubnetForTest(view: VpcView, vpcId: string) returns (r: Result<SubnetSelection>)
    ensures var id := TrimSpace(vpcId);
            r.Ok? <==> id != "" && PublicSubnets(view, id).Ok? && |PublicSubnets(view, id).value| > 0
    ensures r.Ok? ==>
      var rows := PublicSubnets(view, TrimSpace(vpcId)).value;
      r.value.publicSubnetCount == |rows|
      && (exists k :: 0 <= k < |rows| && r.value.subnetId == SubnetKey(rows[k])
           && r.value.routeTableId == TrimSpace(rows[k].routeTableId)
           && r.value.mapPublicIpOnLaunch == rows[k].mapPublicIpOnLaunch)
      && forall k :: 0 <= k < |rows| ==> LexLessEq(r.value.subnetId, SubnetKey(rows[k]))
  {
    var id := TrimSpace(vpcId);
    if id == "" {
      return Err("vpcID is required");
    }
    var listed := ListPublicSubnets(view, id);
    if listed.Err? {
      return Err(listed.message);
    }
    var rows := listed.value;
    if |rows| == 0 {
      return Err("no public subnets found for VPC " + id);
    }
    var keys := seq(|rows|, k requires 0 <= k < |rows| => SubnetKey(rows[k]));
    var best := SmallestKey(keys);
    var selected := rows[best];
    forall k | 0 <= k < |rows|
      ensures LexLessEq(SubnetKey(selected), SubnetKey(rows[k]))
    {
      assert keys[k] == SubnetKey(rows[k]) && keys[best] == SubnetKey(selected);
    }
    return Ok(SubnetSelection(id, SubnetKey(selected), TrimSpace(selected.routeTableId),
      selected.mapPublicIpOnLaunch, |rows|));
  }
}

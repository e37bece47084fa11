/**
 * The command-line entry point (testing/runner/main.go): the cloud parameters built from
 * the flags and their validation, one `BasicServiceRunner` per known service type, and the
 * process exit status decided from the runners' exit codes.
 */
module ComplianceMain {
  import opened Wrappers
  import opened Environment
  import opened RunnerStats
  import BasicRunner

  /** The command-line flags `main` reads. */
  datatype Flags = Flags(
    provider: string,
    outputDir: string,
    timeout: int,
    resourceFilter: string,
    tag: string,
    region: string,
    azureSubscriptionId: string,
    azureResourceGroup: string,
    azureStorageAccount: string,
    gcpProjectId: string)

  /** `environment.ServiceTypes`: the service types a runner is assembled for, in order. */
  const ServiceTypes: seq<string> := [
    "object-storage", "block-storage", "relational-database", "iam",
    "load-balancer", "security-group", "vpc"]

  /** `buildCloudParams`: provider and region always; the provider's own fields only. */
  function BuildCloudParams(
    provider: string, region: string,
    azureSubscriptionId: string, azureResourceGroup: string, azureStorageAccount: string,
    gcpProjectId: string): (r: CloudParams)
    ensures r.provider == provider && r.region == region
    ensures r.azureSubscriptionId == (if provider == "azure" then azureSubscriptionId else "")
    ensures r.azureResourceGroup == (if provider == "azure" then azureResourceGroup else "")
    ensures r.azureStorageAccount == (if provider == "azure" then azureStorageAccount else "")
    ensures r.gcpProjectId == (if provider == "gcp" then gcpProjectId else "")
  {
    var params := BareParams(provider, region);
    if provider == "azure" then
      params.(azureSubscriptionId := azureSubscriptionId,
              azureResourceGroup := azureResourceGroup,
              azureStorageAccount := azureStorageAccount)
    else if provider == "gcp" then params.(gcpProjectId := gcpProjectId)
    else params
  }

  const RegionRequired := "region is required (use --region flag)"

  /** `validateCloudParams`: the region first, then the provider's own required fields. */
  function ValidateCloudParams(provider: string, params: CloudParams): (err: Option<string>)
    ensures params.region == "" ==> err == Some(RegionRequired)
    ensures err.None? <==>
      params.region != ""
      && (provider == "azure" ==> params.azureSubscriptionId != "" && params.azureResourceGroup != "")
      && (provider == "gcp" ==> params.gcpProjectId != "")
  {
    if params.region == "" then Some(RegionRequired)
    else if provider == "azure" && params.azureSubscriptionId == "" then
      Some("azure subscription ID is required (use --azure-subscription-id flag)")
    else if provider == "azure" && params.azureResourceGroup == "" then
      Some("azure resource group is required (use --azure-resource-group flag)")
    else if provider == "gcp" && params.gcpProjectId == "" then
      Some("GCP project ID is required (use --gcp-project-id flag)")
    else None
  }

  /** Which flags the built parameters need: the Azure storage account is never required. */
  lemma BuiltParamsAccepted(flags: Flags)
    ensures var params := BuildCloudParams(flags.provider, flags.region, flags.azureSubscriptionId,
      flags.azureResourceGroup, flags.azureStorageAccount, flags.gcpProjectId);
      ValidateCloudParams(flags.provider, params).None? <==>
        flags.region != ""
        && (flags.provider == "azure" ==> flags.azureSubscriptionId != "" && flags.azureResourceGroup != "")
        && (flags.provider == "gcp" ==> flags.gcpProjectId != "")
  {
  }

  /** The configuration of the runner for each service type, in order. */
  function RunnerConfigs(serviceNames: seq<string>, params: CloudParams, flags: Flags, outputDir: string)
    : (r: seq<BasicRunner.RunConfig>)
    ensures |r| == |serviceNames|
    ensures forall i :: 0 <= i < |r| ==> r[i].serviceName == serviceNames[i] && r[i].cloudParams == params
  {
    seq(|serviceNames|, i requires 0 <= i < |serviceNames| =>
      BasicRunner.RunConfig(serviceNames[i], params, outputDir, flags.timeout, flags.resourceFilter, flags.tag))
  }

  /** The append loop that assembles one runner per service type. */
  method AssembleRunners(params: CloudParams, flags: Flags, outputDir: string)
    returns (runners: seq<BasicRunner.RunConfig>)
    ensures runners == RunnerConfigs(ServiceTypes, params, flags, outputDir)
  {
    runners := [];
    for i := 0 to |ServiceTypes|
      invariant runners == RunnerConfigs(ServiceTypes[..i], params, flags, outputDir)
    {
      runners := runners + [BasicRunner.RunConfig(ServiceTypes[i], params, outputDir, flags.timeout, flags.resourceFilter, flags.tag)];
    }
    assert ServiceTypes[..|ServiceTypes|] == ServiceTypes;
  }

  /** How many runner exit codes were zero and how many were not. */
  function PassFail(codes: seq<int>): (r: (nat, nat))
    ensures r.0 + r.1 == |codes|
    ensures r.1 == 0 <==> forall i :: 0 <= i < |codes| ==> codes[i] == 0
  {
    if |codes| == 0 then (0, 0)
    else
      var p := PassFail(codes[..|codes| - 1]);
      assert forall i :: 0 <= i < |codes| - 1 ==> codes[..|codes| - 1][i] == codes[i];
      if codes[|codes| - 1] == 0 then (p.0 + 1, p.1) else (p.0, p.1 + 1)
  }

  /**
   * The final branch of `main`: 1 when a runner failed or there were none. The third
   * branch (no runner passed) exits 0 as well, and is unreachable once a runner ran and none
   * failed (see `NoPassedBranchUnreachable`).
   */
  function ExitStatus(runnerCount: nat, totalPassed: nat, totalFailed: nat): (code: int)
    ensures code == 0 || code == 1
    ensures code == 1 <==> totalFailed > 0 || runnerCount == 0
  {
    if totalFailed > 0 then 1
    else if runnerCount == 0 then 1
    else if totalPassed == 0 then 0
    else 0
  }

  /** With a tally of every runner, "no runner passed" cannot happen without a failure. */
  lemma NoPassedBranchUnreachable(codes: seq<int>)
    requires |codes| > 0 && PassFail(codes).1 == 0
    ensures PassFail(codes).0 > 0
  {
  }

  /** The exit code of each runner, as far as all of them return. */
  function ExitCodes(runners: seq<BasicRunner.RunConfig>, run: BasicRunner.RunConfig -> RunEnd): (r: seq<int>)
    ensures |r| == |runners|
  {
    seq(|runners|, i requires 0 <= i < |runners| => if run(runners[i]).Exit? then run(runners[i]).code else 1)
  }

  /**
   * The loop that runs every runner and counts exit codes. A runner that ends in
   * `log.Fatal` ends the whole process there.
   */
  method RunAll(runners: seq<BasicRunner.RunConfig>, run: BasicRunner.RunConfig -> RunEnd)
    returns (end: RunEnd)
    ensures end.Fatal? <==> exists i :: 0 <= i < |runners| && run(runners[i]).Fatal?
    ensures end.Exit? ==> end.code == ExitStatus(|runners|, PassFail(ExitCodes(runners, run)).0, PassFail(ExitCodes(runners, run)).1)
  {
    var totalFailed, totalPassed := 0, 0;
    for i := 0 to |runners|
      invariant forall k :: 0 <= k < i ==> run(runners[k]).Exit?
      invariant (totalPassed, totalFailed) == PassFail(ExitCodes(runners, run)[..i])
    {
      assert ExitCodes(runners, run)[..i + 1][..i] == ExitCodes(runners, run)[..i];
      var result := run(runners[i]);
      if result.Fatal? {
        return result;
      }
      if result.code == 0 {
        totalPassed := totalPassed + 1;
      } else {
        totalFailed := totalFailed + 1;
      }
    }
    assert ExitCodes(runners, run)[..|runners|] == ExitCodes(runners, run);
    if totalFailed > 0 {
      return Exit(1);
    } else if |runners| == 0 {
      return Exit(1);
    } else if totalPassed == 0 {
      return Exit(0);
    }
    return Exit(0);
  }

  /**
   * `main`: the provider and the cloud parameters are validated, the output directory
   * prepared (an empty `-output` means `defaultOutputDir`), one runner per service type is
   * run, and the process exits 0 exactly when every runner returned 0.
   */
  method Execute(flags: Flags, defaultOutputDir: string, outputError: Option<string>, run: BasicRunner.RunConfig -> RunEnd)
    returns (end: RunEnd)
    ensures !KnownProvider(flags.provider) ==> end.Fatal?
    ensures end.Exit? ==> end.code == 0 || end.code == 1
    ensures end.Exit? ==>
      var params := BuildCloudParams(flags.provider, flags.region, flags.azureSubscriptionId,
        flags.azureResourceGroup, flags.azureStorageAccount, flags.gcpProjectId);
      var outputDir := if flags.outputDir == "" then defaultOutputDir else flags.outputDir;
      var runners := RunnerConfigs(ServiceTypes, params, flags, outputDir);
      KnownProvider(flags.provider) && ValidateCloudParams(flags.provider, params).None? && outputError.None?
      && (end.code == 0 <==> forall i :: 0 <= i < |runners| ==> run(runners[i]) == Exit(0))
    ensures
      var params := BuildCloudParams(flags.provider, flags.region, flags.azureSubscriptionId,
        flags.azureResourceGroup, flags.azureStorageAccount, flags.gcpProjectId);
      var outputDir := if flags.outputDir == "" then defaultOutputDir else flags.outputDir;
      var runners := RunnerConfigs(ServiceTypes, params, flags, outputDir);
      end.Fatal? <==> (!KnownProvider(flags.provider) || ValidateCloudParams(flags.provider, params).Some?
                       || outputError.Some? || exists i :: 0 <= i < |runners| && run(runners[i]).Fatal?)
  {
    var outputDir := flags.outputDir;
    if outputDir == "" {
      outputDir := defaultOutputDir;
    }
    if flags.provider == "" {
      return Fatal("Error: -provider flag is required (aws, azure, or gcp)");
    }
    if !KnownProvider(flags.provider) {
      return Fatal("Error: invalid provider '" + flags.provider + "' (must be aws, azure, or gcp)");
    }
    var params := BuildCloudParams(flags.provider, flags.region, flags.azureSubscriptionId,
      flags.azureResourceGroup, flags.azureStorageAccount, flags.gcpProjectId);
    var err := ValidateCloudParams(flags.provider, params);
    if err.Some? {
      return Fatal("Error: " + err.value);
    }
    if outputError.Some? {
      return Fatal("Failed to create output directory: " + outputError.value);
    }
    var runners := AssembleRunners(params, flags, outputDir);
    end := RunAll(runners, run);
    if end.Exit? {
      var codes := ExitCodes(runners, run);
      assert forall i :: 0 <= i < |runners| ==> (codes[i] == 0 <==> run(runners[i]) == Exit(0));
    }
  }
}

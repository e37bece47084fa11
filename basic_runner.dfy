/**
 * `BasicServiceRunner` (testing/runner/BasicServiceRunner.go): one runner per service
 * type. It discovers the service's testable resources, runs each resource's suite with a
 * tag filter made of the resource's catalog types, and turns the tally into an exit code.
 */
module BasicRunner {
  import opened Wrappers
  import opened Text
  import opened Environment
  import opened RunnerStats

  /** `RunConfig` of the runner package; the timeout is a duration in nanoseconds. */
  datatype RunConfig = RunConfig(
    serviceName: string,
    cloudParams: CloudParams,
    outputDir: string,
    timeout: int,
    resourceFilter: string,
    tag: string)

  /**
   * What the calls `Run` makes before the tally answer: `NewFactory` and `GetServiceAPI`
   * (an error, or None for nil), `GetOrProvisionTestableResources` (the resources, each
   * paired with what running its suite gives) and `os.ReadDir` of the features directory.
   */
  datatype Discovery = Discovery(
    factoryError: Option<string>,
    serviceError: Option<string>,
    resources: Result<seq<Trial>>,
    featuresError: Option<string>)

  /** `buildTagFilter`: the catalog types joined with ",". */
  function TagFilter(catalogTypes: seq<string>): (r: string)
    ensures |catalogTypes| == 1 ==> r == catalogTypes[0]
  {
    JoinWith(catalogTypes, ",")
  }

  /** A tag filter splits back at ',' into the catalog types it was built from. */
  lemma TagFilterRoundTrip(catalogTypes: seq<string>)
    requires |catalogTypes| >= 1
    requires forall i :: 0 <= i < |catalogTypes| ==> ',' !in catalogTypes[i]
    ensures SplitOn(TagFilter(catalogTypes), ',') == catalogTypes
  {
    SplitOfJoin(catalogTypes, ',');
  }

  /**
   * `Run`: any failing setup call ends the process through `log.Fatalf`; otherwise the exit
   * code is 1 when a selected resource failed or none ran, and 0 when at least one ran and
   * none failed.
   */
  method Run(config: RunConfig, setup: Discovery) returns (end: RunEnd)
    ensures end.Exit? <==>
      setup.factoryError.None? && setup.serviceError.None? && setup.resources.Ok? && setup.featuresError.None?
    ensures setup.factoryError.Some? ==> end == Fatal("Failed to create factory: " + setup.factoryError.value)
    ensures end.Exit? ==> end.code == ExitCode(Count(Outcomes(config.resourceFilter, setup.resources.value)))
    ensures end.Exit? ==>
      (end.code == 0 <==>
        (exists t :: t in setup.resources.value && Selected(config.resourceFilter, t))
        && Failed !in Outcomes(config.resourceFilter, setup.resources.value))
  {
    if setup.factoryError.Some? {
      return Fatal("Failed to create factory: " + setup.factoryError.value);
    }
    if setup.serviceError.Some? {
      return Fatal("Failed to get service '" + config.serviceName + "': " + setup.serviceError.value);
    }
    if setup.resources.Err? {
      return Fatal("Failed to discover resources: " + setup.resources.message);
    }
    if setup.featuresError.Some? {
      return Fatal("Failed to read features directory: " + setup.featuresError.value);
    }
    var stats := RunTests(config.resourceFilter, setup.resources.value);
    ExitCodeOfOutcomes(Outcomes(config.resourceFilter, setup.resources.value));
    SelectedOutcomes(config.resourceFilter, setup.resources.value);
    if stats.failed > 0 {
      return Exit(1);
    } else if stats.total == 0 {
      return Exit(1);
    }
    return Exit(0);
  }
}

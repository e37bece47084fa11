/**
 * `AbstractServiceRunner` (testing/services/AbstractServiceRunner.go): a runner for one
 * catalog type. It validates the provider, discovers resources, runs each resource's suite
 * with a tag filter that excludes every other catalog type, and turns the tally into an
 * exit code. The tally, status mapping and file-name sanitiser are the ones of `RunnerStats`.
 */
module AbstractRunner {
  import opened Wrappers
  import opened Text
  import opened Environment
  import opened RunnerStats

  /** `RunConfig` of the services package; the timeout is a duration in nanoseconds. */
  datatype RunConfig = RunConfig(provider: string, outputDir: string, timeout: int, resourceFilter: string)

  /**
   * What the calls `Run` makes answer: preparing the output directory and `NewFactory`
   * (an error, or None for nil), and resource discovery (the resources, each paired with
   * what running its suite gives).
   */
  datatype Setup = Setup(prepareError: Option<string>, factoryError: Option<string>, resources: Result<seq<Trial>>)

  /** The "~@X" exclusion of every catalog type X other than `catalogType`, in list order. */
  function Exclusions(catalogType: string, allCatalogTypes: seq<string>): (r: seq<string>)
    ensures |r| <= |allCatalogTypes|
    ensures forall i :: 0 <= i < |allCatalogTypes| && allCatalogTypes[i] != catalogType ==> "~@" + allCatalogTypes[i] in r
    ensures forall e :: e in r ==> HasPrefix(e, "~@") && e[2..] in allCatalogTypes && e[2..] != catalogType
  {
    if |allCatalogTypes| == 0 then []
    else
      var init := allCatalogTypes[..|allCatalogTypes| - 1];
      var ct := allCatalogTypes[|allCatalogTypes| - 1];
      var rest := Exclusions(catalogType, init);
      assert forall i :: 0 <= i < |init| ==> init[i] == allCatalogTypes[i];
      if ct != catalogType then
        assert ("~@" + ct)[2..] == ct;
        rest + ["~@" + ct]
      else rest
  }

  /** One catalog type gives its own exclusion, or none when it is the type being tested. */
  lemma ExclusionsOfOne(catalogType: string, ct: string)
    ensures Exclusions(catalogType, [ct]) == (if ct != catalogType then ["~@" + ct] else [])
  {
    assert [ct][..0] == [];
  }

  /** Appending a catalog type appends its exclusion, if it has one. */
  lemma ExclusionsSnoc(catalogType: string, types: seq<string>, ct: string)
    ensures Exclusions(catalogType, types + [ct])
      == Exclusions(catalogType, types) + (if ct != catalogType then ["~@" + ct] else [])
  {
    var all := types + [ct];
    assert all[..|all| - 1] == types;
  }

  /**
   * The exclusions keep the order of the catalog list: those of a concatenation are those
   * of its first part followed by those of its second.
   */
  lemma {:induction false} ExclusionsInOrder(catalogType: string, front: seq<string>, back: seq<string>)
    ensures Exclusions(catalogType, front + back) == Exclusions(catalogType, front) + Exclusions(catalogType, back)
    decreases |back|
  {
    if |back| == 0 {
      assert front + back == front;
      assert Exclusions(catalogType, back) == [];
    } else {
      var init := back[..|back| - 1];
      var ct := back[|back| - 1];
      assert back == init + [ct];
      assert front + back == (front + init) + [ct];
      ExclusionsInOrder(catalogType, front, init);
      ExclusionsSnoc(catalogType, front + init, ct);
      ExclusionsSnoc(catalogType, init, ct);
    }
  }

  /** `buildTagFilter`: "@PerService" and the exclusions, joined with " && ". */
  function TagFilterOf(catalogType: string, allCatalogTypes: seq<string>): string
  {
    JoinWith(["@PerService"] + Exclusions(catalogType, allCatalogTypes), " && ")
  }

  /** The loop of `buildTagFilter` that collects the exclusions. */
  method BuildTagFilter(catalogType: string, allCatalogTypes: seq<string>) returns (filter: string)
    ensures filter == TagFilterOf(catalogType, allCatalogTypes)
  {
    var tags := ["@PerService"];
    var exclusions: seq<string> := [];
    for i := 0 to |allCatalogTypes|
      invariant exclusions == Exclusions(catalogType, allCatalogTypes[..i])
    {
      assert allCatalogTypes[..i + 1][..i] == allCatalogTypes[..i];
      var ct := allCatalogTypes[i];
      if ct != catalogType {
        exclusions := exclusions + ["~@" + ct];
      }
    }
    assert allCatalogTypes[..|allCatalogTypes|] == allCatalogTypes;
    filter := JoinWith(tags + exclusions, " && ");
  }

  /** Every tag filter requires "@PerService", and with no other catalog type it is only that. */
  lemma TagFilterRequiresPerService(catalogType: string, allCatalogTypes: seq<string>)
    ensures HasPrefix(TagFilterOf(catalogType, allCatalogTypes), "@PerService")
    ensures (forall i :: 0 <= i < |allCatalogTypes| ==> allCatalogTypes[i] == catalogType) ==>
      TagFilterOf(catalogType, allCatalogTypes) == "@PerService"
  {
    var parts := ["@PerService"] + Exclusions(catalogType, allCatalogTypes);
    JoinStartsWithFirst(parts, " && ");
    if forall i :: 0 <= i < |allCatalogTypes| ==> allCatalogTypes[i] == catalogType {
      if Exclusions(catalogType, allCatalogTypes) != [] {
        var e := Exclusions(catalogType, allCatalogTypes)[0];
        assert e in Exclusions(catalogType, allCatalogTypes);
      }
    }
  }

  /**
   * `Run`: an empty or unknown provider, a failing output directory, factory or discovery
   * ends the process through `log.Fatal`; otherwise the exit code is 1 when a selected
   * resource failed or none ran, and 0 otherwise.
   */
  method Run(config: RunConfig, setup: Setup) returns (end: RunEnd)
    ensures end.Exit? <==>
      KnownProvider(config.provider) && setup.prepareError.None? && setup.factoryError.None? && setup.resources.Ok?
    ensures config.provider == "" ==> end == Fatal("Error: provider is required (aws, azure, or gcp)")
    ensures end.Exit? ==> end.code == ExitCode(Count(Outcomes(config.resourceFilter, setup.resources.value)))
  {
    if config.provider == "" {
      return Fatal("Error: provider is required (aws, azure, or gcp)");
    }
    if config.provider != "aws" && config.provider != "azure" && config.provider != "gcp" {
      return Fatal("Error: invalid provider '" + config.provider + "' (must be aws, azure, or gcp)");
    }
    if setup.prepareError.Some? {
      return Fatal("Failed to prepare output directory: failed to create output directory: " + setup.prepareError.value);
    }
    if setup.factoryError.Some? {
      return Fatal("Failed to create factory: " + setup.factoryError.value);
    }
    if setup.resources.Err? {
      return Fatal("Failed to discover resources: " + setup.resources.message);
    }
    var stats := RunTests(config.resourceFilter, setup.resources.value);
    if stats.failed > 0 {
      return Exit(1);
    } else if stats.total == 0 {
      return Exit(1);
    }
    return Exit(0);
  }
}

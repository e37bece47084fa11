/**
 * The per-service godog driver (testing/language/cloud/test_service.go): the tag
 * expression built from a resource's catalog types, the scenario properties reset before
 * each scenario, and how the suite's status becomes the state of the Go subtest.
 */
module TestService {
  import opened Text
  import opened RunnerStats

  /** The catalog types, each prefixed with '@', in input order. */
  function CatalogTags(catalogTypes: seq<string>): (r: seq<string>)
    ensures |r| == |catalogTypes|
    ensures forall i :: 0 <= i < |r| ==> r[i] == "@" + catalogTypes[i]
  {
    if |catalogTypes| == 0 then []
    else CatalogTags(catalogTypes[..|catalogTypes| - 1]) + ["@" + catalogTypes[|catalogTypes| - 1]]
  }

  /** `buildServiceTagFilter`: "@PerService" and any one of the catalog types. */
  function ServiceTagFilterOf(catalogTypes: seq<string>): string
  {
    "@PerService && (" + JoinWith(CatalogTags(catalogTypes), " || ") + ")"
  }

  /** The append loop of `buildServiceTagFilter`, then the join and the format. */
  method BuildServiceTagFilter(catalogTypes: seq<string>) returns (filter: string)
    ensures filter == ServiceTagFilterOf(catalogTypes)
  {
    var catalogTags: seq<string> := [];
    for i := 0 to |catalogTypes|
      invariant catalogTags == CatalogTags(catalogTypes[..i])
    {
      assert catalogTypes[..i + 1][..i] == catalogTypes[..i];
      catalogTags := catalogTags + ["@" + catalogTypes[i]];
    }
    assert catalogTypes[..|catalogTypes|] == catalogTypes;
    var catalogExpr := JoinWith(catalogTags, " || ");
    filter := "@PerService && (" + catalogExpr + ")";
  }

  /** The expression's shape: an empty list gives an empty group, one type gives just its tag. */
  lemma ServiceTagFilterShape(catalogTypes: seq<string>)
    ensures catalogTypes == [] ==> ServiceTagFilterOf(catalogTypes) == "@PerService && ()"
    ensures |catalogTypes| == 1 ==> ServiceTagFilterOf(catalogTypes) == "@PerService && (@" + catalogTypes[0] + ")"
    ensures |catalogTypes| >= 1 ==> HasPrefix(ServiceTagFilterOf(catalogTypes), "@PerService && (@" + catalogTypes[0])
  {
    if |catalogTypes| >= 1 {
      var tags := CatalogTags(catalogTypes);
      JoinStartsWithFirst(tags, " || ");
      var j := JoinWith(tags, " || ");
      var p := "@PerService && (";
      assert (p + j + ")")[..|p + tags[0]|] == p + j[..|tags[0]|];
    }
  }

  /** The state a Go subtest ends in. */
  datatype SubtestFlags = SubtestFlags(failed: bool, skipped: bool)

  /**
   * `RunServiceTests`: a report directory that cannot be created fails the subtest
   * (`t.Fatalf`); status 2 skips it (`t.SkipNow` stops the subtest, so the failure check
   * after it never runs); any other non-zero status fails it.
   */
  function SubtestOf(a: Attempt): (r: SubtestFlags)
    ensures !(r.failed && r.skipped)
    ensures r.skipped <==> a.SuiteStatus? && a.status == 2
    ensures r.failed <==> a.OutputDirError? || (a.status != 0 && a.status != 2)
  {
    match a
    case OutputDirError(_) => SubtestFlags(true, false)
    case SuiteStatus(status) =>
      if status == 2 then SubtestFlags(false, true)
      else if status != 0 then SubtestFlags(true, false)
      else SubtestFlags(false, false)
  }

  /** A value the reflection loop copies into the scenario properties. */
  datatype Prop = Str(s: string) | List(items: seq<string>) | Struct(fields: seq<(string, Prop)>)

  /** The properties a list of (field name, value) pairs leaves, later fields winning. */
  function PropsOf(fields: seq<(string, Prop)>): (r: map<string, Prop>)
    ensures r.Keys == set i | 0 <= i < |fields| :: fields[i].0
  {
    if |fields| == 0 then map[]
    else
      var last := fields[|fields| - 1];
      var init := fields[..|fields| - 1];
      var m := PropsOf(init);
      assert forall i :: 0 <= i < |init| ==> init[i] == fields[i];
      m[last.0 := last.1]
  }

  /** The scenario state `setupServiceParams` writes. */
  class TestSuite {
    var props: map<string, Prop>

    constructor()
      ensures props == map[]
    {
      props := map[];
    }

    /**
     * `setupServiceParams`: the properties of the previous scenario are discarded, then
     * every field of the test parameters is copied in.
     */
    method SetupServiceParams(fields: seq<(string, Prop)>)
      modifies this
      ensures props == PropsOf(fields)
    {
      props := map[];
      for i := 0 to |fields|
        invariant props == PropsOf(fields[..i])
      {
        assert fields[..i + 1][..i] == fields[..i];
        props := props[fields[i].0 := fields[i].1];
      }
      assert fields[..|fields|] == fields;
    }
  }

  /** A property holds the value of the last field of its name. */
  lemma {:induction false} PropsOfLastWins(fields: seq<(string, Prop)>, i: nat)
    requires i < |fields|
    requires forall j :: i < j < |fields| ==> fields[j].0 != fields[i].0
    ensures PropsOf(fields)[fields[i].0] == fields[i].1
  {
    if i < |fields| - 1 {
      var init := fields[..|fields| - 1];
      assert forall j :: i < j < |init| ==> init[j] == fields[j];
      PropsOfLastWins(init, i);
    }
  }
}

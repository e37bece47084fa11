/**
 * The policy checker (testing/language/cloud/policy_checker.go): a policy is a shell query
 * with `${...}` placeholders and a list of rules; the checker fills the placeholders from
 * the test parameters, runs the query, and checks each rule against the query's JSON
 * output. Reading the policy file, the shell, the JSON decoder, JSONPath and regular
 * expressions are inputs of the model.
 */
module PolicyChecker {
  import opened Wrappers
  import opened Text
  import opened Environment
  import opened Json

  // ---------------------------------------------------------------------------
  // Placeholder substitution

  /** The placeholder `${name}`. */
  function Ph(name: string): (p: string)
    ensures |p| == |name| + 3 && p[0] == '$' && p[|p| - 1] == '}'
  {
    "${" + name + "}"
  }

  /** A name that can sit between `${` and `}` without creating or ending another placeholder. */
  predicate PlainName(name: string)
  {
    '$' !in name && '}' !in name
  }

  /**
   * The replacements in the order they are made: the test parameters, then the cloud
   * parameters, then the legacy names, which stand for the resource name (`BUCKET_NAME`) or
   * the UID (the others).
   */
  function Bindings(params: TestParams): (bs: seq<(string, string)>)
    ensures |bs| == 16
  {
    [ (Ph("ResourceName"), params.resourceName),
      (Ph("UID"), params.uid),
      (Ph("ServiceType"), params.serviceType),
      (Ph("Provider"), params.cloudParams.provider),
      (Ph("Region"), params.cloudParams.region),
      (Ph("AzureResourceGroup"), params.cloudParams.azureResourceGroup),
      (Ph("AzureSubscriptionID"), params.cloudParams.azureSubscriptionId),
      (Ph("AzureStorageAccount"), params.cloudParams.azureStorageAccount),
      (Ph("GCPProjectID"), params.cloudParams.gcpProjectId),
      (Ph("BUCKET_NAME"), params.resourceName),
      (Ph("VPC_ID"), params.uid),
      (Ph("SECURITY_GROUP_ID"), params.uid),
      (Ph("LOAD_BALANCER_ARN"), params.uid),
      (Ph("LISTENER_ARN"), params.uid),
      (Ph("TRUST_STORE_ARN"), params.uid),
      (Ph("KMS_KEY_ID"), params.uid) ]
  }

  /** Every key is a non-empty pattern. */
  predicate NonEmptyKeys(bs: seq<(string, string)>)
  {
    forall i :: 0 <= i < |bs| ==> |bs[i].0| > 0
  }

  /** `strings.ReplaceAll` with each (pattern, value) pair in turn, each on the previous result. */
  function ReplaceEach(s: string, bs: seq<(string, string)>): string
    requires NonEmptyKeys(bs)
    decreases |bs|
  {
    if |bs| == 0 then s else ReplaceEach(ReplaceAll(s, bs[0].0, bs[0].1), bs[1..])
  }

  /** What `SubstituteParams` computes. */
  function Substituted(query: string, params: TestParams): string
  {
    ReplaceEach(query, Bindings(params))
  }

  /** One replacement done: what remains is the rest of the table on the new text. */
  lemma ReplaceEachStep(s: string, bs: seq<(string, string)>, k: nat)
    requires NonEmptyKeys(bs) && k < |bs|
    ensures ReplaceEach(s, bs[k..]) == ReplaceEach(ReplaceAll(s, bs[k].0, bs[k].1), bs[k + 1..])
  {
    assert bs[k..][1..] == bs[k + 1..];
  }

  /** `SubstituteParams`: the sixteen replacements, each reassigning the result. */
  method SubstituteParams(query: string, params: TestParams) returns (result: string)
    ensures result == Substituted(query, params)
  {
    ghost var bs := Bindings(params);
    assert bs[0..] == bs;
    result := query;
    ReplaceEachStep(result, bs, 0);
    result := ReplaceAll(result, Ph("ResourceName"), params.resourceName);
    ReplaceEachStep(result, bs, 1);
    result := ReplaceAll(result, Ph("UID"), params.uid);
    ReplaceEachStep(result, bs, 2);
    result := ReplaceAll(result, Ph("ServiceType"), params.serviceType);
    ReplaceEachStep(result, bs, 3);
    result := ReplaceAll(result, Ph("Provider"), params.cloudParams.provider);
    ReplaceEachStep(result, bs, 4);
    result := ReplaceAll(result, Ph("Region"), params.cloudParams.region);
    ReplaceEachStep(result, bs, 5);
    result := ReplaceAll(result, Ph("AzureResourceGroup"), params.cloudParams.azureResourceGroup);
    ReplaceEachStep(result, bs, 6);
    result := ReplaceAll(result, Ph("AzureSubscriptionID"), params.cloudParams.azureSubscriptionId);
    ReplaceEachStep(result, bs, 7);
    result := ReplaceAll(result, Ph("AzureStorageAccount"), params.cloudParams.azureStorageAccount);
    ReplaceEachStep(result, bs, 8);
    result := ReplaceAll(result, Ph("GCPProjectID"), params.cloudParams.gcpProjectId);
    ReplaceEachStep(result, bs, 9);
    result := ReplaceAll(result, Ph("BUCKET_NAME"), params.resourceName);
    ReplaceEachStep(result, bs, 10);
    result := ReplaceAll(result, Ph("VPC_ID"), params.uid);
    ReplaceEachStep(result, bs, 11);
    result := ReplaceAll(result, Ph("SECURITY_GROUP_ID"), params.uid);
    ReplaceEachStep(result, bs, 12);
    result := ReplaceAll(result, Ph("LOAD_BALANCER_ARN"), params.uid);
    ReplaceEachStep(result, bs, 13);
    result := ReplaceAll(result, Ph("LISTENER_ARN"), params.uid);
    ReplaceEachStep(result, bs, 14);
    result := ReplaceAll(result, Ph("TRUST_STORE_ARN"), params.uid);
    ReplaceEachStep(result, bs, 15);
    result := ReplaceAll(result, Ph("KMS_KEY_ID"), params.uid);
  }

  /** The names between `${` and `}`, in the order of `Bindings`. */
  const PlaceholderNames: seq<string> := [
    "ResourceName", "UID", "ServiceType", "Provider", "Region", "AzureResourceGroup",
    "AzureSubscriptionID", "AzureStorageAccount", "GCPProjectID", "BUCKET_NAME", "VPC_ID",
    "SECURITY_GROUP_ID", "LOAD_BALANCER_ARN", "LISTENER_ARN", "TRUST_STORE_ARN", "KMS_KEY_ID"]

  /** The table's keys are the placeholders of `PlaceholderNames`, in order. */
  lemma BindingsKeys(params: TestParams)
    ensures |PlaceholderNames| == |Bindings(params)|
    ensures forall i :: 0 <= i < |Bindings(params)| ==> Bindings(params)[i].0 == Ph(PlaceholderNames[i])
  {
  }

  /** No name of the first half holds a '$' or a '}' (the table is checked in two halves). */
  lemma FirstNamesPlain()
    ensures forall i :: 0 <= i < 8 ==> PlainName(PlaceholderNames[i])
  {
  }

  /** No name of the second half holds a '$' or a '}'. */
  lemma LastNamesPlain()
    ensures forall i :: 8 <= i < |PlaceholderNames| ==> PlainName(PlaceholderNames[i])
  {
  }

  /** No name is listed twice. */
  lemma NamesDistinct()
    ensures forall i, j :: 0 <= i < j < |PlaceholderNames| ==> PlaceholderNames[i] != PlaceholderNames[j]
  {
  }

  /** A pattern that occurs in a text brings its first rune along. */
  lemma FirstRuneOccurs(s: string, p: string)
    requires |p| > 0 && Contains(s, p)
    ensures p[0] in s
  {
    var i :| 0 <= i <= |s| && OccursAt(s, p, i);
    assert s[i] == s[i..i + |p|][0];
  }

  /** One placeholder occurs inside another only when the two are the same. */
  lemma PlaceholderInPlaceholder(a: string, b: string)
    requires PlainName(a) && PlainName(b) && Contains(Ph(b), Ph(a))
    ensures a == b
  {
    var pb, pa := Ph(b), Ph(a);
    var i :| 0 <= i <= |pb| && OccursAt(pb, pa, i);
    assert pb[i] == pa[0] == '$';
    assert pb[|pa| - 1] == pa[|pa| - 1] == '}';
    assert pa == pb[..|pa|] == pb;
    assert a == pa[2..|a| + 2] == pb[2..|b| + 2] == b;
  }

  /** Replacing patterns that do not occur leaves the text as it was. */
  lemma {:induction false} ReplaceEachAbsent(s: string, bs: seq<(string, string)>)
    requires NonEmptyKeys(bs)
    requires forall i :: 0 <= i < |bs| ==> !Contains(s, bs[i].0)
    ensures ReplaceEach(s, bs) == s
    decreases |bs|
  {
    if |bs| > 0 {
      ReplaceAllAbsent(s, bs[0].0, bs[0].1);
      assert forall i :: 0 <= i < |bs| - 1 ==> bs[1..][i] == bs[i + 1];
      ReplaceEachAbsent(s, bs[1..]);
    }
  }

  /** Text without a '$' has no placeholder in it. */
  lemma NoDollarNoPlaceholder(s: string, bs: seq<(string, string)>)
    requires NonEmptyKeys(bs)
    requires forall i :: 0 <= i < |bs| ==> bs[i].0[0] == '$'
    requires '$' !in s
    ensures forall i :: 0 <= i < |bs| ==> !Contains(s, bs[i].0)
  {
    forall i | 0 <= i < |bs| && Contains(s, bs[i].0)
      ensures false
    {
      FirstRuneOccurs(s, bs[i].0);
    }
  }

  /** `${name}` alone becomes the value bound to `name`, when no value holds a '$'. */
  lemma {:induction false} ReplaceEachFills(bs: seq<(string, string)>, names: seq<string>, i: nat)
    requires |names| == |bs| && i < |bs|
    requires forall j :: 0 <= j < |bs| ==> bs[j].0 == Ph(names[j]) && PlainName(names[j])
    requires forall j :: 0 <= j < i ==> names[j] != names[i]
    requires '$' !in bs[i].1
    ensures NonEmptyKeys(bs) && ReplaceEach(bs[i].0, bs) == bs[i].1
    decreases i
  {
    var rest := bs[1..];
    assert forall j :: 0 <= j < |rest| ==> rest[j] == bs[j + 1];
    if i == 0 {
      var p := bs[0].0;
      assert ReplaceAll(p, p, bs[0].1) == bs[0].1 + ReplaceAll(p[|p|..], p, bs[0].1);
      assert ReplaceAll(p, p, bs[0].1) == bs[0].1;
      NoDollarNoPlaceholder(bs[0].1, rest);
      ReplaceEachAbsent(bs[0].1, rest);
    } else {
      if Contains(bs[i].0, bs[0].0) {
        PlaceholderInPlaceholder(names[0], names[i]);
      }
      ReplaceAllAbsent(bs[i].0, bs[0].0, bs[0].1);
      ReplaceEachFills(rest, names[1..], i - 1);
    }
  }

  /** A query with none of the sixteen placeholders in it is run as written. */
  lemma NoPlaceholderUnchanged(query: string, params: TestParams)
    requires forall i :: 0 <= i < |Bindings(params)| ==> !Contains(query, Bindings(params)[i].0)
    ensures Substituted(query, params) == query
  {
    ReplaceEachAbsent(query, Bindings(params));
  }

  /** In particular, a query without a '$' is run as written. */
  lemma NoDollarUnchanged(query: string, params: TestParams)
    requires '$' !in query
    ensures Substituted(query, params) == query
  {
    BindingsKeys(params);
    NoDollarNoPlaceholder(query, Bindings(params));
    ReplaceEachAbsent(query, Bindings(params));
  }

  /**
   * Each placeholder alone becomes its parameter; in particular the legacy names stand for
   * the UID, and `${BUCKET_NAME}` for the resource name. A value holding a '$' could be
   * rewritten again by a later replacement, so the values are required to have none.
   */
  lemma PlaceholderFilled(params: TestParams, i: nat)
    requires i < |Bindings(params)| && '$' !in Bindings(params)[i].1
    ensures Substituted(Bindings(params)[i].0, params) == Bindings(params)[i].1
  {
    BindingsKeys(params);
    FirstNamesPlain();
    LastNamesPlain();
    NamesDistinct();
    ReplaceEachFills(Bindings(params), PlaceholderNames, i);
  }

  /** The legacy placeholders. */
  lemma LegacyPlaceholders(params: TestParams)
    requires '$' !in params.uid && '$' !in params.resourceName
    ensures Substituted(Ph("BUCKET_NAME"), params) == params.resourceName
    ensures Substituted(Ph("VPC_ID"), params) == params.uid
    ensures Substituted(Ph("SECURITY_GROUP_ID"), params) == params.uid
    ensures Substituted(Ph("LOAD_BALANCER_ARN"), params) == params.uid
    ensures Substituted(Ph("LISTENER_ARN"), params) == params.uid
    ensures Substituted(Ph("TRUST_STORE_ARN"), params) == params.uid
    ensures Substituted(Ph("KMS_KEY_ID"), params) == params.uid
  {
    PlaceholderFilled(params, 9);
    PlaceholderFilled(params, 10);
    PlaceholderFilled(params, 11);
    PlaceholderFilled(params, 12);
    PlaceholderFilled(params, 13);
    PlaceholderFilled(params, 14);
    PlaceholderFilled(params, 15);
  }

  // ---------------------------------------------------------------------------
  // Query clean-up and execution

  /** A backslash at the end of a line: the shell's line continuation. */
  const LineContinuation: string := "\\\n"

  /** The query `ExecuteQuery` hands to `sh -c`: continuations become spaces, then it is trimmed. */
  function CleanQuery(query: string): (r: string)
    ensures r == [] || (!IsSpace(r[0]) && !IsSpace(r[|r| - 1]))
  {
    TrimSpace(ReplaceAll(query, LineContinuation, " "))
  }

  /** A slice of a slice is a slice. */
  lemma ContainsTransitive(a: string, b: string, c: string)
    requires Contains(a, b) && Contains(b, c)
    ensures Contains(a, c)
  {
    var i :| 0 <= i <= |a| && OccursAt(a, b, i);
    var j :| 0 <= j <= |b| && OccursAt(b, c, j);
    forall k | 0 <= k < |c|
      ensures a[i + j + k] == c[k]
    {
      assert c[k] == b[j..j + |c|][k] == b[j + k];
      assert b[j + k] == a[i..i + |b|][j + k] == a[i + j + k];
    }
    assert a[i + j..i + j + |c|] == c;
    assert OccursAt(a, c, i + j);
  }

  /**
   * Replacing a two-rune pattern by a rune of neither kind leaves no occurrence of it, and
   * the result starts with the replacement or with the text's own first rune.
   */
  lemma {:induction false} ReplacePairRemovesIt(s: string, x: char, y: char, c: char)
    requires x != y && c != x && c != y
    ensures var r := ReplaceAll(s, [x, y], [c]);
      !Contains(r, [x, y]) && (|r| > 0 ==> |s| > 0 && (r[0] == c || r[0] == s[0]))
    decreases |s|
  {
    var pat, r := [x, y], ReplaceAll(s, [x, y], [c]);
    if |s| >= 2 {
      var rest := if s[..2] == pat then s[2..] else s[1..];
      var t := ReplaceAll(rest, pat, [c]);
      ReplacePairRemovesIt(rest, x, y, c);
      assert r[1..] == t;
      forall j | 0 <= j <= |r|
        ensures !OccursAt(r, pat, j)
      {
        if j >= 1 {
          OccursInTail(r, pat, j);
        }
      }
    }
  }

  /** No line continuation survives the clean-up. */
  lemma ContinuationsRemoved(query: string)
    ensures !Contains(CleanQuery(query), LineContinuation)
  {
    var replaced := ReplaceAll(query, LineContinuation, " ");
    assert LineContinuation == ['\\', '\n'];
    ReplacePairRemovesIt(query, '\\', '\n', ' ');
    TrimSpaceIsSlice(replaced);
    if Contains(CleanQuery(query), LineContinuation) {
      ContainsTransitive(replaced, CleanQuery(query), LineContinuation);
    }
  }

  /** A query without continuations and surrounding space is run exactly as written. */
  lemma CleanQueryKeepsCleanText(query: string)
    requires !Contains(query, LineContinuation)
    requires query == [] || (!IsSpace(query[0]) && !IsSpace(query[|query| - 1]))
    ensures CleanQuery(query) == query
  {
    ReplaceAllAbsent(query, LineContinuation, " ");
    assert TrimLeftSpace(query) == query;
    assert TrimRightSpace(query) == query;
  }

  /** Cleaning a cleaned query changes nothing. */
  lemma CleanQueryIdempotent(query: string)
    ensures CleanQuery(CleanQuery(query)) == CleanQuery(query)
  {
    ContinuationsRemoved(query);
    CleanQueryKeepsCleanText(CleanQuery(query));
  }

  /** What `sh -c` gives for a command: its combined output and its error (None for nil). */
  datatype ShellRun = ShellRun(output: string, failure: Option<string>)

  /**
   * `ExecuteQuery`: the shell runs the cleaned query; its output is returned either way,
   * and a failure is wrapped together with that output.
   */
  function ExecuteQuery(query: string, sh: string -> ShellRun): (r: (string, Option<string>))
    ensures r.0 == sh(CleanQuery(query)).output
    ensures r.1.Some? <==> sh(CleanQuery(query)).failure.Some?
    ensures r.1.Some? ==>
      HasPrefix(r.1.value, "query execution failed: " + sh(CleanQuery(query)).failure.value)
  {
    var run := sh(CleanQuery(query));
    if run.failure.Some? then
      var head := "query execution failed: " + run.failure.value;
      assert (head + "\nOutput: " + run.output)[..|head|] == head;
      (run.output, Some(head + "\nOutput: " + run.output))
    else (run.output, None)
  }

  // ---------------------------------------------------------------------------
  // Rules

  /**
   * A rule of a policy: a JSONPath into the query's output, and either a regular expression
   * the value must match or the values it may take. The expected values are as the YAML
   * decoder gives them, which `Value` also describes.
   */
  datatype Rule = Rule(jsonPath: string, expectedValues: seq<Value>, validationRule: string, description: string)

  /** The outcome of one rule; `error` is "" when nothing went wrong. */
  datatype RuleResult = RuleResult(
    jsonPath: string,
    expectedValues: seq<string>,
    validationRule: string,
    description: string,
    passed: bool,
    actualValue: string,
    error: string)

  /**
   * The library calls a rule depends on: `json.Unmarshal` of the output, `jsonpath.Get`,
   * and the compilation of a regular expression followed by `MatchString` (an error when
   * the expression does not compile).
   */
  datatype Foreign = Foreign(
    unmarshal: string -> Result<Value>,
    jsonPathGet: (string, Value) -> Result<Value>,
    matchRegex: (string, string) -> Result<bool>)

  /** The `%v` text of each expected value, in order. */
  function ExpectedTexts(values: seq<Value>): (r: seq<string>)
    ensures |r| == |values|
    ensures forall i :: 0 <= i < |r| ==> r[i] == Render(values[i])
  {
    seq(|values|, i requires 0 <= i < |values| => Render(values[i]))
  }

  /** The text an actual value is compared as: a null is "null", anything else its `%v` text. */
  function ActualText(v: Value): string
  {
    if v == JNull then "null" else Render(v)
  }

  /** What `EvaluateRule` returns for a rule and the query's output. */
  function RuleVerdict(rule: Rule, output: string, f: Foreign): (r: RuleResult)
    ensures r.jsonPath == rule.jsonPath && r.validationRule == rule.validationRule && r.description == rule.description
    ensures r.expectedValues == ExpectedTexts(rule.expectedValues)
    ensures r.passed ==> r.error == ""
    ensures f.unmarshal(output).Err? ==>
      !r.passed && r.actualValue == "" && r.error == "failed to parse JSON output: " + f.unmarshal(output).message
    ensures f.unmarshal(output).Ok? && f.jsonPathGet(rule.jsonPath, f.unmarshal(output).value).Err? ==>
      !r.passed && r.actualValue == ""
      && r.error == "JSONPath query failed " + rule.jsonPath + ": " + f.jsonPathGet(rule.jsonPath, f.unmarshal(output).value).message
    ensures f.unmarshal(output).Ok? && f.jsonPathGet(rule.jsonPath, f.unmarshal(output).value).Ok? ==>
      var actual := ActualText(f.jsonPathGet(rule.jsonPath, f.unmarshal(output).value).value);
      r.actualValue == actual
      && (rule.validationRule == "" ==>
            r.error == ""
            && (r.passed <==> exists i :: 0 <= i < |rule.expectedValues| && Render(rule.expectedValues[i]) == actual))
      && (rule.validationRule != "" ==>
            (r.passed <==> f.matchRegex(rule.validationRule, actual) == Ok(true))
            && (f.matchRegex(rule.validationRule, actual).Err? ==>
                  r.error == "invalid validation regex " + rule.validationRule + ": "
                             + f.matchRegex(rule.validationRule, actual).message))
  {
    var base := RuleResult(rule.jsonPath, ExpectedTexts(rule.expectedValues), rule.validationRule, rule.description, false, "", "");
    match f.unmarshal(output)
    case Err(e) => base.(error := "failed to parse JSON output: " + e)
    case Ok(doc) =>
      match f.jsonPathGet(rule.jsonPath, doc)
      case Err(e) => base.(error := "JSONPath query failed " + rule.jsonPath + ": " + e)
      case Ok(v) =>
        var actual := ActualText(v);
        if rule.validationRule != "" then
          match f.matchRegex(rule.validationRule, actual)
          case Err(e) => base.(actualValue := actual, error := "invalid validation regex " + rule.validationRule + ": " + e)
          case Ok(m) => base.(actualValue := actual, passed := m)
        else
          base.(actualValue := actual, passed := actual in ExpectedTexts(rule.expectedValues))
  }

  /**
   * A null found at the path is compared as "null", but an expected null prints as "<nil>":
   * without a validation rule, the text "null" among the expected values makes a null pass,
   * and a null among them never does.
   */
  lemma NullMatchesTheTextNull(rule: Rule, output: string, f: Foreign)
    requires rule.validationRule == ""
    requires f.unmarshal(output).Ok? && f.jsonPathGet(rule.jsonPath, f.unmarshal(output).value) == Ok(JNull)
    ensures JString("null") in rule.expectedValues ==> RuleVerdict(rule, output, f).passed
    ensures RuleVerdict(rule, output, f).passed ==>
      exists i :: 0 <= i < |rule.expectedValues| && rule.expectedValues[i] != JNull && Render(rule.expectedValues[i]) == "null"
  {
    var ev := rule.expectedValues;
    if JString("null") in ev {
      var i :| 0 <= i < |ev| && ev[i] == JString("null");
      assert Render(ev[i]) == "null";
    }
    assert Render(JNull) != "null" by {
      assert Render(JNull)[0] == '<';
    }
  }

  /** The loop of `EvaluateRule` that converts the expected values to text. */
  method ConvertExpected(values: seq<Value>) returns (expected: seq<string>)
    ensures expected == ExpectedTexts(values)
  {
    expected := [];
    for i := 0 to |values|
      invariant expected == ExpectedTexts(values[..i])
    {
      expected := expected + [Render(values[i])];
    }
    assert values[..|values|] == values;
  }

  /** The search of `EvaluateRule` for the actual text among the expected ones, up to the first hit. */
  method FindExpected(actual: string, expected: seq<string>) returns (found: bool)
    ensures found <==> actual in expected
  {
    found := false;
    for i := 0 to |expected|
      invariant !found ==> actual !in expected[..i]
      invariant found ==> actual in expected
    {
      if actual == expected[i] {
        found := true;
        break;
      }
      assert expected[..i + 1] == expected[..i] + [expected[i]];
    }
    assert expected[..|expected|] == expected;
  }

  /**
   * `EvaluateRule`: the expected values are converted one by one, then the output is
   * decoded, the path looked up, and the value checked against the regular expression or
   * searched for among the expected texts.
   */
  method EvaluateRule(rule: Rule, output: string, f: Foreign) returns (result: RuleResult)
    ensures result == RuleVerdict(rule, output, f)
  {
    var expected := ConvertExpected(rule.expectedValues);
    result := RuleResult(rule.jsonPath, expected, rule.validationRule, rule.description, false, "", "");
    var doc := f.unmarshal(output);
    if doc.Err? {
      return result.(error := "failed to parse JSON output: " + doc.message);
    }
    var value := f.jsonPathGet(rule.jsonPath, doc.value);
    if value.Err? {
      return result.(error := "JSONPath query failed " + rule.jsonPath + ": " + value.message);
    }
    var actual := if value.value == JNull then "null" else Render(value.value);
    result := result.(actualValue := actual);
    if rule.validationRule != "" {
      var matched := f.matchRegex(rule.validationRule, actual);
      if matched.Err? {
        return result.(error := "invalid validation regex " + rule.validationRule + ": " + matched.message);
      }
      result := result.(passed := matched.value);
    } else {
      var found := FindExpected(actual, expected);
      result := result.(passed := found);
    }
  }

  // ---------------------------------------------------------------------------
  // Policies

  /** A policy file's content; `validityScore` is carried through unchanged. */
  datatype PolicyDefinition = PolicyDefinition(
    name: string,
    serviceType: string,
    requirementText: string,
    validityScore: int,
    validityCommentary: string,
    query: string,
    rules: seq<Rule>)

  /** What reading and decoding a policy file gives. */
  datatype PolicyFile = Unreadable(message: string) | Undecodable(message: string) | Decoded(policy: PolicyDefinition)

  /** `LoadPolicy`: the decoded policy, or an error naming the file. */
  function LoadPolicy(policyPath: string, file: PolicyFile): (r: Result<PolicyDefinition>)
    ensures r.Ok? <==> file.Decoded?
    ensures r.Ok? ==> r.value == file.policy
    ensures file.Unreadable? ==> r == Err("failed to read policy file " + policyPath + ": " + file.message)
    ensures file.Undecodable? ==> r == Err("failed to parse policy file " + policyPath + ": " + file.message)
  {
    match file
    case Unreadable(e) => Err("failed to read policy file " + policyPath + ": " + e)
    case Undecodable(e) => Err("failed to parse policy file " + policyPath + ": " + e)
    case Decoded(policy) => Ok(policy)
  }

  /** The report of one policy run. */
  datatype PolicyResult = PolicyResult(
    policyPath: string,
    name: string,
    serviceType: string,
    requirementText: string,
    validityScore: int,
    validityComment: string,
    queryTemplate: string,
    queryExecuted: string,
    queryOutput: string,
    queryError: string,
    ruleResults: seq<RuleResult>,
    passed: bool)

  /** Every rule's verdict on the output, in rule order. */
  function RuleVerdicts(rules: seq<Rule>, output: string, f: Foreign): (r: seq<RuleResult>)
    ensures |r| == |rules|
    ensures forall i :: 0 <= i < |r| ==> r[i] == RuleVerdict(rules[i], output, f)
  {
    seq(|rules|, i requires 0 <= i < |rules| => RuleVerdict(rules[i], output, f))
  }

  /** The loop of `RunPolicy` over the rules: every verdict kept, and a failing one clears `passed`. */
  method EvaluateRules(rules: seq<Rule>, output: string, f: Foreign) returns (results: seq<RuleResult>, passed: bool)
    ensures results == RuleVerdicts(rules, output, f)
    ensures passed <==> forall i :: 0 <= i < |results| ==> results[i].passed
  {
    results := [];
    passed := true;
    for i := 0 to |rules|
      invariant results == RuleVerdicts(rules[..i], output, f)
      invariant passed <==> forall k :: 0 <= k < i ==> results[k].passed
    {
      var ruleResult := EvaluateRule(rules[i], output, f);
      results := results + [ruleResult];
      if !ruleResult.passed {
        passed := false;
      }
    }
    assert rules[..|rules|] == rules;
  }

  /**
   * `RunPolicy`: a policy that cannot be loaded is an error. Otherwise the query is filled
   * in and run; when it fails the report says so, fails, and holds no rule results, and no
   * error is returned; when it succeeds the report holds every rule's verdict in order and
   * passes exactly when every rule passed.
   */
  method RunPolicy(params: TestParams, policyPath: string, file: PolicyFile, sh: string -> ShellRun, f: Foreign)
    returns (r: Result<PolicyResult>)
    ensures r.Err? <==> LoadPolicy(policyPath, file).Err?
    ensures r.Err? ==> r == Err(LoadPolicy(policyPath, file).message)
    ensures r.Ok? ==>
      var policy := file.policy;
      var executed := Substituted(policy.query, params);
      var run := ExecuteQuery(executed, sh);
      var report := r.value;
      report.policyPath == policyPath && report.name == policy.name && report.serviceType == policy.serviceType
      && report.requirementText == policy.requirementText && report.validityScore == policy.validityScore
      && report.validityComment == policy.validityCommentary
      && report.queryTemplate == policy.query && report.queryExecuted == executed && report.queryOutput == run.0
      && (run.1.Some? ==> !report.passed && report.queryError == run.1.value && report.ruleResults == [])
      && (run.1.None? ==>
            report.queryError == ""
            && report.ruleResults == RuleVerdicts(policy.rules, run.0, f)
            && (report.passed <==> forall i :: 0 <= i < |report.ruleResults| ==> report.ruleResults[i].passed))
  {
    var loaded := LoadPolicy(policyPath, file);
    if loaded.Err? {
      return Err(loaded.message);
    }
    var policy := loaded.value;
    var result := PolicyResult(policyPath, policy.name, policy.serviceType, policy.requirementText,
      policy.validityScore, policy.validityCommentary, policy.query, "", "", "", [], true);
    var executed := SubstituteParams(policy.query, params);
    result := result.(queryExecuted := executed);
    var run := ExecuteQuery(executed, sh);
    result := result.(queryOutput := run.0);
    if run.1.Some? {
      result := result.(queryError := run.1.value, passed := false);
      return Ok(result);
    }
    var results, passed := EvaluateRules(policy.rules, run.0, f);
    result := result.(ruleResults := results, passed := passed);
    return Ok(result);
  }

  /** A policy passes only when its query ran and every rule found what it expected. */
  lemma PassedPolicyHasNoErrors(report: PolicyResult, policy: PolicyDefinition, output: string, f: Foreign)
    requires report.ruleResults == RuleVerdicts(policy.rules, output, f)
    requires report.passed <==> forall i :: 0 <= i < |report.ruleResults| ==> report.ruleResults[i].passed
    requires report.passed
    ensures forall i :: 0 <= i < |policy.rules| ==>
      report.ruleResults[i].error == "" && f.unmarshal(output).Ok?
      && f.jsonPathGet(policy.rules[i].jsonPath, f.unmarshal(output).value).Ok?
  {
    forall i | 0 <= i < |policy.rules|
      ensures report.ruleResults[i].error == "" && f.unmarshal(output).Ok?
      ensures f.jsonPathGet(policy.rules[i].jsonPath, f.unmarshal(output).value).Ok?
    {
      var verdict := RuleVerdict(policy.rules[i], output, f);
      assert report.ruleResults[i] == verdict && verdict.passed;
    }
  }
}

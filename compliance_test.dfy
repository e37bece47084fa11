/**
 * The `go test` entry point of the runner package (testing/runner/main_test.go): the
 * collapsing report file-name sanitiser, the per-instance subtest outcome, the tally per
 * service type and the final pass/fail rule.
 */
module ComplianceTest {
  import opened Wrappers
  import opened Text
  import opened Environment
  import opened RunnerStats
  import opened TestService

  // ---------------------------------------------------------------------------
  // Report file names

  /** Only ASCII letters, digits and '-'. */
  predicate SafeChars(s: string)
  {
    forall i :: 0 <= i < |s| ==> IsAsciiAlnum(s[i]) || s[i] == '-'
  }

  /** No two '-' in a row. */
  predicate NoDoubleDash(s: string)
  {
    forall i :: 0 <= i < |s| - 1 ==> !(s[i] == '-' && s[i + 1] == '-')
  }

  /** What `sanitizeFilename` promises of its result. */
  predicate CleanName(s: string)
  {
    SafeChars(s) && NoDoubleDash(s) && |s| <= 100 && (s == [] || (s[0] != '-' && s[|s| - 1] != '-'))
  }

  /** The ASCII letters and digits of a text, in order. */
  function Alnums(s: string): (r: string)
    ensures |r| <= |s|
  {
    if |s| == 0 then []
    else if IsAsciiAlnum(s[|s| - 1]) then Alnums(s[..|s| - 1]) + [s[|s| - 1]]
    else Alnums(s[..|s| - 1])
  }

  lemma {:induction false} AlnumsAppend(a: string, b: string)
    ensures Alnums(a + b) == Alnums(a) + Alnums(b)
    decreases |b|
  {
    if |b| > 0 {
      AlnumsAppend(a, b[..|b| - 1]);
      assert (a + b)[..|a + b| - 1] == a + b[..|b| - 1];
    } else {
      assert a + b == a;
    }
  }

  lemma {:induction false} AlnumsOfDashes(d: string)
    requires forall i :: 0 <= i < |d| ==> d[i] == '-'
    ensures Alnums(d) == []
    decreases |d|
  {
    if |d| > 0 {
      AlnumsOfDashes(d[..|d| - 1]);
    }
  }

  /**
   * `regexp.MustCompile("[^a-zA-Z0-9]+").ReplaceAllString(s, "-")`: every maximal run of
   * other runes becomes a single '-'.
   */
  function CollapseRuns(s: string): (r: string)
    ensures SafeChars(r) && NoDoubleDash(r)
    ensures |r| <= |s|
    ensures |s| > 0 ==> |r| > 0 && (r[|r| - 1] == '-' <==> !IsAsciiAlnum(s[|s| - 1]))
  {
    if |s| == 0 then []
    else
      var c := s[|s| - 1];
      var p := CollapseRuns(s[..|s| - 1]);
      if IsAsciiAlnum(c) then p + [c]
      else if |p| > 0 && p[|p| - 1] == '-' then p
      else p + ['-']
  }

  /** `s` without its leading run of runes other than ASCII letters and digits. */
  function SkipRun(s: string): (r: string)
    ensures |r| <= |s| && r == s[|s| - |r|..]
    ensures r == [] || IsAsciiAlnum(r[0])
  {
    if |s| == 0 || IsAsciiAlnum(s[0]) then s else SkipRun(s[1..])
  }

  /**
   * The replacement read front to back, one run at a time: a letter or digit is kept, and a
   * maximal run of other runes is written as one '-'.
   */
  function ReplaceRuns(s: string): string
    decreases |s|
  {
    if |s| == 0 then []
    else if IsAsciiAlnum(s[0]) then [s[0]] + ReplaceRuns(s[1..])
    else ['-'] + ReplaceRuns(SkipRun(s[1..]))
  }

  /** One rune of the back-to-front collapse, appended to what was built so far. */
  function CollapseStep(p: string, c: char): string
  {
    if IsAsciiAlnum(c) then p + [c]
    else if |p| > 0 && p[|p| - 1] == '-' then p
    else p + ['-']
  }

  /** The collapse continued from `p` over the runes of `s`, front to back. */
  function CollapseFrom(p: string, s: string): string
    decreases |s|
  {
    if |s| == 0 then p else CollapseFrom(CollapseStep(p, s[0]), s[1..])
  }

  lemma {:induction false} CollapseFromSnoc(p: string, s: string, c: char)
    ensures CollapseFrom(p, s + [c]) == CollapseStep(CollapseFrom(p, s), c)
    decreases |s|
  {
    if |s| == 0 {
      assert (s + [c])[1..] == [];
    } else {
      assert (s + [c])[0] == s[0] && (s + [c])[1..] == s[1..] + [c];
      CollapseFromSnoc(CollapseStep(p, s[0]), s[1..], c);
    }
  }

  lemma {:induction false} CollapseIsFromEmpty(s: string)
    ensures CollapseRuns(s) == CollapseFrom([], s)
    decreases |s|
  {
    if |s| > 0 {
      var init := s[..|s| - 1];
      CollapseIsFromEmpty(init);
      CollapseFromSnoc([], init, s[|s| - 1]);
      assert init + [s[|s| - 1]] == s;
    }
  }

  /** After a '-', a run of other runes adds nothing. */
  lemma {:induction false} DashAbsorbsRun(q: string, t: string)
    requires |q| > 0 && q[|q| - 1] == '-'
    ensures CollapseFrom(q, t) == CollapseFrom(q, SkipRun(t))
    decreases |t|
  {
    if |t| > 0 && !IsAsciiAlnum(t[0]) {
      assert CollapseStep(q, t[0]) == q;
      DashAbsorbsRun(q, t[1..]);
    }
  }

  lemma CollapseFromOther(p: string, s: string)
    requires |s| > 0 && !IsAsciiAlnum(s[0]) && (p == [] || p[|p| - 1] != '-')
    ensures CollapseFrom(p, s) == CollapseFrom(p + ['-'], SkipRun(s[1..]))
    ensures ReplaceRuns(s) == ['-'] + ReplaceRuns(SkipRun(s[1..]))
  {
    assert CollapseStep(p, s[0]) == p + ['-'];
    DashAbsorbsRun(p + ['-'], s[1..]);
  }

  lemma CollapseFromAlnum(p: string, s: string)
    requires |s| > 0 && IsAsciiAlnum(s[0])
    ensures CollapseFrom(p, s) == CollapseFrom(p + [s[0]], s[1..])
    ensures ReplaceRuns(s) == [s[0]] + ReplaceRuns(s[1..])
  {
  }

  lemma AppendOne(p: string, c: char, r: string)
    ensures (p + [c]) + r == p + ([c] + r)
  {
  }

  lemma {:induction false} CollapseFromIsReplace(p: string, s: string)
    requires p == [] || p[|p| - 1] != '-' || s == [] || IsAsciiAlnum(s[0])
    ensures CollapseFrom(p, s) == p + ReplaceRuns(s)
    decreases |s|
  {
    if |s| == 0 {
      assert p + [] == p;
    } else if IsAsciiAlnum(s[0]) {
      CollapseFromAlnum(p, s);
      CollapseFromIsReplace(p + [s[0]], s[1..]);
      AppendOne(p, s[0], ReplaceRuns(s[1..]));
    } else {
      var t := SkipRun(s[1..]);
      CollapseFromOther(p, s);
      CollapseFromIsReplace(p + ['-'], t);
      AppendOne(p, '-', ReplaceRuns(t));
    }
  }

  /** The collapse writes every maximal run of runes other than ASCII letters and digits as one '-'. */
  lemma CollapseReplacesEachRun(s: string)
    ensures CollapseRuns(s) == ReplaceRuns(s)
  {
    CollapseIsFromEmpty(s);
    CollapseFromIsReplace([], s);
    assert [] + ReplaceRuns(s) == ReplaceRuns(s);
  }

  /** Collapsing keeps every ASCII letter and digit, in order. */
  lemma {:induction false} CollapseKeepsAlnums(s: string)
    ensures Alnums(CollapseRuns(s)) == Alnums(s)
  {
    if |s| > 0 {
      var init, c := s[..|s| - 1], s[|s| - 1];
      var p := CollapseRuns(init);
      CollapseKeepsAlnums(init);
      if IsAsciiAlnum(c) {
        assert CollapseRuns(s) == p + [c];
        assert Alnums(s) == Alnums(init) + [c];
        AlnumsAppend(p, [c]);
        assert Alnums([c]) == [c];
      } else {
        assert Alnums(s) == Alnums(init);
        if !(|p| > 0 && p[|p| - 1] == '-') {
          assert CollapseRuns(s) == p + ['-'];
          AlnumsAppend(p, ['-']);
          assert Alnums(['-']) == [];
        }
      }
    }
  }

  /** A text of letters, digits and single '-' is its own collapse. */
  lemma {:induction false} CollapseFixpoint(s: string)
    requires SafeChars(s) && NoDoubleDash(s)
    ensures CollapseRuns(s) == s
  {
    if |s| > 0 {
      var init := s[..|s| - 1];
      assert SafeChars(init) && NoDoubleDash(init);
      CollapseFixpoint(init);
      assert init + [s[|s| - 1]] == s;
    }
  }

  /** A slice of a safe text without "--" is again safe and without "--". */
  lemma {:induction false} SliceKeepsShape(x: string, i: nat, j: nat)
    requires i <= j <= |x|
    requires SafeChars(x) && NoDoubleDash(x)
    ensures SafeChars(x[i..j]) && NoDoubleDash(x[i..j])
  {
    var t := x[i..j];
    assert forall k :: 0 <= k < |t| ==> t[k] == x[i + k];
  }

  /** `strings.Trim(x, "-")` is `x` with '-' runs removed at both ends: d1 + trimmed + d2. */
  lemma {:induction false} TrimmedSlice(x: string) returns (n: nat)
    ensures n + |TrimRune(x, '-')| <= |x|
    ensures TrimRune(x, '-') == x[n..n + |TrimRune(x, '-')|]
    ensures forall k :: 0 <= k < n ==> x[k] == '-'
    ensures forall k :: n + |TrimRune(x, '-')| <= k < |x| ==> x[k] == '-'
  {
    var l := TrimLeftRune(x, '-');
    var t := TrimRightRune(l, '-');
    assert TrimRune(x, '-') == t;
    n := |x| - |l|;
    assert forall k :: |t| <= k < |l| ==> l[k] == x[n + k];
  }

  /** Runs of '-' around a slice add no letters or digits. */
  lemma {:induction false} AlnumsOfPadded(x: string, n: nat, m: nat)
    requires n <= m <= |x|
    requires forall k :: 0 <= k < n ==> x[k] == '-'
    requires forall k :: m <= k < |x| ==> x[k] == '-'
    ensures Alnums(x) == Alnums(x[n..m])
  {
    var d1, t, d2 := x[..n], x[n..m], x[m..];
    assert x == d1 + t + d2;
    assert forall k :: 0 <= k < |d2| ==> d2[k] == x[m + k];
    AlnumsAppend(d1 + t, d2);
    AlnumsAppend(d1, t);
    AlnumsOfDashes(d1);
    AlnumsOfDashes(d2);
  }

  /** Trimming the '-' runes at both ends keeps the letters and digits. */
  lemma {:induction false} TrimKeepsAlnums(x: string)
    ensures Alnums(TrimRune(x, '-')) == Alnums(x)
  {
    var n := TrimmedSlice(x);
    AlnumsOfPadded(x, n, n + |TrimRune(x, '-')|);
  }

  /** Trimming the '-' runes at both ends keeps a safe text without "--" so. */
  lemma {:induction false} TrimDashes(x: string)
    requires SafeChars(x) && NoDoubleDash(x)
    ensures SafeChars(TrimRune(x, '-')) && NoDoubleDash(TrimRune(x, '-'))
    ensures x == [] || (x[0] != '-' && x[|x| - 1] != '-') ==> TrimRune(x, '-') == x
  {
    var n := TrimmedSlice(x);
    SliceKeepsShape(x, n, n + |TrimRune(x, '-')|);
  }

  /** `sanitizeFilename` of main_test.go: collapse, trim '-', cut to 100 and drop one trailing '-'. */
  function SafeFileName(s: string): (r: string)
    ensures CleanName(r)
    ensures |r| <= |s|
  {
    var collapsed := CollapseRuns(s);
    TrimDashes(collapsed);
    var t := TrimRune(collapsed, '-');
    if |t| > 100 then
      var u := t[..100];
      if u[99] == '-' then
        assert u[98] != '-';
        u[..99]
      else u
    else t
  }

  /** A clean name is left as it is. */
  lemma SafeFileNameFixpoint(s: string)
    requires CleanName(s)
    ensures SafeFileName(s) == s
  {
    CollapseFixpoint(s);
    TrimDashes(s);
  }

  /** Sanitising twice is sanitising once. */
  lemma SafeFileNameIdempotent(s: string)
    ensures SafeFileName(SafeFileName(s)) == SafeFileName(s)
  {
    SafeFileNameFixpoint(SafeFileName(s));
  }

  /** Short names keep every ASCII letter and digit, in order. */
  lemma SafeFileNameKeepsAlnums(s: string)
    requires |s| <= 100
    ensures Alnums(SafeFileName(s)) == Alnums(s)
  {
    CollapseKeepsAlnums(s);
    TrimKeepsAlnums(CollapseRuns(s));
  }

  // ---------------------------------------------------------------------------
  // Tallies

  /**
   * The closure of `runInstanceTest` as written. `RunServiceTests` ends a failed or skipped
   * subtest through `t.Fatalf`, `t.FailNow` or `t.SkipNow`, each of which stops the
   * subtest's goroutine, so the flag check after it is reached only by a subtest that
   * neither failed nor was skipped; the value returned keeps its initial "passed".
   */
  function RunInstanceTest(a: Attempt): (r: Outcome)
    ensures r == Passed
  {
    var flags := SubtestOf(a);
    if flags.failed || flags.skipped then Passed   // the closure stopped before the check
    else InstanceOutcome(flags)
  }

  /** A failing instance is still reported as passed by the route as written. */
  lemma FailedInstanceReportedPassed(a: Attempt)
    requires SubtestOf(a).failed
    ensures RunInstanceTest(a) == Passed
    ensures InstanceOutcome(SubtestOf(a)) == Failed
    ensures OutcomeOf(a) == Failed
  {
  }

  /** The outcome the flag check in `runInstanceTest` is meant to give: failed wins over skipped. */
  function InstanceOutcome(f: SubtestFlags): (r: Outcome)
    ensures r == Failed <==> f.failed
    ensures r == Skipped <==> !f.failed && f.skipped
  {
    if f.failed then Failed else if f.skipped then Skipped else Passed
  }

  /** The intended subtest route gives the same outcome as the runners' own status mapping. */
  lemma SubtestOutcomeAgrees(a: Attempt)
    ensures InstanceOutcome(SubtestOf(a)) == OutcomeOf(a)
  {
  }

  /** The outcomes `runInstanceTest` returns for a service's instances, in order. */
  function InstanceOutcomes(instances: seq<Attempt>): (r: seq<Outcome>)
    ensures |r| == |instances|
    ensures forall i :: 0 <= i < |r| ==> r[i] == Passed
  {
    seq(|instances|, i requires 0 <= i < |instances| => RunInstanceTest(instances[i]))
  }

  /** The tally as written: every instance is counted, and counted as passed. */
  lemma {:induction false} InstanceTallyAllPassed(instances: seq<Attempt>)
    ensures Count(InstanceOutcomes(instances)) == TestStats(|instances|, |instances|, 0, 0)
  {
    var outcomes := InstanceOutcomes(instances);
    CountTotals(outcomes);
    assert Failed !in outcomes;
    assert Skipped !in outcomes;
  }

  /** The outcomes the instances were meant to be tallied by, in order. */
  function IntendedOutcomes(instances: seq<Attempt>): (r: seq<Outcome>)
    ensures |r| == |instances|
    ensures forall i :: 0 <= i < |r| ==> r[i] == OutcomeOf(instances[i])
  {
    seq(|instances|, i requires 0 <= i < |instances| => InstanceOutcome(SubtestOf(instances[i])))
  }

  /** Some instance's subtest failed. */
  predicate SomeSubtestFailed(instances: seq<Attempt>)
  {
    exists i :: 0 <= i < |instances| && SubtestOf(instances[i]).failed
  }

  /**
   * The intended tally counts every instance once and has a failure exactly when some
   * instance's subtest failed (and a skip exactly when some instance was skipped).
   */
  lemma {:induction false} IntendedTallyCountsFailures(instances: seq<Attempt>)
    ensures Count(IntendedOutcomes(instances)).total == |instances|
    ensures Count(IntendedOutcomes(instances)).failed > 0 <==> SomeSubtestFailed(instances)
    ensures Count(IntendedOutcomes(instances)).skipped > 0
      <==> exists i :: 0 <= i < |instances| && SubtestOf(instances[i]).skipped
  {
    var outcomes := IntendedOutcomes(instances);
    CountTotals(outcomes);
    if SomeSubtestFailed(instances) {
      var i :| 0 <= i < |instances| && SubtestOf(instances[i]).failed;
      assert outcomes[i] == Failed;
    }
    if exists i :: 0 <= i < |instances| && SubtestOf(instances[i]).skipped {
      var i :| 0 <= i < |instances| && SubtestOf(instances[i]).skipped;
      assert outcomes[i] == Skipped;
    }
  }

  /**
   * `runServiceTestsGeneric`: nothing is counted when the instances cannot be listed;
   * otherwise every instance is counted once, as `runInstanceTest` reports it, and a
   * failed subtest marks the parent test failed.
   */
  method RunServiceTestsGeneric(discovered: Result<seq<Attempt>>) returns (stats: TestStats, parentFailed: bool)
    ensures discovered.Err? ==> stats == TestStats(0, 0, 0, 0) && !parentFailed
    ensures discovered.Ok? ==> stats == Count(InstanceOutcomes(discovered.value))
    ensures discovered.Ok? ==> stats == TestStats(|discovered.value|, |discovered.value|, 0, 0)
    ensures discovered.Ok? ==> (parentFailed <==> SomeSubtestFailed(discovered.value))
  {
    stats := TestStats(0, 0, 0, 0);
    parentFailed := false;
    if discovered.Err? {
      return;
    }
    var instances := discovered.value;
    for i := 0 to |instances|
      invariant stats == Count(InstanceOutcomes(instances[..i]))
      invariant parentFailed <==> SomeSubtestFailed(instances[..i])
    {
      assert InstanceOutcomes(instances[..i + 1])[..i] == InstanceOutcomes(instances[..i]);
      SomeSubtestFailedStep(instances, i);
      if SubtestOf(instances[i]).failed {
        parentFailed := true;
      }
      var result := RunInstanceTest(instances[i]);
      stats := Record(stats, result);   // `totalTests++` and the switch on the result
    }
    assert instances[..|instances|] == instances;
    InstanceTallyAllPassed(instances);
  }

  lemma SomeSubtestFailedStep(instances: seq<Attempt>, i: nat)
    requires i < |instances|
    ensures SomeSubtestFailed(instances[..i + 1]) <==> SomeSubtestFailed(instances[..i]) || SubtestOf(instances[i]).failed
  {
    var prefix := instances[..i + 1];
    assert prefix[i] == instances[i];
    if SomeSubtestFailed(instances[..i]) {
      var j :| 0 <= j < i && SubtestOf(instances[..i][j]).failed;
      assert prefix[j] == instances[..i][j];
    }
    if SomeSubtestFailed(prefix) && !SubtestOf(instances[i]).failed {
      var j :| 0 <= j < |prefix| && SubtestOf(prefix[j]).failed;
      assert instances[..i][j] == prefix[j];
    }
  }

  /** What `GetServiceAPIForType` and the `generic.Service` assertion give for a service type. */
  datatype ServiceAnswer =
    | Unavailable(message: string)                // the factory has no API for the type
    | NotGeneric                                  // the API does not list instances
    | Generic(instances: Result<seq<Attempt>>)    // the instances, or the listing error

  /** The service types the test covers: the `-service-type` flag, or object storage. */
  function ServiceTypesToTest(serviceTypeFlag: string): (r: seq<string>)
    ensures |r| == 1
    ensures serviceTypeFlag != "" ==> r == [serviceTypeFlag]
    ensures serviceTypeFlag == "" ==> r == ["object-storage"]
  {
    if serviceTypeFlag != "" then [serviceTypeFlag] else ["object-storage"]
  }

  /** What one service type adds to the totals. */
  function ServiceStats(answer: ServiceAnswer): TestStats
  {
    if answer.Generic? && answer.instances.Ok? then Count(InstanceOutcomes(answer.instances.value))
    else TestStats(0, 0, 0, 0)
  }

  function Add(a: TestStats, b: TestStats): TestStats
  {
    TestStats(a.total + b.total, a.passed + b.passed, a.failed + b.failed, a.skipped + b.skipped)
  }

  /** The totals over a list of service types. */
  function Totals(serviceTypes: seq<string>, answers: string -> ServiceAnswer): TestStats
  {
    if |serviceTypes| == 0 then TestStats(0, 0, 0, 0)
    else Add(Totals(serviceTypes[..|serviceTypes| - 1], answers), ServiceStats(answers(serviceTypes[|serviceTypes| - 1])))
  }

  /** Every counted instance is counted as exactly one of passed, failed and skipped. */
  lemma {:induction false} TotalsBalanced(serviceTypes: seq<string>, answers: string -> ServiceAnswer)
    ensures Totals(serviceTypes, answers).total
      == Totals(serviceTypes, answers).passed + Totals(serviceTypes, answers).failed + Totals(serviceTypes, answers).skipped
  {
    if |serviceTypes| > 0 {
      TotalsBalanced(serviceTypes[..|serviceTypes| - 1], answers);
      var answer := answers(serviceTypes[|serviceTypes| - 1]);
      if answer.Generic? && answer.instances.Ok? {
        CountTotals(InstanceOutcomes(answer.instances.value));
      }
    }
  }

  /** As written, the totals never hold a failure or a skip: every counted instance is a pass. */
  lemma {:induction false} TotalsAllPassed(serviceTypes: seq<string>, answers: string -> ServiceAnswer)
    ensures Totals(serviceTypes, answers).failed == 0
    ensures Totals(serviceTypes, answers).skipped == 0
    ensures Totals(serviceTypes, answers).passed == Totals(serviceTypes, answers).total
  {
    if |serviceTypes| > 0 {
      TotalsAllPassed(serviceTypes[..|serviceTypes| - 1], answers);
      var answer := answers(serviceTypes[|serviceTypes| - 1]);
      if answer.Generic? && answer.instances.Ok? {
        InstanceTallyAllPassed(answer.instances.value);
      }
    }
  }

  /** Whether a service type's run leaves a failed subtest behind. */
  predicate ServiceFailed(answer: ServiceAnswer)
  {
    answer.Generic? && answer.instances.Ok? && SomeSubtestFailed(answer.instances.value)
  }

  /** Some listed service type has an instance whose subtest failed. */
  predicate FailedIn(serviceTypes: seq<string>, answers: string -> ServiceAnswer)
  {
    exists i :: 0 <= i < |serviceTypes| && ServiceFailed(answers(serviceTypes[i]))
  }

  lemma FailedInStep(serviceTypes: seq<string>, i: nat, answers: string -> ServiceAnswer)
    requires i < |serviceTypes|
    ensures FailedIn(serviceTypes[..i + 1], answers) <==> FailedIn(serviceTypes[..i], answers) || ServiceFailed(answers(serviceTypes[i]))
  {
    var prefix := serviceTypes[..i + 1];
    assert prefix[i] == serviceTypes[i];
    if FailedIn(serviceTypes[..i], answers) {
      var j :| 0 <= j < i && ServiceFailed(answers(serviceTypes[..i][j]));
      assert prefix[j] == serviceTypes[..i][j];
    }
    if FailedIn(prefix, answers) && !ServiceFailed(answers(serviceTypes[i])) {
      var j :| 0 <= j < |prefix| && ServiceFailed(answers(prefix[j]));
      assert serviceTypes[..i][j] == prefix[j];
    }
  }

  lemma TotalsStep(serviceTypes: seq<string>, i: nat, answers: string -> ServiceAnswer)
    requires i < |serviceTypes|
    ensures Totals(serviceTypes[..i + 1], answers) == Add(Totals(serviceTypes[..i], answers), ServiceStats(answers(serviceTypes[i])))
  {
    assert serviceTypes[..i + 1][..i] == serviceTypes[..i];
  }

  /** The body of `TestRunCompliance`'s loop for one service type. */
  method TestServiceType(answer: ServiceAnswer) returns (stats: TestStats, parentFailed: bool)
    ensures stats == ServiceStats(answer)
    ensures parentFailed <==> ServiceFailed(answer)
  {
    stats := TestStats(0, 0, 0, 0);
    parentFailed := false;
    if answer.Unavailable? || answer.NotGeneric? {
      return;
    }
    stats, parentFailed := RunServiceTestsGeneric(answer.instances);
  }

  /** The loop of `TestRunCompliance` over the service types, adding up each one's tally. */
  method RunServiceTypes(serviceTypes: seq<string>, answers: string -> ServiceAnswer)
    returns (totals: TestStats, parentFailed: bool)
    ensures totals == Totals(serviceTypes, answers)
    ensures parentFailed <==> FailedIn(serviceTypes, answers)
  {
    totals := TestStats(0, 0, 0, 0);
    parentFailed := false;
    for i := 0 to |serviceTypes|
      invariant totals == Totals(serviceTypes[..i], answers)
      invariant parentFailed <==> FailedIn(serviceTypes[..i], answers)
    {
      TotalsStep(serviceTypes, i, answers);
      FailedInStep(serviceTypes, i, answers);
      var stats, failed := TestServiceType(answers(serviceTypes[i]));
      totals := Add(totals, stats);
      parentFailed := parentFailed || failed;
    }
    assert serviceTypes[..|serviceTypes|] == serviceTypes;
  }

  /**
   * The end of `TestRunCompliance`: `t.Fail` when an instance was counted as failed or
   * none was counted, on top of what the subtests already marked.
   */
  method FinalCheck(totals: TestStats, parentFailed: bool) returns (failed: bool)
    ensures failed <==> parentFailed || totals.failed > 0 || totals.total == 0
  {
    failed := parentFailed;
    if totals.failed > 0 {
      failed := true;
    } else if totals.total == 0 {
      failed := true;
    }
  }

  /** How `TestRunCompliance` ends: `log.Fatal`, or the totals and whether the test failed. */
  datatype TestVerdict = Halted(message: string) | Completed(stats: TestStats, failed: bool)

  /**
   * `TestRunCompliance`: the provider is validated, the output directory and the factory
   * are prepared (any failure ends the run), then every service type's instances are run.
   * The totals count every instance as passed, so the `failedTests > 0` branch never
   * fires; the test fails exactly when a failed subtest marked it failed or no instance ran.
   */
  method RunCompliance(
    provider: string, serviceTypeFlag: string,
    outputError: Option<string>, factoryError: Option<string>,
    answers: string -> ServiceAnswer)
    returns (verdict: TestVerdict)
    ensures verdict.Completed? <==> KnownProvider(provider) && outputError.None? && factoryError.None?
    ensures verdict.Completed? ==> verdict.stats == Totals(ServiceTypesToTest(serviceTypeFlag), answers)
    ensures verdict.Completed? ==>
      (verdict.failed <==> FailedIn(ServiceTypesToTest(serviceTypeFlag), answers) || verdict.stats.total == 0)
    ensures verdict.Completed? ==> verdict.stats.failed == 0 && verdict.stats.skipped == 0
    ensures verdict.Completed? ==> verdict.stats.passed == verdict.stats.total
  {
    if provider == "" {
      return Halted("Error: -provider flag is required (aws, azure, or gcp)");
    }
    if !KnownProvider(provider) {
      return Halted("Error: invalid provider '" + provider + "' (must be aws, azure, or gcp)");
    }
    if outputError.Some? {
      return Halted("Failed to create output directory: " + outputError.value);
    }
    if factoryError.Some? {
      return Halted("Failed to create factory: " + factoryError.value);
    }
    var serviceTypes := ServiceTypesToTest(serviceTypeFlag);
    var totals, parentFailed := RunServiceTypes(serviceTypes, answers);
    TotalsAllPassed(serviceTypes, answers);
    var failed := FinalCheck(totals, parentFailed);
    return Completed(totals, failed);
  }
}

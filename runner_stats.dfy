/**
 * What the two service runners (testing/runner/BasicServiceRunner.go and
 * testing/services/AbstractServiceRunner.go) share, written once: the outcome of one
 * resource's suite, the pass/fail/skip tally over the discovered resources, the exit-code
 * rule and the rune-by-rune report file-name sanitiser.
 */
module RunnerStats {
  import opened Text

  /** The three results `runResourceTest` reports. */
  datatype Outcome = Passed | Failed | Skipped

  /** What happened when one resource's suite was started. */
  datatype Attempt =
    | OutputDirError(message: string)   // os.MkdirAll on the report directory failed
    | SuiteStatus(status: int)          // the exit status of the godog suite

  /** A discovered resource, paired with what running its suite gives (an input of the model). */
  datatype Trial = Trial(resourceName: string, attempt: Attempt)

  /** `TestStats`. */
  datatype TestStats = TestStats(total: nat, passed: nat, failed: nat, skipped: nat)

  /** How a runner ends: `log.Fatal` (the process exits with status 1) or `return code`. */
  datatype RunEnd = Fatal(message: string) | Exit(code: int)

  /** The status mapping of `runResourceTest`. */
  function OutcomeOf(a: Attempt): (r: Outcome)
    ensures r == Passed <==> a.SuiteStatus? && a.status == 0
    ensures r == Skipped <==> a.SuiteStatus? && a.status == 2
    ensures a.OutputDirError? ==> r == Failed
  {
    match a
    case OutputDirError(_) => Failed
    case SuiteStatus(status) =>
      if status == 0 then Passed else if status == 2 then Skipped else Failed
  }

  /** `runTests`'s filter: an empty filter lets every resource through. */
  predicate Selected(filter: string, t: Trial)
  {
    filter == "" || t.resourceName == filter
  }

  /** The outcomes of the resources the filter lets through, in discovery order. */
  function Outcomes(filter: string, trials: seq<Trial>): (r: seq<Outcome>)
    ensures |r| <= |trials|
  {
    if |trials| == 0 then []
    else
      var rest := Outcomes(filter, trials[..|trials| - 1]);
      var t := trials[|trials| - 1];
      if Selected(filter, t) then rest + [OutcomeOf(t.attempt)] else rest
  }

  /** One pass of the loop body: `Total++` and the counter of the outcome. */
  function Record(stats: TestStats, o: Outcome): TestStats
  {
    var s := stats.(total := stats.total + 1);
    match o
    case Passed => s.(passed := s.passed + 1)
    case Failed => s.(failed := s.failed + 1)
    case Skipped => s.(skipped := s.skipped + 1)
  }

  /** The statistics a sequence of outcomes adds up to. */
  function Count(outcomes: seq<Outcome>): TestStats
  {
    if |outcomes| == 0 then TestStats(0, 0, 0, 0)
    else Record(Count(outcomes[..|outcomes| - 1]), outcomes[|outcomes| - 1])
  }

  /** Every counted outcome is exactly one of passed, failed and skipped. */
  lemma {:induction false} CountTotals(outcomes: seq<Outcome>)
    ensures Count(outcomes).total == |outcomes|
    ensures Count(outcomes).total == Count(outcomes).passed + Count(outcomes).failed + Count(outcomes).skipped
    ensures Count(outcomes).failed == 0 <==> Failed !in outcomes
    ensures Count(outcomes).passed == 0 <==> Passed !in outcomes
    ensures Count(outcomes).skipped == 0 <==> Skipped !in outcomes
  {
    if |outcomes| > 0 {
      var init := outcomes[..|outcomes| - 1];
      CountTotals(init);
      assert outcomes == init + [outcomes[|outcomes| - 1]];
    }
  }

  /** `runTests`: the tally over the resources the filter selects. */
  method RunTests(filter: string, trials: seq<Trial>) returns (stats: TestStats)
    ensures stats == Count(Outcomes(filter, trials))
  {
    stats := TestStats(0, 0, 0, 0);
    var i := 0;
    while i < |trials|
      invariant 0 <= i <= |trials|
      invariant stats == Count(Outcomes(filter, trials[..i]))
    {
      var t := trials[i];
      assert trials[..i + 1][..i] == trials[..i];
      if filter != "" && t.resourceName != filter {
        assert Outcomes(filter, trials[..i + 1]) == Outcomes(filter, trials[..i]);
        i := i + 1;
        continue;
      }
      var result := OutcomeOf(t.attempt);
      assert Count(Outcomes(filter, trials[..i + 1])) == Record(stats, result);
      stats := stats.(total := stats.total + 1);
      match result {
        case Passed => stats := stats.(passed := stats.passed + 1);
        case Failed => stats := stats.(failed := stats.failed + 1);
        case Skipped => stats := stats.(skipped := stats.skipped + 1);
      }
      i := i + 1;
    }
    assert trials[..|trials|] == trials;
  }

  /** The exit code of `Run`: 1 when a test failed or none ran, 0 otherwise. */
  function ExitCode(stats: TestStats): (code: int)
    ensures code == 0 || code == 1
    ensures code == 1 <==> stats.failed > 0 || stats.total == 0
  {
    if stats.failed > 0 then 1 else if stats.total == 0 then 1 else 0
  }

  /** A run succeeds exactly when at least one resource ran and none of them failed. */
  lemma ExitCodeOfOutcomes(outcomes: seq<Outcome>)
    ensures ExitCode(Count(outcomes)) == 0 <==> |outcomes| > 0 && Failed !in outcomes
  {
    CountTotals(outcomes);
  }

  /** Some resource produced an outcome exactly when some resource passed the filter. */
  lemma {:induction false} SelectedOutcomes(filter: string, trials: seq<Trial>)
    ensures |Outcomes(filter, trials)| > 0 <==> exists t :: t in trials && Selected(filter, t)
  {
    if |trials| > 0 {
      var init := trials[..|trials| - 1];
      SelectedOutcomes(filter, init);
      assert trials == init + [trials[|trials| - 1]];
    }
  }

  /** With no filter every resource is run, in order. */
  lemma {:induction false} UnfilteredOutcomes(trials: seq<Trial>)
    ensures Outcomes("", trials) == seq(|trials|, i requires 0 <= i < |trials| => OutcomeOf(trials[i].attempt))
  {
    if |trials| > 0 {
      UnfilteredOutcomes(trials[..|trials| - 1]);
    }
  }

  /** A filter that names no discovered resource runs nothing, so the run fails. */
  lemma {:induction false} UnmatchedFilterFails(filter: string, trials: seq<Trial>)
    requires filter != ""
    requires forall i :: 0 <= i < |trials| ==> trials[i].resourceName != filter
    ensures Outcomes(filter, trials) == []
    ensures ExitCode(Count(Outcomes(filter, trials))) == 1
  {
    if |trials| > 0 {
      UnmatchedFilterFails(filter, trials[..|trials| - 1]);
    }
  }

  // ---------------------------------------------------------------------------
  // Report file names

  /** The rune `sanitizeFilename` emits for `c`. */
  function SafeRune(c: char): char
  {
    if IsAsciiAlnum(c) then c else '-'
  }

  /** `sanitizeFilename`: every rune that is not an ASCII letter or digit becomes '-'. */
  function SafeName(s: string): (r: string)
    ensures |r| == |s|
    ensures forall i :: 0 <= i < |r| ==> IsAsciiAlnum(r[i]) || r[i] == '-'
    ensures forall i :: 0 <= i < |s| && IsAsciiAlnum(s[i]) ==> r[i] == s[i]
    ensures forall i :: 0 <= i < |s| && !IsAsciiAlnum(s[i]) ==> r[i] == '-'
  {
    seq(|s|, i requires 0 <= i < |s| => SafeRune(s[i]))
  }

  /** Sanitising a sanitised name changes nothing. */
  lemma SafeNameIdempotent(s: string)
    ensures SafeName(SafeName(s)) == SafeName(s)
  {
  }

  /** The rune loop of `sanitizeFilename`. */
  method SanitizeFilename(s: string) returns (result: string)
    ensures result == SafeName(s)
  {
    result := "";
    for i := 0 to |s|
      invariant |result| == i
      invariant forall k :: 0 <= k < i ==> result[k] == SafeRune(s[k])
    {
      var c := s[i];
      if ('a' <= c <= 'z') || ('A' <= c <= 'Z') || ('0' <= c <= '9') {
        result := result + [c];
      } else {
        result := result + "-";
      }
    }
  }
}

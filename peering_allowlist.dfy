/**
 * Where the CN03 peering guardrail finds its list of allowed requester VPC IDs, and how
 * comma-separated ID lists are normalised (testing/api/vpc/aws-vpc.go).
 *
 * The process environment is a map (a missing variable reads as ""), the file system a map
 * from absolute paths to file contents.
 */
module PeeringAllowList {
  import opened Wrappers
  import opened Text
  import opened Json

  type Env = map<string, string>

  /** `os.Getenv`. */
  function Getenv(env: Env, key: string): string
  {
    if key in env then env[key] else ""
  }

  /** The first of `keys` whose trimmed value is non-empty, trimmed; "" when there is none. */
  function FirstSetEnv(env: Env, keys: seq<string>): (r: string)
    ensures TrimSpace(r) == r
    ensures r == "" <==> forall k :: 0 <= k < |keys| ==> TrimSpace(Getenv(env, keys[k])) == ""
    ensures r != "" ==> exists k :: 0 <= k < |keys| && r == TrimSpace(Getenv(env, keys[k])) &&
                          forall j :: 0 <= j < k ==> TrimSpace(Getenv(env, keys[j])) == ""
  {
    if |keys| == 0 then ""
    else
      var t := TrimSpace(Getenv(env, keys[0]));
      TrimSpaceIdempotent(Getenv(env, keys[0]));
      if t != "" then t
      else
        var r := FirstSetEnv(env, keys[1..]);
        FirstSetAfterHead(env, keys, r);
        r
  }

  /** The first set variable after an unset head is the first set variable of the whole list. */
  lemma FirstSetAfterHead(env: Env, keys: seq<string>, r: string)
    requires |keys| > 0 && TrimSpace(Getenv(env, keys[0])) == ""
    requires r == "" <==> forall k :: 0 <= k < |keys[1..]| ==> TrimSpace(Getenv(env, keys[1..][k])) == ""
    requires r != "" ==> exists k :: 0 <= k < |keys[1..]| && r == TrimSpace(Getenv(env, keys[1..][k])) &&
                                     forall j :: 0 <= j < k ==> TrimSpace(Getenv(env, keys[1..][j])) == ""
    ensures r == "" <==> forall k :: 0 <= k < |keys| ==> TrimSpace(Getenv(env, keys[k])) == ""
    ensures r != "" ==> exists k :: 0 <= k < |keys| && r == TrimSpace(Getenv(env, keys[k])) &&
                                    forall j :: 0 <= j < k ==> TrimSpace(Getenv(env, keys[j])) == ""
  {
    var rest := keys[1..];
    if r == "" {
      forall k | 0 <= k < |keys|
        ensures TrimSpace(Getenv(env, keys[k])) == ""
      {
        if k > 0 {
          assert keys[k] == rest[k - 1];
        }
      }
    } else {
      var k :| 0 <= k < |rest| && r == TrimSpace(Getenv(env, rest[k])) &&
               forall j :: 0 <= j < k ==> TrimSpace(Getenv(env, rest[j])) == "";
      assert keys[k + 1] == rest[k];
      forall j | 0 <= j < k + 1
        ensures TrimSpace(Getenv(env, keys[j])) == ""
      {
        if j > 0 {
          assert keys[j] == rest[j - 1];
        }
      }
    }
  }

  // ---------------------------------------------------------------------------
  // normalizeStringList

  /** A normalised ID: non-empty, already trimmed, free of commas. */
  predicate CleanId(x: string)
  {
    x != "" && TrimSpace(x) == x && ',' !in x
  }

  predicate Distinct(xs: seq<string>)
  {
    forall i, j :: 0 <= i < j < |xs| ==> xs[i] != xs[j]
  }

  /** What every list `normalizeStringList` returns looks like: clean IDs, each once. */
  predicate IsIdList(xs: seq<string>)
  {
    Distinct(xs) && forall x :: x in xs ==> CleanId(x)
  }

  /** The trimmed, non-empty fields among `fields`, in order. */
  function CleanFields(fields: seq<string>): seq<string>
  {
    if |fields| == 0 then []
    else
      var t := TrimSpace(fields[|fields| - 1]);
      CleanFields(fields[..|fields| - 1]) + (if t == "" then [] else [t])
  }

  /** The trimmed, non-empty comma-separated fields of one value. */
  function ValueItems(v: string): seq<string>
  {
    CleanFields(SplitOn(v, ','))
  }

  /** The concatenation of a list of lists. */
  function Flatten(xss: seq<seq<string>>): seq<string>
  {
    if |xss| == 0 then []
    else Flatten(xss[..|xss| - 1]) + xss[|xss| - 1]
  }

  /** The items of each value, one list per value. */
  function ItemLists(values: seq<string>): (r: seq<seq<string>>)
    ensures |r| == |values|
  {
    seq(|values|, i requires 0 <= i < |values| => ValueItems(values[i]))
  }

  /** Every item `normalizeStringList` considers keeping: the items of each value, in order. */
  function Items(values: seq<string>): seq<string>
  {
    Flatten(ItemLists(values))
  }

  /** The first occurrence of each string, in order of first occurrence. */
  function FirstOccurrences(xs: seq<string>): seq<string>
  {
    if |xs| == 0 then []
    else
      var d := FirstOccurrences(xs[..|xs| - 1]);
      if xs[|xs| - 1] in d then d else d + [xs[|xs| - 1]]
  }

  /** The list `normalizeStringList(values)` returns. */
  function Normalized(values: seq<string>): seq<string>
  {
    FirstOccurrences(Items(values))
  }

  /** One field processed by the inner loop of `normalizeStringList`. */
  lemma NormalizeFieldStep(before: seq<string>, fields: seq<string>, j: nat)
    requires j < |fields|
    ensures var d := FirstOccurrences(before + CleanFields(fields[..j]));
            var t := TrimSpace(fields[j]);
            FirstOccurrences(before + CleanFields(fields[..j + 1])) == if t == "" || t in d then d else d + [t]
  {
    var t := TrimSpace(fields[j]);
    var xs := before + CleanFields(fields[..j]);
    assert fields[..j + 1][..j] == fields[..j];
    if t == "" {
      assert before + CleanFields(fields[..j + 1]) == xs;
    } else {
      assert before + CleanFields(fields[..j + 1]) == xs + [t];
      assert (xs + [t])[..|xs|] == xs;
    }
  }

  /** One value processed by the outer loop of `normalizeStringList`. */
  lemma NormalizeValueStep(values: seq<string>, i: nat)
    requires i < |values|
    ensures Items(values[..i + 1]) == Items(values[..i]) + ValueItems(values[i])
  {
    var xss := ItemLists(values[..i + 1]);
    assert xss[..i] == ItemLists(values[..i]);
    assert xss[i] == ValueItems(values[i]);
  }

  /**
   * Splits every value on commas, trims each field, drops empty fields and fields already
   * kept, and returns the rest in order.
   */
  method NormalizeStringList(values: seq<string>) returns (normalized: seq<string>)
    ensures normalized == Normalized(values)
  {
    normalized := [];
    var seen: set<string> := {};
    for i := 0 to |values|
      invariant normalized == FirstOccurrences(Items(values[..i]))
      invariant forall x :: x in seen <==> x in normalized
    {
      var fields := SplitOn(values[i], ',');
      ghost var before := Items(values[..i]);
      assert before + CleanFields(fields[..0]) == before;
      for j := 0 to |fields|
        invariant normalized == FirstOccurrences(before + CleanFields(fields[..j]))
        invariant forall x :: x in seen <==> x in normalized
      {
        var trimmed := TrimSpace(fields[j]);
        NormalizeFieldStep(before, fields, j);
        if trimmed != "" && trimmed !in seen {
          seen := seen + {trimmed};
          normalized := normalized + [trimmed];
        }
      }
      NormalizeValueStep(values, i);
      assert fields[..|fields|] == fields;
    }
    assert values[..|values|] == values;
  }

  lemma {:induction false} FirstOccurrencesMembers(xs: seq<string>)
    ensures forall x :: x in FirstOccurrences(xs) <==> x in xs
  {
    if |xs| > 0 {
      FirstOccurrencesMembers(xs[..|xs| - 1]);
      assert xs == xs[..|xs| - 1] + [xs[|xs| - 1]];
    }
  }

  lemma {:induction false} FirstOccurrencesDistinct(xs: seq<string>)
    ensures Distinct(FirstOccurrences(xs))
  {
    if |xs| > 0 {
      FirstOccurrencesDistinct(xs[..|xs| - 1]);
    }
  }

  /** Position of the first occurrence of `x` in `xs`. */
  function FirstIndex(xs: seq<string>, x: string): (k: nat)
    requires x in xs
    ensures k < |xs| && xs[k] == x && x !in xs[..k]
  {
    if xs[0] == x then 0 else 1 + FirstIndex(xs[1..], x)
  }

  lemma {:induction false} FirstIndexSnoc(xs: seq<string>, t: string, x: string)
    requires x in xs
    ensures FirstIndex(xs + [t], x) == FirstIndex(xs, x)
  {
    if xs[0] != x {
      assert (xs + [t])[1..] == xs[1..] + [t];
      FirstIndexSnoc(xs[1..], t, x);
    }
  }

  /** The kept items appear in the order of their first occurrence among the inputs. */
  lemma {:induction false} FirstOccurrencesOrder(xs: seq<string>)
    ensures forall x :: x in FirstOccurrences(xs) ==> x in xs
    ensures forall i, j :: 0 <= i < j < |FirstOccurrences(xs)| ==>
      FirstIndex(xs, FirstOccurrences(xs)[i]) < FirstIndex(xs, FirstOccurrences(xs)[j])
  {
    FirstOccurrencesMembers(xs);
    if |xs| > 0 {
      var init, t := xs[..|xs| - 1], xs[|xs| - 1];
      assert xs == init + [t];
      var d := FirstOccurrences(init);
      FirstOccurrencesOrder(init);
      FirstOccurrencesMembers(init);
      forall x | x in d
        ensures FirstIndex(xs, x) == FirstIndex(init, x) < |init|
      {
        FirstIndexSnoc(init, t, x);
      }
      if t !in d {
        assert t !in init;
        assert FirstIndex(xs, t) == |init|;
      }
    }
  }

  lemma {:induction false} FirstOccurrencesOfDistinct(xs: seq<string>)
    requires Distinct(xs)
    ensures FirstOccurrences(xs) == xs
  {
    if |xs| > 0 {
      var init := xs[..|xs| - 1];
      FirstOccurrencesOfDistinct(init);
      assert xs[|xs| - 1] !in init;
      assert xs == init + [xs[|xs| - 1]];
    }
  }

  lemma {:induction false} CleanFieldsMembers(fields: seq<string>, x: string)
    ensures x in CleanFields(fields) <==> x != "" && exists k :: 0 <= k < |fields| && TrimSpace(fields[k]) == x
  {
    if |fields| > 0 {
      var init, last := fields[..|fields| - 1], fields[|fields| - 1];
      CleanFieldsMembers(init, x);
      assert forall k :: 0 <= k < |init| ==> init[k] == fields[k];
    }
  }

  /** Fields free of commas give clean IDs. */
  lemma {:induction false} CleanFieldsAreClean(fields: seq<string>)
    requires forall f :: f in fields ==> ',' !in f
    ensures forall x :: x in CleanFields(fields) ==> CleanId(x)
  {
    if |fields| > 0 {
      var init, last := fields[..|fields| - 1], fields[|fields| - 1];
      CleanFieldsAreClean(init);
      TrimSpaceIsSlice(last);
      ContainedRunes(last, TrimSpace(last));
      TrimSpaceIdempotent(last);
    }
  }

  lemma CleanFieldsOfSplitAreClean(v: string)
    ensures forall x :: x in ValueItems(v) ==> CleanId(x)
  {
    SplitFieldsLackSeparator(v, ',');
    CleanFieldsAreClean(SplitOn(v, ','));
  }

  lemma {:induction false} FlattenIncludes(xss: seq<seq<string>>, k: nat, x: string)
    requires k < |xss| && x in xss[k]
    ensures x in Flatten(xss)
  {
    var init := xss[..|xss| - 1];
    if k < |init| {
      assert init[k] == xss[k];
      FlattenIncludes(init, k, x);
    }
  }

  lemma {:induction false} FlattenWitness(xss: seq<seq<string>>, x: string) returns (k: nat)
    requires x in Flatten(xss)
    ensures k < |xss| && x in xss[k]
  {
    var init := xss[..|xss| - 1];
    if x in Flatten(init) {
      k := FlattenWitness(init, x);
      assert init[k] == xss[k];
    } else {
      k := |xss| - 1;
    }
  }

  lemma {:induction false} FlattenSingletons(xss: seq<seq<string>>, xs: seq<string>)
    requires |xss| == |xs| && forall i :: 0 <= i < |xs| ==> xss[i] == [xs[i]]
    ensures Flatten(xss) == xs
  {
    if |xs| > 0 {
      var n := |xs| - 1;
      FlattenSingletons(xss[..n], xs[..n]);
      assert xs == xs[..n] + [xs[n]];
    }
  }

  lemma ItemsIncludeValueItems(values: seq<string>, k: nat, x: string)
    requires k < |values| && x in ValueItems(values[k])
    ensures x in Items(values)
  {
    FlattenIncludes(ItemLists(values), k, x);
  }

  lemma ItemsComeFromValueItems(values: seq<string>, x: string) returns (k: nat)
    requires x in Items(values)
    ensures k < |values| && x in ValueItems(values[k])
  {
    k := FlattenWitness(ItemLists(values), x);
  }

  lemma ItemsAreClean(values: seq<string>)
    ensures forall x :: x in Items(values) ==> CleanId(x)
  {
    forall x | x in Items(values)
      ensures CleanId(x)
    {
      var k := ItemsComeFromValueItems(values, x);
      CleanFieldsOfSplitAreClean(values[k]);
    }
  }

  lemma ValueItemsOfCleanId(v: string)
    requires CleanId(v)
    ensures ValueItems(v) == [v]
  {
    SplitWithoutSeparator(v, ',');
    assert [v][..0] == [];
    assert CleanFields([v]) == CleanFields([]) + [v];
  }

  lemma ItemsOfCleanIds(values: seq<string>)
    requires forall x :: x in values ==> CleanId(x)
    ensures Items(values) == values
  {
    var xss := ItemLists(values);
    forall i | 0 <= i < |values|
      ensures xss[i] == [values[i]]
    {
      assert values[i] in values;
      ValueItemsOfCleanId(values[i]);
    }
    FlattenSingletons(xss, values);
  }

  /**
   * What `normalizeStringList` promises: every kept ID is clean and kept once, the kept IDs
   * are exactly the items of the input, and they appear in order of first occurrence.
   */
  lemma NormalizedSpec(values: seq<string>)
    ensures IsIdList(Normalized(values))
    ensures forall x :: x in Normalized(values) <==> x in Items(values)
    ensures forall i, j :: 0 <= i < j < |Normalized(values)| ==>
      FirstIndex(Items(values), Normalized(values)[i]) < FirstIndex(Items(values), Normalized(values)[j])
  {
    NormalizedIsIdList(values);
    FirstOccurrencesMembers(Items(values));
    FirstOccurrencesOrder(Items(values));
  }

  lemma NormalizedIsIdList(values: seq<string>)
    ensures IsIdList(Normalized(values))
  {
    ItemsAreClean(values);
    FirstOccurrencesMembers(Items(values));
    FirstOccurrencesDistinct(Items(values));
  }

  /** An ID is kept exactly when it is a trimmed, non-empty comma-separated field of some input. */
  lemma NormalizedMember(values: seq<string>, x: string)
    ensures x in Normalized(values) <==> exists k :: 0 <= k < |values| && x in ValueItems(values[k])
  {
    FirstOccurrencesMembers(Items(values));
    if x in Items(values) {
      var k := ItemsComeFromValueItems(values, x);
    }
    forall k | 0 <= k < |values| && x in ValueItems(values[k])
      ensures x in Items(values)
    {
      ItemsIncludeValueItems(values, k, x);
    }
  }

  /** Normalising an already normalised list changes nothing. */
  lemma NormalizedIdempotent(values: seq<string>)
    ensures Normalized(Normalized(values)) == Normalized(values)
  {
    var r := Normalized(values);
    NormalizedIsIdList(values);
    ItemsOfCleanIds(r);
    FirstOccurrencesOfDistinct(r);
  }

  // ---------------------------------------------------------------------------
  // cn03IndexedEnvValues

  /** The highest index `cn03IndexedEnvValues` reads. */
  const MaxIndexedKey: nat := 99

  /** The trimmed, non-empty values of `prefix1` .. `prefixN`, in index order. */
  function IndexedRaw(env: Env, prefix: string, n: nat): seq<string>
  {
    if n == 0 then []
    else
      var v := TrimSpace(Getenv(env, prefix + NatToString(n)));
      IndexedRaw(env, prefix, n - 1) + (if v == "" then [] else [v])
  }

  /** The list `cn03IndexedEnvValues(prefix)` returns. */
  function IndexedValues(env: Env, prefix: string): (r: seq<string>)
    ensures IsIdList(r)
  {
    NormalizedIsIdList(IndexedRaw(env, prefix, MaxIndexedKey));
    Normalized(IndexedRaw(env, prefix, MaxIndexedKey))
  }

  method IndexedEnvValues(env: Env, prefix: string) returns (ids: seq<string>)
    ensures ids == IndexedValues(env, prefix)
  {
    var values: seq<string> := [];
    for i := 1 to MaxIndexedKey + 1
      invariant values == IndexedRaw(env, prefix, i - 1)
    {
      var raw := TrimSpace(Getenv(env, prefix + NatToString(i)));
      if raw != "" {
        values := values + [raw];
      }
    }
    ids := NormalizeStringList(values);
  }

  lemma {:induction false} NatToStringLength(n: nat)
    ensures n < 10 ==> |NatToString(n)| == 1
    ensures 10 <= n < 100 ==> |NatToString(n)| == 2
    ensures n >= 100 ==> |NatToString(n)| >= 3
  {
    if n >= 10 {
      NatToStringLength(n / 10);
    }
  }

  lemma {:induction false} IndexedRawIgnores(env: Env, prefix: string, n: nat, key: string, v: string)
    requires forall i :: 1 <= i <= n ==> key != prefix + NatToString(i)
    ensures IndexedRaw(env[key := v], prefix, n) == IndexedRaw(env, prefix, n)
  {
    if n > 0 {
      IndexedRawIgnores(env, prefix, n - 1, key, v);
      var k := prefix + NatToString(n);
      assert key != k;
      assert Getenv(env[key := v], k) == Getenv(env, k);
    }
  }

  /** Only the suffixes 1..99 are read: setting `<prefix>100` or beyond changes nothing. */
  lemma IndexedValuesStopAt99(env: Env, prefix: string, k: nat, v: string)
    requires k > MaxIndexedKey
    ensures IndexedValues(env[prefix + NatToString(k) := v], prefix) == IndexedValues(env, prefix)
  {
    forall i | 1 <= i <= MaxIndexedKey
      ensures prefix + NatToString(k) != prefix + NatToString(i)
    {
      NatToStringLength(k);
      NatToStringLength(i);
    }
    IndexedRawIgnores(env, prefix, MaxIndexedKey, prefix + NatToString(k), v);
  }

  // ---------------------------------------------------------------------------
  // Values read from the trial-matrix JSON

  /** `cn03String`: the trimmed `%v` text of a value, with nil and "<nil>" read as "". */
  function JsonText(v: Value): (r: string)
    ensures r != "<nil>" && TrimSpace(r) == r
    ensures v.JString? && TrimSpace(v.s) != "<nil>" ==> r == TrimSpace(v.s)
  {
    if v.JNull? then ""
    else
      var out := TrimSpace(Render(v));
      TrimSpaceIdempotent(Render(v));
      if out == "<nil>" then "" else out
  }

  /** `cn03StringSlice`: an ID list read from a value of any JSON type, normalised. */
  function JsonIdList(v: Value): (r: seq<string>)
    ensures IsIdList(r)
    ensures v.JNull? ==> r == []
    ensures v.JString? ==> r == Normalized([v.s])
    ensures v.JArray? ==> r == Normalized(seq(|v.items|, i requires 0 <= i < |v.items| => JsonText(v.items[i])))
    ensures v.JBool? || v.JNumber? || v.JObject? ==> r == Normalized([Render(v)])
  {
    var raw := match v
      case JNull => []
      case JString(s) => [s]
      case JArray(items) => seq(|items|, i requires 0 <= i < |items| => JsonText(items[i]))
      case _ => [Render(v)];
    NormalizedIsIdList(raw);
    Normalized(raw)
  }

  /** `firstNonEmptyString`: the first value that trims to something other than "" and "<nil>". */
  function FirstNonEmpty(values: seq<string>): (r: string)
    ensures r != "<nil>" && TrimSpace(r) == r
    ensures r == "" <==> forall k :: 0 <= k < |values| ==> TrimSpace(values[k]) in {"", "<nil>"}
    ensures r != "" ==> exists k :: 0 <= k < |values| && r == TrimSpace(values[k]) &&
                          forall j :: 0 <= j < k ==> TrimSpace(values[j]) in {"", "<nil>"}
  {
    if |values| == 0 then ""
    else
      var t := TrimSpace(values[0]);
      TrimSpaceIdempotent(values[0]);
      if t != "" && t != "<nil>" then t
      else
        var r := FirstNonEmpty(values[1..]);
        assert forall k :: 1 <= k < |values| ==> values[1..][k - 1] == values[k];
        r
  }

  /** Blank leading values do not matter, and nothing after the first non-blank one does. */
  lemma {:induction false} FirstNonEmptyAppend(a: seq<string>, b: seq<string>)
    ensures FirstNonEmpty(a + b) == if FirstNonEmpty(a) != "" then FirstNonEmpty(a) else FirstNonEmpty(b)
  {
    if |a| == 0 {
      assert a + b == b;
    } else {
      assert (a + b)[1..] == a[1..] + b;
      FirstNonEmptyAppend(a[1..], b);
    }
  }

  /** `cn03PeerOwnerID`. */
  function PeerOwnerFromEnv(env: Env): string
  {
    FirstSetEnv(env, ["CN03_PEER_OWNER_ID", "PEER_OWNER_ID"])
  }

  // ---------------------------------------------------------------------------
  // loadCN03TrialMatrix

  datatype FileContent = JsonDocument(doc: Value) | Malformed

  /** Files are keyed by absolute path; `cwd` resolves relative paths. */
  datatype FileSystem = FileSystem(cwd: string, files: map<string, FileContent>)

  /** `filepath.Abs` without path cleaning. */
  function AbsPath(fs: FileSystem, path: string): string
  {
    if HasPrefix(path, "/") then path else fs.cwd + "/" + path
  }

  datatype TrialMatrix = TrialMatrix(
    receiverVpcId: string,
    peerOwnerId: string,
    allowedRequesters: seq<string>,
    disallowedRequesters: seq<string>)

  /** A loaded matrix together with the path it was read from. */
  datatype LoadedMatrix = LoadedMatrix(matrix: TrialMatrix, path: string)

  /** The members of the top-level object; `null` decodes into an empty map without error. */
  function TopLevelMembers(doc: Value): Option<seq<(string, Value)>>
  {
    match doc
    case JObject(ms) => Some(ms)
    case JNull => Some([])
    case _ => None
  }

  /** The path `loadCN03TrialMatrix` reads before making it absolute. */
  function MatrixPath(filePath: string, env: Env): string
  {
    var p := TrimSpace(filePath);
    if p != "" then p else TrimSpace(Getenv(env, "CN03_PEER_TRIAL_MATRIX_FILE"))
  }

  /** The top-level keys the receiver VPC ID is read from, in priority order. */
  const ReceiverKeys: seq<string> :=
    ["receiver_vpc_id", "peer_vpc_id", "target_vpc_id", "receiverVpcId", "peerVpcId", "targetVpcId"]

  /** The keys of the `requesters` object the receiver VPC ID is read from, after the top-level ones. */
  const NestedReceiverKeys: seq<string> := ["receiver_vpc_id", "receiverVpcId"]

  /** The top-level keys whose lists make up the allowed requesters, in order. */
  const AllowedKeys: seq<string> := ["allowed_requester_vpc_ids", "allowed_peer_vpc_ids", "allowed_vpc_ids"]

  /** The top-level keys whose lists make up the disallowed requesters, in order. */
  const DisallowedKeys: seq<string> :=
    ["disallowed_requester_vpc_ids", "disallowed_peer_vpc_ids", "disallowed_vpc_ids"]

  /** The members of the `requesters` object; none when it is absent or not an object. */
  function NestedMembers(raw: seq<(string, Value)>): seq<(string, Value)>
  {
    var requesters := Member(raw, "requesters");
    if requesters.JObject? then requesters.members else []
  }

  /** The `cn03String` texts of `keys` in an object, in the order of `keys`. */
  function TextsUnder(members: seq<(string, Value)>, keys: seq<string>): seq<string>
  {
    seq(|keys|, i requires 0 <= i < |keys| => JsonText(Member(members, keys[i])))
  }

  /** The `cn03StringSlice` lists of `keys` in an object, concatenated in the order of `keys`. */
  function IdsUnder(members: seq<(string, Value)>, keys: seq<string>): (r: seq<string>)
    ensures forall x :: x in r ==> CleanId(x)
  {
    if |keys| == 0 then []
    else JsonIdList(Member(members, keys[0])) + IdsUnder(members, keys[1..])
  }

  /** `receiverVpcID`: the top-level keys first; then, when `requesters` is an object, its two keys. */
  function MatrixReceiver(raw: seq<(string, Value)>): string
  {
    var receiver := FirstNonEmpty(TextsUnder(raw, ReceiverKeys));
    var requesters := Member(raw, "requesters");
    if requesters.JObject? then
      FirstNonEmpty([receiver] + TextsUnder(requesters.members, NestedReceiverKeys))
    else receiver
  }

  /** The requester IDs gathered under `keys` and, when `requesters` is an object, under its `nestedKey`. */
  function MatrixRequesters(raw: seq<(string, Value)>, keys: seq<string>, nestedKey: string): seq<string>
  {
    var ids := IdsUnder(raw, keys);
    var requesters := Member(raw, "requesters");
    if requesters.JObject? then ids + JsonIdList(Member(requesters.members, nestedKey)) else ids
  }

  /** `peerOwnerID`: the matrix's own keys, then `cn03PeerOwnerID`. */
  function MatrixOwner(raw: seq<(string, Value)>, env: Env): string
  {
    FirstNonEmpty([JsonText(Member(raw, "peer_owner_id")), JsonText(Member(raw, "peerOwnerId")), PeerOwnerFromEnv(env)])
  }

  /** The matrix fields read from the decoded top-level object, before the emptiness check. */
  function DecodeMatrix(raw: seq<(string, Value)>, env: Env): (m: TrialMatrix)
    ensures IsIdList(m.allowedRequesters) && IsIdList(m.disallowedRequesters)
  {
    var allowed := MatrixRequesters(raw, AllowedKeys, "allowed");
    var disallowed := MatrixRequesters(raw, DisallowedKeys, "disallowed");
    NormalizedIsIdList(allowed);
    NormalizedIsIdList(disallowed);
    TrialMatrix(MatrixReceiver(raw), MatrixOwner(raw, env), Normalized(allowed), Normalized(disallowed))
  }

  /**
   * The receiver is the first non-blank text among the six top-level keys and then the two
   * keys of `requesters`.
   */
  lemma DecodeMatrixReceiver(raw: seq<(string, Value)>, env: Env)
    ensures DecodeMatrix(raw, env).receiverVpcId ==
      FirstNonEmpty(TextsUnder(raw, ReceiverKeys) + TextsUnder(NestedMembers(raw), NestedReceiverKeys))
  {
    var top := TextsUnder(raw, ReceiverKeys);
    var nested := TextsUnder(NestedMembers(raw), NestedReceiverKeys);
    FirstNonEmptyAppend(top, nested);
    var requesters := Member(raw, "requesters");
    if requesters.JObject? {
      var first := FirstNonEmpty(top);
      FirstNonEmptyAppend([first], nested);
      FirstNonEmptyOfOne(first);
    } else {
      TextsUnderNothing(NestedReceiverKeys);
      FirstNonEmptyBlank(nested);
    }
  }

  /**
   * Each requester list is the union of the lists under its three top-level keys and then
   * its `requesters` key, every ID kept at its first occurrence only.
   */
  lemma DecodeMatrixRequesters(raw: seq<(string, Value)>, env: Env)
    ensures DecodeMatrix(raw, env).allowedRequesters ==
      FirstOccurrences(IdsUnder(raw, AllowedKeys) + IdsUnder(NestedMembers(raw), ["allowed"]))
    ensures DecodeMatrix(raw, env).disallowedRequesters ==
      FirstOccurrences(IdsUnder(raw, DisallowedKeys) + IdsUnder(NestedMembers(raw), ["disallowed"]))
  {
    RequestersUnder(raw, AllowedKeys, "allowed");
    RequestersUnder(raw, DisallowedKeys, "disallowed");
  }

  lemma FirstNonEmptyOfOne(x: string)
    requires x != "<nil>" && TrimSpace(x) == x
    ensures FirstNonEmpty([x]) == x
  {
    assert [x][1..] == [];
  }

  lemma FirstNonEmptyBlank(values: seq<string>)
    requires forall k :: 0 <= k < |values| ==> values[k] == ""
    ensures FirstNonEmpty(values) == ""
  {
    forall k | 0 <= k < |values|
      ensures TrimSpace(values[k]) in {"", "<nil>"}
    {
      TrimSpaceIdempotent("");
    }
  }

  lemma TextsUnderNothing(keys: seq<string>)
    ensures forall k :: 0 <= k < |keys| ==> TextsUnder([], keys)[k] == ""
  {
  }

  lemma RequestersUnder(raw: seq<(string, Value)>, keys: seq<string>, nestedKey: string)
    ensures Normalized(MatrixRequesters(raw, keys, nestedKey)) ==
      FirstOccurrences(IdsUnder(raw, keys) + IdsUnder(NestedMembers(raw), [nestedKey]))
  {
    var ids := IdsUnder(raw, keys) + IdsUnder(NestedMembers(raw), [nestedKey]);
    assert [nestedKey][1..] == [];
    var requesters := Member(raw, "requesters");
    if requesters.JObject? {
      assert IdsUnder(NestedMembers(raw), [nestedKey]) == JsonIdList(Member(requesters.members, nestedKey));
    } else {
      assert Member([], nestedKey) == JNull;
      assert IdsUnder(NestedMembers(raw), [nestedKey]) == [];
    }
    assert MatrixRequesters(raw, keys, nestedKey) == ids;
    ItemsOfCleanIds(ids);
  }

  /**
   * The peer owner is taken from `peer_owner_id`, then `peerOwnerId`, and only when the matrix
   * names neither from the environment, where a literal "<nil>" counts as unset.
   */
  lemma DecodeMatrixOwner(raw: seq<(string, Value)>, env: Env)
    ensures var snake, camel := JsonText(Member(raw, "peer_owner_id")), JsonText(Member(raw, "peerOwnerId"));
            DecodeMatrix(raw, env).peerOwnerId ==
              if snake != "" then snake
              else if camel != "" then camel
              else if PeerOwnerFromEnv(env) != "<nil>" then PeerOwnerFromEnv(env)
              else ""
  {
    var snake, camel := JsonText(Member(raw, "peer_owner_id")), JsonText(Member(raw, "peerOwnerId"));
    assert DecodeMatrix(raw, env).peerOwnerId == FirstNonEmpty([snake, camel, PeerOwnerFromEnv(env)]);
    FirstNonEmptyOfThree(snake, camel, PeerOwnerFromEnv(env));
  }

  lemma FirstNonEmptyOfThree(a: string, b: string, c: string)
    ensures FirstNonEmpty([a, b, c]) ==
              if FirstNonEmpty([a]) != "" then FirstNonEmpty([a])
              else if FirstNonEmpty([b]) != "" then FirstNonEmpty([b])
              else FirstNonEmpty([c])
  {
    assert [a, b, c] == [a] + [b, c];
    assert [b, c] == [b] + [c];
    FirstNonEmptyAppend([a], [b, c]);
    FirstNonEmptyAppend([b], [c]);
  }

  /** `loadCN03TrialMatrix`. */
  function LoadTrialMatrix(filePath: string, env: Env, fs: FileSystem): (r: Result<LoadedMatrix>)
    ensures MatrixPath(filePath, env) == "" ==> r.Err?
    ensures r.Ok? ==> r.value.matrix.allowedRequesters != [] || r.value.matrix.disallowedRequesters != []
    ensures r.Ok? ==> IsIdList(r.value.matrix.allowedRequesters) && IsIdList(r.value.matrix.disallowedRequesters)
  {
    var resolved := MatrixPath(filePath, env);
    if resolved == "" then Err("filePath is required (or set CN03_PEER_TRIAL_MATRIX_FILE)")
    else
      var path := AbsPath(fs, resolved);
      if path !in fs.files then Err("failed to read CN03 trial matrix file " + path)
      else if fs.files[path].Malformed? || TopLevelMembers(fs.files[path].doc).None? then
        Err("failed to parse CN03 trial matrix file " + path)
      else
        var m := DecodeMatrix(TopLevelMembers(fs.files[path].doc).value, env);
        if m.allowedRequesters == [] && m.disallowedRequesters == [] then
          Err("CN03 trial matrix file " + path + " does not define any requester VPC IDs")
        else Ok(LoadedMatrix(m, path))
  }

  /**
   * A matrix loads exactly when a path is given, the file at its absolute form exists and
   * decodes to an object (or null), and the decoded matrix names some requester; the result
   * is then that decoded matrix and the absolute path.
   */
  lemma LoadTrialMatrixOutcome(filePath: string, env: Env, fs: FileSystem)
    ensures var path := AbsPath(fs, MatrixPath(filePath, env));
            var loads := MatrixPath(filePath, env) != "" && path in fs.files && fs.files[path].JsonDocument? &&
              TopLevelMembers(fs.files[path].doc).Some?;
            var m := if loads then DecodeMatrix(TopLevelMembers(fs.files[path].doc).value, env) else TrialMatrix("", "", [], []);
            && (LoadTrialMatrix(filePath, env, fs).Ok? <==>
                  loads && (m.allowedRequesters != [] || m.disallowedRequesters != []))
            && (LoadTrialMatrix(filePath, env, fs).Ok? ==> LoadTrialMatrix(filePath, env, fs).value == LoadedMatrix(m, path))
  {
  }

  // ---------------------------------------------------------------------------
  // resolveCN03AllowedRequesterVpcIDs

  /** The allow list and the name of the source it came from ("" when none is configured). */
  datatype AllowList = AllowList(ids: seq<string>, source: string)

  /** The environment variables the tiers read, in priority order. */
  const RequesterIdsKey := "CN03_ALLOWED_REQUESTER_VPC_IDS"
  const RequesterIdPrefix := "CN03_ALLOWED_REQUESTER_VPC_ID_"
  const PeerIdsKey := "CN03_ALLOWED_PEER_VPC_IDS"
  const PeerIdPrefix := "CN03_ALLOWED_PEER_VPC_ID_"

  /** The normalised list held by one comma-separated environment variable. */
  function CsvValues(env: Env, key: string): (r: seq<string>)
    ensures IsIdList(r)
  {
    NormalizedIsIdList([Getenv(env, key)]);
    Normalized([Getenv(env, key)])
  }

  /** The four environment tiers, in priority order, with the source name each reports. */
  function EnvTiers(env: Env): (r: seq<AllowList>)
    ensures |r| == 4
    ensures r[0] == AllowList(CsvValues(env, RequesterIdsKey), RequesterIdsKey)
    ensures r[1] == AllowList(IndexedValues(env, RequesterIdPrefix), RequesterIdPrefix + "1..N")
    ensures r[2] == AllowList(CsvValues(env, PeerIdsKey), PeerIdsKey)
    ensures r[3] == AllowList(IndexedValues(env, PeerIdPrefix), PeerIdPrefix + "1..N")
  {
    [ AllowList(CsvValues(env, RequesterIdsKey), RequesterIdsKey),
      AllowList(IndexedValues(env, RequesterIdPrefix), RequesterIdPrefix + "1..N"),
      AllowList(CsvValues(env, PeerIdsKey), PeerIdsKey),
      AllowList(IndexedValues(env, PeerIdPrefix), PeerIdPrefix + "1..N") ]
  }

  /** Every environment tier names its source and holds clean IDs, each once. */
  lemma EnvTiersAreIdLists(env: Env)
    ensures forall i :: 0 <= i < |EnvTiers(env)| ==> EnvTiers(env)[i].source != "" && IsIdList(EnvTiers(env)[i].ids)
  {
    var tiers := EnvTiers(env);
    forall i | 0 <= i < |tiers|
      ensures tiers[i].source != "" && IsIdList(tiers[i].ids)
    {
      assert i == 0 || i == 1 || i == 2 || i == 3;
    }
  }

  /** The first tier with a non-empty list, if any. */
  function FirstEnvTier(tiers: seq<AllowList>): (r: Option<AllowList>)
    ensures r.None? <==> forall i :: 0 <= i < |tiers| ==> tiers[i].ids == []
    ensures r.Some? ==> exists i :: 0 <= i < |tiers| && r.value == tiers[i] && tiers[i].ids != [] &&
                          forall j :: 0 <= j < i ==> tiers[j].ids == []
  {
    if |tiers| == 0 then None
    else if tiers[0].ids != [] then Some(tiers[0])
    else
      var r := FirstEnvTier(tiers[1..]);
      assert forall i :: 1 <= i < |tiers| ==> tiers[1..][i - 1] == tiers[i];
      r
  }

  /** When every tier names its source and holds an ID list, so does the first non-empty one. */
  lemma FirstEnvTierWellFormed(tiers: seq<AllowList>)
    requires forall i :: 0 <= i < |tiers| ==> tiers[i].source != "" && IsIdList(tiers[i].ids)
    ensures FirstEnvTier(tiers).Some? ==>
              FirstEnvTier(tiers).value.ids != [] && FirstEnvTier(tiers).value.source != "" &&
              IsIdList(FirstEnvTier(tiers).value.ids)
  {
    if FirstEnvTier(tiers).Some? {
      var i :| 0 <= i < |tiers| && FirstEnvTier(tiers).value == tiers[i] && tiers[i].ids != [] &&
               forall j :: 0 <= j < i ==> tiers[j].ids == [];
    }
  }

  /** The matrix-file tier, consulted when no environment tier is set and the path variable is. */
  function MatrixTier(matrixPath: string, env: Env, fs: FileSystem): (r: Result<AllowList>)
    ensures r.Err? <==> LoadTrialMatrix(matrixPath, env, fs).Err?
    ensures r.Err? ==> r == Err(LoadTrialMatrix(matrixPath, env, fs).message)
    ensures r.Ok? ==> r.value.ids == LoadTrialMatrix(matrixPath, env, fs).value.matrix.allowedRequesters
    ensures r.Ok? && r.value.ids != [] ==>
      r.value.source == "CN03_PEER_TRIAL_MATRIX_FILE (" + LoadTrialMatrix(matrixPath, env, fs).value.path + ")"
    ensures r.Ok? && r.value.ids == [] ==> r.value.source == ""
    ensures r.Ok? ==> IsIdList(r.value.ids) && (r.value.ids == [] <==> r.value.source == "")
  {
    match LoadTrialMatrix(matrixPath, env, fs)
    case Err(e) => Err(e)
    case Ok(loaded) =>
      if |loaded.matrix.allowedRequesters| > 0 then
        Ok(AllowList(loaded.matrix.allowedRequesters, "CN03_PEER_TRIAL_MATRIX_FILE (" + loaded.path + ")"))
      else Ok(AllowList([], ""))
  }

  /** `resolveCN03AllowedRequesterVpcIDs`. */
  function ResolveAllowedRequesters(env: Env, fs: FileSystem): (r: Result<AllowList>)
    ensures r.Ok? ==> (r.value.ids == [] <==> r.value.source == "")
    ensures r.Ok? ==> IsIdList(r.value.ids)
    ensures r.Err? ==> TrimSpace(Getenv(env, "CN03_PEER_TRIAL_MATRIX_FILE")) != ""
  {
    EnvTiersAreIdLists(env);
    FirstEnvTierWellFormed(EnvTiers(env));
    match FirstEnvTier(EnvTiers(env))
    case Some(tier) => Ok(tier)
    case None =>
      var matrixPath := TrimSpace(Getenv(env, "CN03_PEER_TRIAL_MATRIX_FILE"));
      if matrixPath == "" then Ok(AllowList([], ""))
      else MatrixTier(matrixPath, env, fs)
  }

  /** The first environment tier with a non-empty list is the allow list, whatever else is configured. */
  lemma EnvTierWins(env: Env, fs: FileSystem, i: nat)
    requires i < |EnvTiers(env)| && EnvTiers(env)[i].ids != []
    requires forall j :: 0 <= j < i ==> EnvTiers(env)[j].ids == []
    ensures ResolveAllowedRequesters(env, fs) == Ok(EnvTiers(env)[i])
  {
    var tiers := EnvTiers(env);
    var k :| 0 <= k < |tiers| && FirstEnvTier(tiers).value == tiers[k] && tiers[k].ids != [] &&
             forall j :: 0 <= j < k ==> tiers[j].ids == [];
    assert k == i;
  }

  /**
   * With every environment tier empty, the allow list is empty with no source when
   * CN03_PEER_TRIAL_MATRIX_FILE is unset, and the matrix tier of that file otherwise.
   */
  lemma MatrixFileWhenNoEnvTier(env: Env, fs: FileSystem)
    requires forall i :: 0 <= i < |EnvTiers(env)| ==> EnvTiers(env)[i].ids == []
    ensures var matrixPath := TrimSpace(Getenv(env, "CN03_PEER_TRIAL_MATRIX_FILE"));
            ResolveAllowedRequesters(env, fs) ==
              if matrixPath == "" then Ok(AllowList([], "")) else MatrixTier(matrixPath, env, fs)
  {
  }

  /** A configured environment tier shadows the matrix file completely: its contents, even its errors, do not matter. */
  lemma EnvTiersShadowMatrixFile(env: Env, fs1: FileSystem, fs2: FileSystem)
    requires exists t :: t in EnvTiers(env) && t.ids != []
    ensures ResolveAllowedRequesters(env, fs1) == ResolveAllowedRequesters(env, fs2)
    ensures ResolveAllowedRequesters(env, fs1).Ok?
  {
  }

  /** Without any environment tier and without a matrix path, no allow list is defined. */
  lemma NothingConfigured(env: Env, fs: FileSystem)
    requires forall t :: t in EnvTiers(env) ==> t.ids == []
    requires TrimSpace(Getenv(env, "CN03_PEER_TRIAL_MATRIX_FILE")) == ""
    ensures ResolveAllowedRequesters(env, fs) == Ok(AllowList([], ""))
  {
  }
}

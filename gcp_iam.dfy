/**
 * The GCP IAM test-identity service (testing/api/iam/gcp-iam.go): service-account id
 * sanitising, the level-to-role and service-to-resource mappings, the policy-binding merge of
 * `SetAccess` and the not-found tolerance of `DestroyUser`. IAM API answers are inputs.
 */
module GcpIam {
  import opened Wrappers
  import opened Text
  import opened IamIdentity

  // ---------------------------------------------------------------------------
  // sanitizeServiceAccountID

  predicate IsAccountIdChar(c: char)
  {
    IsAsciiLower(c) || IsAsciiDigit(c) || c == '-'
  }

  /** Each rune kept when allowed, replaced by a hyphen otherwise. */
  function MappedChars(t: string): (r: string)
  {
    seq(|t|, k requires 0 <= k < |t| => if IsAccountIdChar(t[k]) then t[k] else '-')
  }

  lemma MappedCharsSnoc(t: string, i: nat)
    requires i < |t|
    ensures MappedChars(t[..i + 1]) == MappedChars(t[..i]) + [if IsAccountIdChar(t[i]) then t[i] else '-']
  {
  }

  /** The "sa-" the character loop puts before a leading digit. */
  function DigitPrefix(t: string): string
  {
    if |t| > 0 && IsAsciiDigit(t[0]) then "sa-" else ""
  }

  /** The "sa-" put before a looped name that does not start with a letter. */
  function Lettered(looped: string): (r: string)
    ensures looped != [] ==> r != [] && IsAsciiLower(r[0])
    ensures looped != [] && !IsAsciiLower(looped[0]) ==> r == "sa-" + looped
    ensures looped == [] || IsAsciiLower(looped[0]) ==> r == looped
  {
    if |looped| > 0 && !IsAsciiLower(looped[0]) then "sa-" + looped else looped
  }

  /** "-test" appended to anything shorter than 6 runes. */
  function PaddedToSix(s: string): (r: string)
    requires forall k :: 0 <= k < |s| ==> IsAccountIdChar(s[k])
    ensures forall k :: 0 <= k < |r| ==> IsAccountIdChar(r[k])
    ensures |s| <= |r| && r[..|s|] == s
    ensures |s| < 6 ==> r == s + "-test"
    ensures |s| >= 6 ==> r == s
  {
    if |s| < 6 then s + "-test" else s
  }

  /** The first 30 runes. */
  function CutToThirty(s: string): (r: string)
    ensures |r| == if |s| > 30 then 30 else |s|
    ensures r == s[..|r|]
  {
    if |s| > 30 then s[..30] else s
  }

  /** The length rules: "-test" after anything shorter than 6, cut to 30, trailing hyphens stripped. */
  function Bounded(s: string): (r: string)
    requires forall k :: 0 <= k < |s| ==> IsAccountIdChar(s[k])
    ensures |r| <= 30
    ensures forall k :: 0 <= k < |r| ==> IsAccountIdChar(r[k])
    ensures r == [] || r[|r| - 1] != '-'
    ensures s == [] ==> r == "-test"
    ensures forall k :: 0 <= k < |r| && k < |s| ==> r[k] == s[k]
    ensures forall k :: 0 <= k < |s| && k < 30 && s[k] != '-' ==> k < |r|
    ensures 6 <= |s| <= 30 && s[|s| - 1] != '-' ==> r == s
  {
    var padded := PaddedToSix(s);
    var cut := CutToThirty(padded);
    var trimmed := TrimRightRune(cut, '-');
    assert forall k :: 0 <= k < |cut| ==> cut[k] == padded[k];
    assert forall k :: 0 <= k < |s| ==> padded[k] == s[k];
    assert s == [] ==> trimmed == "-test" by {
      if s == [] {
        assert cut == "-test";
      }
    }
    assert 6 <= |s| <= 30 && s[|s| - 1] != '-' ==> trimmed == s by {
      if 6 <= |s| <= 30 && s[|s| - 1] != '-' {
        assert cut == s;
      }
    }
    trimmed
  }

  /**
   * `sanitizeServiceAccountID` as a value: lower-cased, invalid runes hyphenated, an "sa-"
   * before a leading non-letter, then the length rules.
   */
  function ServiceAccountIdOf(userName: string): (r: string)
    ensures |r| <= 30
    ensures forall k :: 0 <= k < |r| ==> IsAccountIdChar(r[k])
    ensures r == [] || r[|r| - 1] != '-'
    ensures userName != "" ==> r != "" && IsAsciiLower(r[0])
    ensures userName == "" ==> r == "-test"
  {
    var lowered := ToLower(userName);
    var lettered := Lettered(DigitPrefix(lowered) + MappedChars(lowered));
    Bounded(lettered)
  }

  /** `sanitizeServiceAccountID`. */
  method SanitizeServiceAccountId(userName: string) returns (r: string)
    ensures r == ServiceAccountIdOf(userName)
  {
    var result := ToLower(userName);
    var sanitized := "";
    for i := 0 to |result|
      invariant sanitized == (if i == 0 then "" else DigitPrefix(result)) + MappedChars(result[..i])
    {
      var c := result[i];
      MappedCharsSnoc(result, i);
      if IsAsciiLower(c) || IsAsciiDigit(c) || c == '-' {
        if i == 0 && IsAsciiDigit(c) {
          sanitized := sanitized + "sa-";
        }
        sanitized := sanitized + [c];
      } else {
        sanitized := sanitized + "-";
      }
    }
    assert result[..|result|] == result;
    if |sanitized| > 0 && !IsAsciiLower(sanitized[0]) {
      sanitized := "sa-" + sanitized;
    }
    if |sanitized| < 6 {
      sanitized := sanitized + "-test";
    }
    if |sanitized| > 30 {
      sanitized := sanitized[..30];
    }
    r := TrimRightRune(sanitized, '-');
  }

  /** Lower-casing and hyphenating leave a string of id runes that starts with a letter alone. */
  lemma AccountIdCharsKept(t: string)
    requires t != [] && IsAsciiLower(t[0])
    requires forall k :: 0 <= k < |t| ==> IsAccountIdChar(t[k])
    ensures DigitPrefix(ToLower(t)) + MappedChars(ToLower(t)) == t
  {
    var lowered := ToLower(t);
    forall k | 0 <= k < |t|
      ensures lowered[k] == t[k]
    {
      assert IsAccountIdChar(t[k]);
    }
    assert lowered == t;
    assert DigitPrefix(lowered) == "";
  }

  /** A name that already satisfies the service-account id rules comes back unchanged. */
  lemma ValidServiceAccountIdUnchanged(userName: string)
    requires 6 <= |userName| <= 30
    requires forall k :: 0 <= k < |userName| ==> IsAccountIdChar(userName[k])
    requires IsAsciiLower(userName[0]) && userName[|userName| - 1] != '-'
    ensures ServiceAccountIdOf(userName) == userName
  {
    AccountIdCharsKept(userName);
    assert Lettered(userName) == userName;
  }

  /**
   * A leading digit or invalid rune earns an "sa-" prefix: the result starts with "sa", and
   * with "sa-" unless the trailing-hyphen strip reached back that far.
   */
  lemma LeadingNonLetterGetsPrefix(userName: string)
    requires userName != "" && !IsAsciiLower(LowerRune(userName[0]))
    ensures HasPrefix(ServiceAccountIdOf(userName), "sa")
    ensures |ServiceAccountIdOf(userName)| > 2 ==> ServiceAccountIdOf(userName)[2] == '-'
  {
    var lowered := ToLower(userName);
    var looped := DigitPrefix(lowered) + MappedChars(lowered);
    var lettered := Lettered(looped);
    assert lettered[..3] == "sa-";
    var r := Bounded(lettered);
    assert lettered[1] == 'a';
    assert r[0] == 's' && r[1] == 'a';
  }

  // ---------------------------------------------------------------------------
  // getRoleForLevel and parseResourceName

  /** `getRoleForLevel`: "" for "none", a storage role for storage services, a basic role otherwise. */
  function RoleForLevel(serviceId: string, level: string): (r: Result<string>)
    ensures r.Ok? <==> level in {"none", "read", "write", "admin"}
    ensures r == Ok("") <==> level == "none"
    ensures r.Ok? && level != "none" ==> (HasPrefix(r.value, "roles/storage.") <==> Contains(serviceId, "storage"))
  {
    var storage := Contains(serviceId, "storage");
    if level == "none" then Ok("")
    else if level == "read" then Ok(if storage then "roles/storage.objectViewer" else "roles/viewer")
    else if level == "write" then Ok(if storage then "roles/storage.objectAdmin" else "roles/editor")
    else if level == "admin" then Ok(if storage then "roles/storage.admin" else "roles/owner")
    else Err("unsupported access level: " + level)
  }

  /** Go's `strings.TrimPrefix`. */
  function TrimPrefix(s: string, p: string): (r: string)
    ensures HasPrefix(s, p) ==> s == p + r
    ensures !HasPrefix(s, p) ==> r == s
  {
    if HasPrefix(s, p) then s[|p|..] else s
  }

  /**
   * `parseResourceName`: full names pass through, buckets become "projects/_/buckets/<name>",
   * anything else names the project.
   */
  function ResourceName(projectId: string, serviceId: string): (r: string)
    ensures HasPrefix(r, "projects/")
    ensures HasPrefix(serviceId, "projects/") ==> r == serviceId
    ensures !HasPrefix(serviceId, "projects/") && (Contains(serviceId, "storage") || HasPrefix(serviceId, "gs://")) ==>
      r == "projects/_/buckets/" + TrimPrefix(serviceId, "gs://")
    ensures !HasPrefix(serviceId, "projects/") && !Contains(serviceId, "storage") && !HasPrefix(serviceId, "gs://") ==>
      r == "projects/" + projectId
  {
    if HasPrefix(serviceId, "projects/") then serviceId
    else if Contains(serviceId, "storage") || HasPrefix(serviceId, "gs://") then
      "projects/_/buckets/" + TrimPrefix(serviceId, "gs://")
    else "projects/" + projectId
  }

  /** A resolved resource name resolves to itself. */
  lemma ResourceNameIdempotent(projectId: string, serviceId: string)
    ensures ResourceName(projectId, ResourceName(projectId, serviceId)) == ResourceName(projectId, serviceId)
  {
  }

  // ---------------------------------------------------------------------------
  // The binding merge of SetAccess

  datatype Binding = Binding(role: string, members: seq<string>)

  datatype IamPolicy = IamPolicy(bindings: seq<Binding>)

  /** The position of the first binding for `role`. */
  function FirstRoleBinding(bindings: seq<Binding>, role: string): (r: Option<nat>)
    ensures r.Some? ==> (r.value < |bindings| && bindings[r.value].role == role
      && forall j :: 0 <= j < r.value ==> bindings[j].role != role)
    ensures r.None? ==> forall j :: 0 <= j < |bindings| ==> bindings[j].role != role
  {
    if |bindings| == 0 then None
    else if bindings[0].role == role then Some(0)
    else
      match FirstRoleBinding(bindings[1..], role)
      case None => None
      case Some(k) => Some(k + 1)
  }

  /**
   * The bindings after the merge: unchanged when the first binding for the role already names
   * the member; otherwise that binding (if any) gains the member and a new single-member
   * binding for the role is appended.
   */
  function MergedBindings(bindings: seq<Binding>, role: string, member: string): (r: seq<Binding>)
    ensures exists k :: 0 <= k < |r| && r[k].role == role && member in r[k].members
    ensures |r| == |bindings| || (|r| == |bindings| + 1 && r[|bindings|] == Binding(role, [member]))
    ensures forall j :: 0 <= j < |bindings| ==>
      r[j].role == bindings[j].role && |bindings[j].members| <= |r[j].members|
      && r[j].members[..|bindings[j].members|] == bindings[j].members
    ensures forall j :: 0 <= j < |bindings| && bindings[j].role != role ==> r[j] == bindings[j]
  {
    match FirstRoleBinding(bindings, role)
    case None =>
      assert (bindings + [Binding(role, [member])])[|bindings|] == Binding(role, [member]);
      bindings + [Binding(role, [member])]
    case Some(k) =>
      if member in bindings[k].members then bindings
      else
        var extended := bindings[k := bindings[k].(members := bindings[k].members + [member])];
        assert (extended + [Binding(role, [member])])[|bindings|] == Binding(role, [member]);
        extended + [Binding(role, [member])]
  }

  /** A member already bound to the role leaves the bindings exactly as they were. */
  lemma MergeOfBoundMemberIsIdentity(bindings: seq<Binding>, role: string, member: string, k: nat)
    requires k < |bindings| && bindings[k].role == role && member in bindings[k].members
    requires forall j :: 0 <= j < k ==> bindings[j].role != role
    ensures MergedBindings(bindings, role, member) == bindings
  {
    assert FirstRoleBinding(bindings, role) == Some(k);
  }

  /** Otherwise exactly one binding, `{role, [member]}`, is appended. */
  lemma MergeOfNewMemberAppends(bindings: seq<Binding>, role: string, member: string)
    requires forall j :: 0 <= j < |bindings| && bindings[j].role == role ==> member !in bindings[j].members
    ensures |MergedBindings(bindings, role, member)| == |bindings| + 1
  {
  }

  /** The merge loop of `SetAccess`, updating the policy's bindings in place. */
  method MergeBinding(bindings: seq<Binding>, role: string, member: string) returns (r: seq<Binding>)
    ensures r == MergedBindings(bindings, role, member)
  {
    r := bindings;
    var bindingExists := false;
    var i := 0;
    while i < |r|
      invariant 0 <= i <= |r|
      invariant r == bindings && !bindingExists
      invariant forall j :: 0 <= j < i ==> bindings[j].role != role
    {
      if r[i].role == role {
        var members := r[i].members;
        var m := 0;
        while m < |members|
          invariant 0 <= m <= |members|
          invariant !bindingExists ==> member !in members[..m]
          invariant bindingExists ==> member in members
        {
          if members[m] == member {
            bindingExists := true;
            break;
          }
          assert members[..m + 1] == members[..m] + [members[m]];
          m := m + 1;
        }
        assert members[..|members|] == members;
        assert FirstRoleBinding(bindings, role) == Some(i);
        if !bindingExists {
          r := r[i := r[i].(members := r[i].members + [member])];
        }
        break;
      }
      i := i + 1;
    }
    if !bindingExists {
      r := r + [Binding(role, [member])];
    }
  }

  // ---------------------------------------------------------------------------
  // SetAccess and DestroyUser

  /** `getResourcePolicy`: the stub answers every resource with a policy that has no bindings. */
  function ResourcePolicy(resourceName: string): (p: IamPolicy)
    ensures p.bindings == []
  {
    IamPolicy([])
  }

  /** A SetIamPolicy request. */
  datatype PolicyUpdate = PolicyUpdate(resource: string, policy: IamPolicy)

  /**
   * `SetAccess`: returns the error (None for a nil error) and the policy update it sends.
   * "none" sends nothing; otherwise the service account's member is merged into the role's
   * binding of the resource policy.
   */
  method SetAccess(projectId: string, identity: Identity, serviceId: string, level: string)
    returns (err: Option<string>, update: Option<PolicyUpdate>)
    ensures RoleForLevel(serviceId, level).Err? ==> err.Some? && update.None?
    ensures level == "none" ==> err.None? && update.None?
    ensures RoleForLevel(serviceId, level).Ok? && level != "none" && Credential(identity, "email") == "" ==>
      err.Some? && update.None?
    ensures RoleForLevel(serviceId, level).Ok? && level != "none" && Credential(identity, "email") != "" ==>
      err.None? && update.Some?
    ensures err.None? <==> update.Some? || level == "none"
    ensures update.Some? ==>
      var role := RoleForLevel(serviceId, level).value;
      var member := "serviceAccount:" + Credential(identity, "email");
      update.value == PolicyUpdate(ResourceName(projectId, serviceId), IamPolicy([Binding(role, [member])]))
  {
    var role := RoleForLevel(serviceId, level);
    if role.Err? {
      return Some("failed to determine role: " + role.message), None;
    }
    if role.value == "" {
      return None, None;
    }
    var email := Credential(identity, "email");
    if email == "" {
      return Some("service account email not found in identity credentials"), None;
    }
    var member := "serviceAccount:" + email;
    var resourceName := ResourceName(projectId, serviceId);
    var policy := ResourcePolicy(resourceName);
    var bindings := MergeBinding(policy.bindings, role.value, member);
    return None, Some(PolicyUpdate(resourceName, IamPolicy(bindings)));
  }

  /** A service-account key as ListServiceAccountKeys reports it. */
  datatype AccountKey = AccountKey(name: string, userManaged: bool)

  /** The names of the user-managed keys, in listing order. */
  function UserManagedKeyNames(keys: seq<AccountKey>): (r: seq<string>)
    ensures |r| <= |keys|
    ensures forall n :: n in r <==> exists k :: 0 <= k < |keys| && keys[k].userManaged && keys[k].name == n
    ensures |keys| == 1 ==> r == if keys[0].userManaged then [keys[0].name] else []
  {
    if |keys| == 0 then []
    else
      var rest := UserManagedKeyNames(keys[..|keys| - 1]);
      var last := keys[|keys| - 1];
      if last.userManaged then rest + [last.name] else rest
  }

  /**
   * The names of a listing are those of its first part followed by those of its second, so
   * the kept names keep the listing order.
   */
  lemma {:induction false} UserManagedKeyNamesConcat(a: seq<AccountKey>, b: seq<AccountKey>)
    ensures UserManagedKeyNames(a + b) == UserManagedKeyNames(a) + UserManagedKeyNames(b)
  {
    if |b| == 0 {
      assert a + b == a;
    } else {
      var init := b[..|b| - 1];
      assert (a + b)[..|a + b| - 1] == a + init;
      assert (a + b)[|a + b| - 1] == b[|b| - 1];
      UserManagedKeyNamesConcat(a, init);
    }
  }

  /**
   * `DestroyUser`: deletes the user-managed keys (failures to list or delete keys are ignored),
   * then the service account; a deletion error that says "not found" counts as success.
   * `deletedKeys` are the key deletions requested.
   */
  method DestroyUser(identity: Identity, listed: Result<seq<AccountKey>>, deleteError: Option<string>)
    returns (err: Option<string>, deletedKeys: seq<string>)
    ensures Credential(identity, "email") == "" ==> err.Some? && deletedKeys == []
    ensures Credential(identity, "email") != "" ==>
      deletedKeys == (if listed.Ok? then UserManagedKeyNames(listed.value) else [])
      && (err.None? <==> deleteError.None? || Contains(deleteError.value, "not found"))
  {
    var email := Credential(identity, "email");
    if email == "" {
      return Some("service account email not found in identity credentials"), [];
    }
    deletedKeys := [];
    if listed.Ok? {
      var keys := listed.value;
      for i := 0 to |keys|
        invariant deletedKeys == UserManagedKeyNames(keys[..i])
      {
        assert keys[..i + 1][..i] == keys[..i];
        if keys[i].userManaged {
          deletedKeys := deletedKeys + [keys[i].name];
        }
      }
      assert keys[..|keys|] == keys;
    }
    if deleteError.Some? {
      if Contains(deleteError.value, "not found") {
        return None, deletedKeys;
      }
      return Some("failed to delete service account " + email + ": " + deleteError.value), deletedKeys;
    }
    return None, deletedKeys;
  }
}

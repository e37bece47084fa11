/**
 * The AWS IAM test-identity service (testing/api/iam/aws-iam.go): ARN splitting, policy-name
 * sanitising, the generated S3 policies, reading the access level back from the inline policy
 * name, and the two per-session caches of `AWSIAMService`. IAM API answers are inputs.
 */
module AwsIam {
  import opened Wrappers
  import opened Text
  import opened IamIdentity

  // ---------------------------------------------------------------------------
  // splitARN

  /** The fields of an ARN: the `:`-separated pieces, without a trailing empty one. */
  function ArnFields(arn: string): (r: seq<string>)
  {
    var f := SplitOn(arn, ':');
    if f[|f| - 1] == "" then f[..|f| - 1] else f
  }

  /** `splitARN`: cut at every `:`, dropping only a trailing empty field. */
  method SplitArn(arn: string) returns (parts: seq<string>)
    ensures parts == ArnFields(arn)
  {
    var result: seq<string> := [];
    var current := "";
    for i := 0 to |arn|
      invariant result + [current] == SplitOn(arn[..i], ':')
    {
      assert arn[..i + 1][..i] == arn[..i];
      if arn[i] == ':' {
        result := result + [current];
        current := "";
      } else {
        current := current + [arn[i]];
      }
    }
    assert arn[..|arn|] == arn;
    if current != "" {
      result := result + [current];
    }
    parts := result;
  }

  /**
   * No field contains `:`, and joining the fields with `:` gives back the ARN, except that
   * a trailing `:` (the dropped empty field) is missing.
   */
  lemma ArnFieldsJoin(arn: string)
    ensures forall p :: p in ArnFields(arn) ==> ':' !in p
    ensures arn == "" ==> ArnFields(arn) == []
    ensures arn != "" && arn[|arn| - 1] == ':' ==> JoinWith(ArnFields(arn), ":") + ":" == arn
    ensures arn != "" && arn[|arn| - 1] != ':' ==> JoinWith(ArnFields(arn), ":") == arn
  {
    var f := SplitOn(arn, ':');
    SplitFieldsLackSeparator(arn, ':');
    SplitJoin(arn, ':');
    if arn != "" {
      var s', x := arn[..|arn| - 1], arn[|arn| - 1];
      var p := SplitOn(s', ':');
      if x == ':' {
        assert f == p + [""];
        assert f[..|f| - 1] == p;
        JoinAppendEmpty(p, ":");
      } else {
        assert f[|f| - 1] == p[|p| - 1] + [x];
      }
    }
  }

  /** The account id is the fifth ARN field, when there is one. */
  function AccountIdOf(arn: string): (r: Option<string>)
    ensures r.Some? <==> |ArnFields(arn)| > 4
    ensures r.Some? ==> ':' !in r.value
  {
    ArnFieldsJoin(arn);
    var parts := ArnFields(arn);
    if |parts| > 4 then Some(parts[4]) else None
  }

  // ---------------------------------------------------------------------------
  // sanitizeForPolicyName

  predicate IsPolicyNameChar(c: char)
  {
    IsAsciiAlnum(c) || c == '-' || c == '_'
  }

  /** The characters of `s` that may appear in a policy name, in order. */
  function PolicyChars(s: string): (r: string)
    ensures |r| <= |s|
    ensures forall k :: 0 <= k < |r| ==> IsPolicyNameChar(r[k])
  {
    if |s| == 0 then ""
    else PolicyChars(s[..|s| - 1]) + (if IsPolicyNameChar(s[|s| - 1]) then [s[|s| - 1]] else "")
  }

  /** `sanitizeForPolicyName` as a value: the allowed characters, cut to 64. */
  function PolicyNameOf(s: string): (r: string)
    ensures |r| <= 64
    ensures forall k :: 0 <= k < |r| ==> IsPolicyNameChar(r[k])
  {
    var kept := PolicyChars(s);
    if |kept| > 64 then kept[..64] else kept
  }

  /** `sanitizeForPolicyName`. */
  method SanitizeForPolicyName(s: string) returns (r: string)
    ensures r == PolicyNameOf(s)
  {
    r := "";
    for i := 0 to |s|
      invariant r == PolicyChars(s[..i])
    {
      assert s[..i + 1][..i] == s[..i];
      if IsAsciiAlnum(s[i]) {
        r := r + [s[i]];
      } else if s[i] == '-' || s[i] == '_' {
        r := r + [s[i]];
      }
    }
    assert s[..|s|] == s;
    if |r| > 64 {
      r := r[..64];
    }
  }

  /** Filtering distributes over concatenation: characters are kept or dropped one by one, in order. */
  lemma {:induction false} PolicyCharsAppend(a: string, b: string)
    ensures PolicyChars(a + b) == PolicyChars(a) + PolicyChars(b)
    decreases |b|
  {
    if |b| > 0 {
      assert (a + b)[..|a + b| - 1] == a + b[..|b| - 1];
      PolicyCharsAppend(a, b[..|b| - 1]);
    } else {
      assert a + b == a;
    }
  }

  /** Text made only of allowed characters passes the filter unchanged. */
  lemma {:induction false} PolicyCharsOfValid(s: string)
    requires forall k :: 0 <= k < |s| ==> IsPolicyNameChar(s[k])
    ensures PolicyChars(s) == s
  {
    if |s| > 0 {
      PolicyCharsOfValid(s[..|s| - 1]);
    }
  }

  /** Sanitising a sanitised name changes nothing. */
  lemma PolicyNameIdempotent(s: string)
    ensures PolicyNameOf(PolicyNameOf(s)) == PolicyNameOf(s)
  {
    PolicyCharsOfValid(PolicyNameOf(s));
  }

  // ---------------------------------------------------------------------------
  // generatePolicyDocument

  datatype S3Action = ListBucket | GetBucketLocation | GetObject | PutObject | DeleteObject

  /** `Resource`: the bucket ARN, the ARN of the bucket's objects, or "*". */
  datatype PolicyResource = BucketArn(bucket: string) | ObjectsArn(bucket: string) | AnyResource

  /** `Action`: a list of S3 actions, or "*". */
  datatype PolicyActions = Actions(actions: seq<S3Action>) | AnyAction

  /** Every statement has Effect "Allow". */
  datatype Statement = Statement(actions: PolicyActions, resource: PolicyResource)

  /** The policy document, Version "2012-10-17". */
  datatype Policy = Policy(statements: seq<Statement>)

  /** `generatePolicyDocument`: the S3 statements granted at each access level. */
  function GeneratePolicyDocument(resource: string, level: string): (r: Result<Policy>)
    ensures r.Ok? <==> level in {"none", "read", "write", "admin"}
    ensures level == "none" ==> r == Ok(Policy([]))
    ensures (level == "read" || level == "write") ==>
      |r.value.statements| == 2
      && r.value.statements[0] == Statement(Actions([ListBucket, GetBucketLocation]), BucketArn(resource))
      && r.value.statements[1].resource == ObjectsArn(resource)
    ensures level == "admin" ==> r == Ok(Policy([Statement(AnyAction, AnyResource)]))
  {
    if level == "none" then Ok(Policy([]))
    else if level == "read" then
      Ok(Policy([Statement(Actions([ListBucket, GetBucketLocation]), BucketArn(resource)),
                 Statement(Actions([GetObject]), ObjectsArn(resource))]))
    else if level == "write" then
      Ok(Policy([Statement(Actions([ListBucket, GetBucketLocation]), BucketArn(resource)),
                 Statement(Actions([GetObject, PutObject, DeleteObject]), ObjectsArn(resource))]))
    else if level == "admin" then Ok(Policy([Statement(AnyAction, AnyResource)]))
    else Err("unsupported access level: " + level)
  }

  /** Whether a policy lets `action` touch `resource`. */
  predicate Grants(p: Policy, action: S3Action, resource: PolicyResource)
  {
    exists k :: 0 <= k < |p.statements| &&
      var st := p.statements[k];
      (st.actions.AnyAction? || action in st.actions.actions)
      && (st.resource.AnyResource? || st.resource == resource)
  }

  /** The access levels are ordered: none grants nothing, write grants all read does, admin all write does. */
  lemma LevelsAreOrdered(bucket: string, action: S3Action, resource: PolicyResource)
    ensures !Grants(GeneratePolicyDocument(bucket, "none").value, action, resource)
    ensures Grants(GeneratePolicyDocument(bucket, "read").value, action, resource)
      ==> Grants(GeneratePolicyDocument(bucket, "write").value, action, resource)
    ensures Grants(GeneratePolicyDocument(bucket, "admin").value, action, resource)
  {
    var read := GeneratePolicyDocument(bucket, "read").value;
    var write := GeneratePolicyDocument(bucket, "write").value;
    if Grants(read, action, resource) {
      var k :| 0 <= k < |read.statements| &&
        var st := read.statements[k];
        (st.actions.AnyAction? || action in st.actions.actions)
        && (st.resource.AnyResource? || st.resource == resource);
      assert write.statements[k].resource == read.statements[k].resource;
    }
    assert GeneratePolicyDocument(bucket, "admin").value.statements[0] == Statement(AnyAction, AnyResource);
  }

  // ---------------------------------------------------------------------------
  // GetAccess

  /** The inline policy names this service manages for `serviceId` start with this. */
  function PolicyPrefix(serviceId: string): string
  {
    "CCC-Test-" + PolicyNameOf(serviceId) + "-"
  }

  /** The inline policy name SetAccess attaches. */
  function PolicyName(serviceId: string, level: string): string
  {
    PolicyPrefix(serviceId) + level
  }

  /** GetUserPolicy's answer: the document, and its URL-decoded form when decoding succeeds. */
  datatype PolicyAnswer = PolicyAnswer(document: string, decoded: Option<string>)

  datatype AccessAnswer = AccessAnswer(level: string, document: string)

  /** The position of the first name that starts with `prefix`. */
  function FirstWithPrefix(names: seq<string>, prefix: string): (r: Option<nat>)
    ensures r.Some? ==> (r.value < |names| && HasPrefix(names[r.value], prefix)
      && forall j :: 0 <= j < r.value ==> !HasPrefix(names[j], prefix))
    ensures r.None? ==> forall j :: 0 <= j < |names| ==> !HasPrefix(names[j], prefix)
  {
    if |names| == 0 then None
    else if HasPrefix(names[0], prefix) then Some(0)
    else
      match FirstWithPrefix(names[1..], prefix)
      case None => None
      case Some(k) => Some(k + 1)
  }

  /**
   * `GetAccess`: the level is what follows the prefix in the first managed policy's name;
   * "none" with an empty document when no listed policy is managed for the service.
   * `listed` is ListUserPolicies' answer, `fetch` answers GetUserPolicy by name.
   */
  function GetAccess(serviceId: string, listed: Result<seq<string>>, fetch: string -> Result<PolicyAnswer>)
    : (r: Result<AccessAnswer>)
    ensures listed.Err? ==> r.Err?
    ensures listed.Ok? && FirstWithPrefix(listed.value, PolicyPrefix(serviceId)).None? ==> r == Ok(AccessAnswer("none", ""))
    ensures listed.Ok? && FirstWithPrefix(listed.value, PolicyPrefix(serviceId)).Some? ==>
      var name := listed.value[FirstWithPrefix(listed.value, PolicyPrefix(serviceId)).value];
      (r.Ok? <==> fetch(name).Ok?)
      && (r.Ok? ==> PolicyName(serviceId, r.value.level) == name)
  {
    if listed.Err? then Err("failed to list user policies: " + listed.message)
    else
      var prefix := PolicyPrefix(serviceId);
      match FirstWithPrefix(listed.value, prefix)
      case None => Ok(AccessAnswer("none", ""))
      case Some(k) =>
        var name := listed.value[k];
        match fetch(name)
        case Err(e) => Err("failed to get policy " + name + ": " + e)
        case Ok(answer) =>
          assert name == prefix + name[|prefix|..];
          Ok(AccessAnswer(name[|prefix|..], answer.decoded.GetOr(answer.document)))
  }

  /** Reading back a policy name SetAccess attached yields the level it was attached for. */
  lemma PolicyNameRoundTrip(serviceId: string, level: string, fetch: string -> Result<PolicyAnswer>)
    requires fetch(PolicyName(serviceId, level)).Ok?
    ensures GetAccess(serviceId, Ok([PolicyName(serviceId, level)]), fetch).Ok?
    ensures GetAccess(serviceId, Ok([PolicyName(serviceId, level)]), fetch).value.level == level
  {
    var prefix := PolicyPrefix(serviceId);
    assert HasPrefix(PolicyName(serviceId, level), prefix);
    assert PolicyName(serviceId, level)[|prefix|..] == level;
  }

  // ---------------------------------------------------------------------------
  // The service and its caches

  /** A GetUser / CreateUser answer: the ARN (absent when the API left it out) and the user id. */
  datatype UserInfo = UserInfo(arn: Option<string>, userId: string)

  datatype AccessKey = AccessKey(accessKeyId: string, secretAccessKey: string)

  /** The IAM answers ProvisionUser works with; `createUser` is consulted only when GetUser failed. */
  datatype ProvisionAnswers = ProvisionAnswers(
    getUser: Result<UserInfo>,
    createUser: Result<UserInfo>,
    createKey: Result<AccessKey>)

  /** A PutUserPolicy request. */
  datatype PutRequest = PutRequest(userName: string, policyName: string, policy: Policy)

  /** What SetAccess returns: the generated policy or the existing (decoded) document. */
  datatype PolicyText = Generated(policy: Policy) | Existing(document: string)

  /** The identity built for a user: its credentials map as ProvisionUser fills it. */
  function IdentityFor(userName: string, user: UserInfo, key: AccessKey): (id: Identity)
    ensures id.userName == userName && id.provider == "aws"
    ensures "arn" in id.credentials && "user_id" in id.credentials && "access_key_id" in id.credentials
    ensures id.credentials["arn"] == user.arn.GetOr("") && id.credentials["access_key_id"] == key.accessKeyId
    ensures "secret_access_key" in id.credentials <==> key.secretAccessKey != ""
    ensures "account_id" in id.credentials <==> user.arn.Some? && AccountIdOf(user.arn.value).Some?
    ensures "account_id" in id.credentials ==> id.credentials["account_id"] == ArnFields(user.arn.value)[4]
  {
    var base := map["arn" := user.arn.GetOr(""), "user_id" := user.userId, "access_key_id" := key.accessKeyId];
    var withSecret := if key.secretAccessKey != "" then base["secret_access_key" := key.secretAccessKey] else base;
    var withAccount :=
      if user.arn.Some? && AccountIdOf(user.arn.value).Some? then withSecret["account_id" := AccountIdOf(user.arn.value).value]
      else withSecret;
    Identity(userName, "aws", withAccount)
  }

  class AwsIamService {
    /** Identities provisioned in this session, by user name. */
    var provisionedUsers: map<string, Identity>
    /** Access levels set in this session, by "userName:serviceID". */
    var accessLevels: map<string, string>

    constructor ()
      ensures provisionedUsers == map[] && accessLevels == map[]
    {
      provisionedUsers := map[];
      accessLevels := map[];
    }

    /**
     * `ProvisionUser`: a user already provisioned in this session is answered from the cache;
     * otherwise the existing or newly created user gets a fresh access key and is cached.
     */
    method ProvisionUser(userName: string, answers: ProvisionAnswers) returns (r: Result<Identity>)
      modifies this
      ensures accessLevels == old(accessLevels)
      ensures userName in old(provisionedUsers) ==>
        r == Ok(old(provisionedUsers)[userName]) && provisionedUsers == old(provisionedUsers)
      ensures userName !in old(provisionedUsers) ==>
        var user := if answers.getUser.Ok? then answers.getUser else answers.createUser;
        (r.Ok? <==> user.Ok? && answers.createKey.Ok?)
        && (r.Ok? ==> r.value == IdentityFor(userName, user.value, answers.createKey.value)
                      && provisionedUsers == old(provisionedUsers)[userName := r.value])
        && (r.Err? ==> provisionedUsers == old(provisionedUsers))
    {
      if userName in provisionedUsers {
        return Ok(provisionedUsers[userName]);
      }
      var user := answers.getUser;
      if user.Err? {
        user := answers.createUser;
        if user.Err? {
          return Err("failed to create IAM user " + userName + ": " + user.message);
        }
      }
      if answers.createKey.Err? {
        return Err("failed to create access key for user " + userName + ": " + answers.createKey.message);
      }
      var key := answers.createKey.value;
      var credentials := map["arn" := user.value.arn.GetOr(""), "user_id" := user.value.userId, "access_key_id" := key.accessKeyId];
      if key.secretAccessKey != "" {
        credentials := credentials["secret_access_key" := key.secretAccessKey];
      }
      if user.value.arn.Some? {
        var parts := SplitArn(user.value.arn.value);
        if |parts| > 4 {
          credentials := credentials["account_id" := parts[4]];
        }
      }
      var identity := Identity(userName, "aws", credentials);
      provisionedUsers := provisionedUsers[userName := identity];
      return Ok(identity);
    }

    /**
     * `SetAccess`: answered from the cache when the level is already set in this session,
     * left alone when the attached policy already grants it, otherwise replaced by a new
     * inline policy (`put` is PutUserPolicy's error, if any). `issued` is the PutUserPolicy
     * request sent, if one was.
     */
    method SetAccess(identity: Identity, serviceId: string, level: string,
                     listed: Result<seq<string>>, fetch: string -> Result<PolicyAnswer>, put: Option<string>)
      returns (r: Result<PolicyText>, issued: Option<PutRequest>)
      modifies this
      ensures provisionedUsers == old(provisionedUsers)
      ensures var key := identity.userName + ":" + serviceId;
        (r.Ok? ==> accessLevels == old(accessLevels)[key := level])
        && (r.Err? ==> accessLevels == old(accessLevels))
      ensures var key := identity.userName + ":" + serviceId;
        key in old(accessLevels) && old(accessLevels)[key] == level ==>
          issued.None? && (r.Ok? <==> GeneratePolicyDocument(serviceId, level).Ok?)
      ensures issued.Some? ==> (GeneratePolicyDocument(serviceId, level).Ok? &&
        issued.value == PutRequest(identity.userName, PolicyName(serviceId, level), GeneratePolicyDocument(serviceId, level).value))
      ensures issued.Some? ==> (r.Ok? <==> put.None?)
      ensures var key := identity.userName + ":" + serviceId;
        key in old(accessLevels) && old(accessLevels)[key] == level && r.Ok? ==>
          r == Ok(Generated(GeneratePolicyDocument(serviceId, level).value))
      ensures issued.Some? && r.Ok? ==> r == Ok(Generated(issued.value.policy))
      ensures r.Ok? && r.value.Generated? ==> GeneratePolicyDocument(serviceId, level).Ok? && r.value.policy == GeneratePolicyDocument(serviceId, level).value
      ensures var key, current := identity.userName + ":" + serviceId, GetAccess(serviceId, listed, fetch);
        !(key in old(accessLevels) && old(accessLevels)[key] == level) && current.Ok? && current.value.level == level ==>
          r == Ok(Existing(current.value.document)) && issued.None?
      ensures var key, current := identity.userName + ":" + serviceId, GetAccess(serviceId, listed, fetch);
        !(key in old(accessLevels) && old(accessLevels)[key] == level) && !(current.Ok? && current.value.level == level) ==>
          (GeneratePolicyDocument(serviceId, level).Ok? <==> issued.Some?) && (issued.None? ==> r.Err?)
    {
      var key := identity.userName + ":" + serviceId;
      issued := None;
      if key in accessLevels && accessLevels[key] == level {
        var cached := GeneratePolicyDocument(serviceId, level);
        if cached.Err? {
          return Err("failed to generate policy: " + cached.message), None;
        }
        return Ok(Generated(cached.value)), None;
      }
      var current := GetAccess(serviceId, listed, fetch);
      if current.Ok? && current.value.level == level {
        accessLevels := accessLevels[key := level];
        return Ok(Existing(current.value.document)), None;
      }
      var generated := GeneratePolicyDocument(serviceId, level);
      if generated.Err? {
        return Err("failed to generate policy: " + generated.message), None;
      }
      var sanitized := SanitizeForPolicyName(serviceId);
      var policyName := "CCC-Test-" + sanitized + "-" + level;
      issued := Some(PutRequest(identity.userName, policyName, generated.value));
      if put.Some? {
        return Err("failed to attach policy to user " + identity.userName + ": " + put.value), issued;
      }
      accessLevels := accessLevels[key := level];
      return Ok(Generated(generated.value)), issued;
    }
  }
}

/**
 * The Azure IAM test-identity service (testing/api/iam/azure-iam.go): service-principal
 * naming, the level-to-role-definition and service-to-scope mappings, role-assignment scope
 * extraction, and the two per-session caches of `AzureIAMService`. Graph and ARM answers are
 * inputs.
 */
module AzureIam {
  import opened Wrappers
  import opened Text
  import opened IamIdentity

  // ---------------------------------------------------------------------------
  // sanitizeServicePrincipalName

  /** `sanitizeServicePrincipalName`: a "CCC-Test-" prefix unless the name starts with "CCC-", cut to 120. */
  function ServicePrincipalName(userName: string): (r: string)
    ensures HasPrefix(r, "CCC-")
    ensures |r| <= 120
    ensures HasPrefix(userName, "CCC-") && |userName| <= 120 ==> r == userName
  {
    var prefixed := if HasPrefix(userName, "CCC-") then userName else "CCC-Test-" + userName;
    assert prefixed[..4] == "CCC-";
    if |prefixed| > 120 then prefixed[..120] else prefixed
  }

  /** Naming a principal twice changes nothing. */
  lemma ServicePrincipalNameIdempotent(userName: string)
    ensures ServicePrincipalName(ServicePrincipalName(userName)) == ServicePrincipalName(userName)
  {
  }

  // ---------------------------------------------------------------------------
  // extractScopeFromAssignmentID

  const AssignmentSeparator: string := "/providers/Microsoft.Authorization/roleAssignments/"

  /** `extractScopeFromAssignmentID`: the text before the first role-assignment separator, or the whole id. */
  function ScopeOfAssignment(assignmentId: string): (r: string)
    ensures HasPrefix(assignmentId, r)
    ensures !Contains(r, AssignmentSeparator)
    ensures Contains(assignmentId, AssignmentSeparator) ==> HasPrefix(assignmentId, r + AssignmentSeparator)
    ensures !Contains(assignmentId, AssignmentSeparator) ==> r == assignmentId
  {
    Before(assignmentId, AssignmentSeparator)
  }

  // ---------------------------------------------------------------------------
  // getRoleDefinitionForLevel and parseScope

  /** The built-in role GUIDs: Reader, Contributor and Owner, or their Storage Blob Data counterparts. */
  function RoleGuid(level: string, dataPlane: bool): string
  {
    if level == "read" then (if dataPlane then "2a2b9908-6ea1-4ae2-8e65-a410df84e7d1" else "acdd72a7-3385-48ef-bd42-f606fba81ae7")
    else if level == "write" then (if dataPlane then "ba92f5b4-2d11-453d-a403-e96b0029c9fe" else "b24988ac-6180-42a0-ab88-20f7382dd24c")
    else (if dataPlane then "b7e6dc6d-f1e8-4753-8033-0f276bb0955b" else "8e3af657-a8ff-443c-a75c-2fe8c4bcb635")
  }

  function RoleDefinitionsPath(subscriptionId: string): string
  {
    "/subscriptions/" + subscriptionId + "/providers/Microsoft.Authorization/roleDefinitions"
  }

  /** Whether a service is served by the storage data plane. */
  predicate IsDataPlane(serviceId: string)
  {
    Contains(serviceId, "storage") || Contains(serviceId, "blob")
  }

  /** `getRoleDefinitionForLevel`: "" for "none", a role definition id under the subscription otherwise. */
  function RoleDefinitionForLevel(subscriptionId: string, serviceId: string, level: string): (r: Result<string>)
    ensures r.Ok? <==> level in {"none", "read", "write", "admin"}
    ensures r == Ok("") <==> level == "none"
    ensures r.Ok? && level != "none" ==>
      r.value == RoleDefinitionsPath(subscriptionId) + "/" + RoleGuid(level, IsDataPlane(serviceId))
  {
    if level == "none" then Ok("")
    else if level in {"read", "write", "admin"} then
      Ok(RoleDefinitionsPath(subscriptionId) + "/" + RoleGuid(level, IsDataPlane(serviceId)))
    else Err("unsupported access level: " + level)
  }

  /** The six role definitions are all different: level and plane can be read back from the GUID. */
  lemma RoleGuidsDistinct(l1: string, p1: bool, l2: string, p2: bool)
    requires l1 in {"read", "write", "admin"} && l2 in {"read", "write", "admin"}
    requires RoleGuid(l1, p1) == RoleGuid(l2, p2)
    ensures l1 == l2 && p1 == p2
  {
    assert RoleGuid(l1, p1)[0] == RoleGuid(l2, p2)[0];
    assert RoleGuid(l1, p1)[1] == RoleGuid(l2, p2)[1];
  }

  /** The last `/`-separated segment of a name. */
  function LastSegment(s: string): (r: string)
    ensures '/' !in r
  {
    var parts := SplitOn(s, '/');
    SplitFieldsLackSeparator(s, '/');
    assert parts[|parts| - 1] in parts;
    parts[|parts| - 1]
  }

  function ResourceGroupScope(subscriptionId: string, resourceGroup: string): string
  {
    "/subscriptions/" + subscriptionId + "/resourceGroups/" + resourceGroup
  }

  /**
   * `parseScope`: full ids pass through, storage services become the storage account named by
   * their last segment, anything else the resource group.
   */
  function Scope(subscriptionId: string, resourceGroup: string, serviceId: string): (r: string)
    ensures HasPrefix(r, "/subscriptions/")
    ensures HasPrefix(serviceId, "/subscriptions/") ==> r == serviceId
    ensures !HasPrefix(serviceId, "/subscriptions/") && Contains(serviceId, "storage") ==>
      r == ResourceGroupScope(subscriptionId, resourceGroup) + "/providers/Microsoft.Storage/storageAccounts/" + LastSegment(serviceId)
    ensures !HasPrefix(serviceId, "/subscriptions/") && !Contains(serviceId, "storage") ==>
      r == ResourceGroupScope(subscriptionId, resourceGroup)
  {
    if HasPrefix(serviceId, "/subscriptions/") then serviceId
    else if Contains(serviceId, "storage") then
      ResourceGroupScope(subscriptionId, resourceGroup) + "/providers/Microsoft.Storage/storageAccounts/" + LastSegment(serviceId)
    else ResourceGroupScope(subscriptionId, resourceGroup)
  }

  /** A resolved scope resolves to itself. */
  lemma ScopeIdempotent(subscriptionId: string, resourceGroup: string, serviceId: string)
    ensures Scope(subscriptionId, resourceGroup, Scope(subscriptionId, resourceGroup, serviceId))
      == Scope(subscriptionId, resourceGroup, serviceId)
  {
  }

  // ---------------------------------------------------------------------------
  // The service and its caches

  /** An application registration: its client id and object id. */
  datatype Application = Application(appId: string, objectId: string)

  datatype Secret = Secret(clientSecret: string, secretId: string)

  /**
   * The Graph answers ProvisionUser works with. `existing` is the lookup by display name
   * (an empty app id when there is none); `servicePrincipal` answers getOrCreateServicePrincipal
   * for an existing application, `created` and `createdPrincipal` the creation path.
   */
  datatype ProvisionAnswers = ProvisionAnswers(
    existing: Result<Application>,
    servicePrincipal: Result<string>,
    created: Result<Application>,
    createdPrincipal: Result<string>,
    password: Result<Secret>,
    tenant: Result<string>)

  /** The application and service principal ProvisionUser ends up with, or the step that failed. */
  function Principal(answers: ProvisionAnswers): (r: Result<(Application, string)>)
    ensures answers.existing.Err? ==> r.Err?
    ensures answers.existing.Ok? && answers.existing.value.appId != "" ==>
      (r.Ok? <==> answers.servicePrincipal.Ok?) && (r.Ok? ==> r.value.0 == answers.existing.value)
    ensures answers.existing.Ok? && answers.existing.value.appId == "" ==>
      (r.Ok? <==> answers.created.Ok? && answers.createdPrincipal.Ok?) && (r.Ok? ==> r.value.0 == answers.created.value)
  {
    if answers.existing.Err? then Err("failed to check for existing application: " + answers.existing.message)
    else if answers.existing.value.appId != "" then
      if answers.servicePrincipal.Err? then Err("failed to get service principal: " + answers.servicePrincipal.message)
      else Ok((answers.existing.value, answers.servicePrincipal.value))
    else if answers.created.Err? then Err("failed to create application: " + answers.created.message)
    else if answers.createdPrincipal.Err? then Err("failed to create service principal: " + answers.createdPrincipal.message)
    else Ok((answers.created.value, answers.createdPrincipal.value))
  }

  /** An assignment-creation error that means the assignment is already in place. */
  predicate AlreadyAssigned(errorText: string)
  {
    Contains(errorText, "already exists") || Contains(errorText, "RoleAssignmentExists")
  }

  /** A role-assignment creation request. */
  datatype AssignmentRequest = AssignmentRequest(scope: string, principalId: string, roleDefinitionId: string)

  /** A role assignment as the subscription listing reports it (the name may be missing). */
  datatype Assignment = Assignment(id: string, name: Option<string>)

  /** A role-assignment deletion request. */
  datatype Deletion = Deletion(scope: string, name: string)

  /** The assignments of a page that carry a name, in listing order. */
  function NamedAssignments(page: seq<Assignment>): (r: seq<Assignment>)
    ensures |r| <= |page|
    ensures forall a :: a in r <==> a in page && a.name.Some?
  {
    if |page| == 0 then []
    else
      var rest := NamedAssignments(page[..|page| - 1]);
      var a := page[|page| - 1];
      assert page == page[..|page| - 1] + [a];
      if a.name.Some? then rest + [a] else rest
  }

  /** The deletion of one named assignment, at the scope its id names. */
  function DeletionOf(a: Assignment): Deletion
    requires a.name.Some?
  {
    Deletion(ScopeOfAssignment(a.id), a.name.value)
  }

  /** The deletions for one listed page: every named assignment, in order. */
  function PageDeletions(page: seq<Assignment>): (r: seq<Deletion>)
    ensures |r| == |NamedAssignments(page)|
    ensures forall k :: 0 <= k < |r| ==> r[k] == DeletionOf(NamedAssignments(page)[k])
  {
    var named := NamedAssignments(page);
    seq(|named|, k requires 0 <= k < |named| => DeletionOf(named[k]))
  }

  /** The deletions for the listed pages, up to the first page that failed to load. */
  function ListedDeletions(pages: seq<Result<seq<Assignment>>>): (r: seq<Deletion>)
  {
    if |pages| == 0 || pages[0].Err? then []
    else PageDeletions(pages[0].value) + ListedDeletions(pages[1..])
  }

  /** Deletions never come from a page past the first listing failure. */
  lemma {:induction false} ListedDeletionsStopAtFailure(pages: seq<Result<seq<Assignment>>>, k: nat)
    requires k < |pages| && pages[k].Err?
    ensures ListedDeletions(pages) == ListedDeletions(pages[..k])
  {
    if k > 0 && pages[0].Ok? {
      assert pages[1..][..k - 1] == pages[..k][1..];
      ListedDeletionsStopAtFailure(pages[1..], k - 1);
    }
  }

  /** The cleanup requests DestroyUser sends; it returns nil whatever they answer. */
  datatype Cleanup = Cleanup(assignments: seq<Deletion>, servicePrincipal: Option<string>, application: Option<string>)

  class AzureIamService {
    const subscriptionId: string
    const resourceGroup: string
    /** Identities provisioned in this session, by user name. */
    var provisionedUsers: map<string, Identity>
    /** Access levels set in this session, by "userName:serviceID". */
    var accessLevels: map<string, string>

    constructor (subscriptionId: string, resourceGroup: string)
      ensures this.subscriptionId == subscriptionId && this.resourceGroup == resourceGroup
      ensures provisionedUsers == map[] && accessLevels == map[]
    {
      this.subscriptionId := subscriptionId;
      this.resourceGroup := resourceGroup;
      provisionedUsers := map[];
      accessLevels := map[];
    }

    /**
     * `ProvisionUser`: a user already provisioned in this session is answered from the cache;
     * otherwise the application and service principal found or created get a new client
     * secret, and the identity is cached.
     */
    method ProvisionUser(userName: string, answers: ProvisionAnswers) returns (r: Result<Identity>)
      modifies this
      ensures accessLevels == old(accessLevels)
      ensures userName in old(provisionedUsers) ==>
        r == Ok(old(provisionedUsers)[userName]) && provisionedUsers == old(provisionedUsers)
      ensures userName !in old(provisionedUsers) ==>
        (r.Ok? <==> Principal(answers).Ok? && answers.password.Ok? && answers.tenant.Ok?)
        && (r.Err? ==> provisionedUsers == old(provisionedUsers))
        && (r.Ok? ==> provisionedUsers == old(provisionedUsers)[userName := r.value])
      ensures userName !in old(provisionedUsers) && r.Ok? ==>
        r.value.userName == userName && r.value.provider == "azure"
        && Credential(r.value, "display_name") == ServicePrincipalName(userName)
        && Credential(r.value, "client_id") == Principal(answers).value.0.appId
        && Credential(r.value, "object_id") == Principal(answers).value.1
        && Credential(r.value, "app_object_id") == Principal(answers).value.0.objectId
        && Credential(r.value, "subscription_id") == subscriptionId
    {
      if userName in provisionedUsers {
        return Ok(provisionedUsers[userName]);
      }
      var displayName := ServicePrincipalName(userName);
      var principal := Principal(answers);
      if principal.Err? {
        return Err(principal.message);
      }
      var (app, spObjectId) := principal.value;
      if answers.password.Err? {
        return Err("failed to create client secret: " + answers.password.message);
      }
      if answers.tenant.Err? {
        return Err("failed to get tenant ID: " + answers.tenant.message);
      }
      var credentials := map[
        "client_id" := app.appId,
        "client_secret" := answers.password.value.clientSecret,
        "tenant_id" := answers.tenant.value,
        "object_id" := spObjectId,
        "app_object_id" := app.objectId,
        "secret_id" := answers.password.value.secretId,
        "subscription_id" := subscriptionId,
        "display_name" := displayName];
      var identity := Identity(userName, "azure", credentials);
      provisionedUsers := provisionedUsers[userName := identity];
      return Ok(identity);
    }

    /**
     * `SetAccess`: returns the error (None for nil) and the role assignment it asked to create
     * (`create` is that call's error, if any). Every nil return records the level in the cache.
     */
    method SetAccess(identity: Identity, serviceId: string, level: string, create: Option<string>)
      returns (err: Option<string>, request: Option<AssignmentRequest>)
      modifies this
      ensures provisionedUsers == old(provisionedUsers)
      ensures var key := identity.userName + ":" + serviceId;
        (err.None? ==> accessLevels == old(accessLevels)[key := level])
        && (err.Some? ==> accessLevels == old(accessLevels))
      ensures var key := identity.userName + ":" + serviceId;
        key in old(accessLevels) && old(accessLevels)[key] == level ==> err.None? && request.None?
      ensures RoleDefinitionForLevel(subscriptionId, serviceId, level).Err? ==> request.None?
      ensures level == "none" ==> err.None? && request.None?
      ensures request.Some? ==> request.value == AssignmentRequest(
        Scope(subscriptionId, resourceGroup, serviceId),
        Credential(identity, "object_id"),
        RoleDefinitionForLevel(subscriptionId, serviceId, level).value)
      ensures request.Some? ==>
        (err.None? <==> create.None? || AlreadyAssigned(create.value))
      ensures var key, role := identity.userName + ":" + serviceId, RoleDefinitionForLevel(subscriptionId, serviceId, level);
        !(key in old(accessLevels) && old(accessLevels)[key] == level) ==>
          (role.Err? ==> err.Some?)
          && (role.Ok? && role.value == "" ==> err.None? && request.None?)
          && (role.Ok? && role.value != "" ==> (request.Some? <==> Credential(identity, "object_id") != ""))
          && (request.None? && err.None? ==> role.Ok? && role.value == "")
    {
      var key := identity.userName + ":" + serviceId;
      if key in accessLevels && accessLevels[key] == level {
        return None, None;
      }
      var roleDefinition := RoleDefinitionForLevel(subscriptionId, serviceId, level);
      if roleDefinition.Err? {
        return Some("failed to determine role: " + roleDefinition.message), None;
      }
      if roleDefinition.value == "" {
        accessLevels := accessLevels[key := level];
        return None, None;
      }
      var objectId := Credential(identity, "object_id");
      if objectId == "" {
        return Some("object_id not found in identity credentials"), None;
      }
      var scope := Scope(subscriptionId, resourceGroup, serviceId);
      request := Some(AssignmentRequest(scope, objectId, roleDefinition.value));
      if create.Some? {
        if AlreadyAssigned(create.value) {
          accessLevels := accessLevels[key := level];
          return None, request;
        }
        return Some("failed to create role assignment: " + create.value), request;
      }
      accessLevels := accessLevels[key := level];
      return None, request;
    }
  }

  /** Loading one more page that succeeded adds its deletions. */
  lemma ListedDeletionsStep(pages: seq<Result<seq<Assignment>>>, p: nat)
    requires p < |pages| && pages[p].Ok?
    ensures ListedDeletions(pages[p..]) == PageDeletions(pages[p].value) + ListedDeletions(pages[p + 1..])
  {
    assert pages[p..][1..] == pages[p + 1..];
  }

  /** The deletions DestroyUser requests for one page of the listing. */
  method DeletePage(page: seq<Assignment>) returns (deletions: seq<Deletion>)
    ensures deletions == PageDeletions(page)
  {
    deletions := [];
    for i := 0 to |page|
      invariant deletions == PageDeletions(page[..i])
    {
      assert page[..i + 1][..i] == page[..i];
      if page[i].name.Some? {
        deletions := deletions + [Deletion(ScopeOfAssignment(page[i].id), page[i].name.value)];
      }
    }
    assert page[..|page|] == page;
  }

  /**
   * `DestroyUser`: deletes the principal's role assignments page by page (stopping at the first
   * page that fails to load), then the service principal and the application; it always
   * returns nil, so only the requests it sends are modelled.
   */
  method DestroyUser(identity: Identity, pages: seq<Result<seq<Assignment>>>) returns (cleanup: Cleanup)
    ensures cleanup.assignments == (if Credential(identity, "object_id") != "" then ListedDeletions(pages) else [])
    ensures cleanup.servicePrincipal.Some? <==> Credential(identity, "object_id") != ""
    ensures cleanup.servicePrincipal.Some? ==> cleanup.servicePrincipal.value == Credential(identity, "object_id")
    ensures cleanup.application.Some? <==> Credential(identity, "app_object_id") != ""
    ensures cleanup.application.Some? ==> cleanup.application.value == Credential(identity, "app_object_id")
  {
    var deletions: seq<Deletion> := [];
    var objectId := Credential(identity, "object_id");
    if objectId != "" {
      var p := 0;
      while p < |pages| && pages[p].Ok?
        invariant 0 <= p <= |pages|
        invariant deletions + ListedDeletions(pages[p..]) == ListedDeletions(pages)
      {
        var pageDeletions := DeletePage(pages[p].value);
        ListedDeletionsStep(pages, p);
        deletions := deletions + pageDeletions;
        p := p + 1;
      }
      assert ListedDeletions(pages[p..]) == [];
      assert deletions + [] == deletions;
    }
    var servicePrincipal := if objectId != "" then Some(objectId) else None;
    var appObjectId := Credential(identity, "app_object_id");
    var application := if appObjectId != "" then Some(appObjectId) else None;
    cleanup := Cleanup(deletions, servicePrincipal, application);
  }
}

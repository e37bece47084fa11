/**
 * The Azure storage-account elevator (testing/api/object-storage/elevation/azure_elevation.go):
 * it opens public network access, the firewall default action and an RBAC grant for a test,
 * remembering what it found so that a reset can put the account back. Storage and
 * authorization API answers are inputs; the requests the elevator sends are outputs.
 */
module StorageElevation {
  import opened Wrappers
  import opened Text

  /** `armstorage.PublicNetworkAccess`. */
  datatype NetworkAccess = Enabled | Disabled | SecuredByPerimeter

  /** `armstorage.DefaultAction`. */
  datatype DefaultAction = Allow | Deny

  /** One elevated setting: the value first seen on the account, and the value last set or seen. */
  datatype Tracked<T> = Tracked(original: Option<T>, current: Option<T>)

  /** A setting step's outcome: the new bookkeeping, the error returned, the value written (if any). */
  datatype Step<T> = Step(tracked: Tracked<T>, err: Option<string>, update: Option<T>)

  /**
   * Elevating a setting to `target`. `observed` is GetProperties' answer for the setting (None
   * when the property is missing), `updateErr` the Update call's error. The first value seen
   * is recorded as the original; the account is updated only when it is not at `target`.
   */
  function ElevateStep<T(==)>(s: Tracked<T>, observed: Result<Option<T>>, target: T, updateErr: Option<string>)
    : (r: Step<T>)
    ensures s.original.Some? ==> r.tracked.original == s.original
    ensures s.original.None? && observed.Ok? ==> r.tracked.original == observed.value
    ensures observed.Err? || observed.value.None? ==> r.tracked == s && r.update.None?
    ensures r.update.Some? <==> observed.Ok? && observed.value.Some? && observed.value.value != target
    ensures r.update.Some? ==> r.update.value == target
    ensures r.err.Some? <==> observed.Err? || (r.update.Some? && updateErr.Some?)
    ensures r.err.None? && observed.Ok? && observed.value.Some? ==> r.tracked.current == Some(target)
    ensures r.err.Some? ==> r.tracked.current == s.current
  {
    if observed.Err? then Step(s, Some("failed to get storage account properties: " + observed.message), None)
    else if observed.value.None? then Step(s, None, None)
    else
      var seen := observed.value.value;
      var original := if s.original.None? then Some(seen) else s.original;
      if seen == target then Step(Tracked(original, Some(seen)), None, None)
      else if updateErr.Some? then Step(Tracked(original, s.current), Some("failed to update: " + updateErr.value), Some(target))
      else Step(Tracked(original, Some(target)), None, Some(target))
  }

  /**
   * Resetting a setting to its recorded original: nothing to do without an original or when the
   * bookkeeping already says the account is back; otherwise the account is read again and
   * written only if it differs from the original.
   */
  function ResetStep<T(==)>(s: Tracked<T>, observed: Result<Option<T>>, updateErr: Option<string>): (r: Step<T>)
    ensures r.tracked.original == s.original
    ensures s.original.None? || s.current == s.original ==> r == Step(s, None, None)
    ensures r.update.Some? ==> Some(r.update.value) == s.original && s.current != s.original
    ensures r.tracked != s ==> r.tracked.current == s.original
    ensures s.original.Some? && s.current != s.original && observed.Ok? && observed.value.Some? ==>
      (r.err.None? <==> observed.value == s.original || updateErr.None?)
      && (r.err.None? ==> r.tracked.current == s.original)
    ensures r.err.Some? ==> r.tracked == s
  {
    if s.original.None? || s.current == s.original then Step(s, None, None)
    else if observed.Err? then Step(s, Some("failed to get storage account properties: " + observed.message), None)
    else if observed.value.None? then Step(s, None, None)
    else if observed.value == s.original then Step(Tracked(s.original, s.original), None, None)
    else if updateErr.Some? then Step(s, Some("failed to restore: " + updateErr.value), s.original)
    else Step(Tracked(s.original, s.original), None, s.original)
  }

  /**
   * Elevating a fresh setting and then resetting it puts the account back: the reset writes the
   * value seen before elevation whenever elevation changed it, and the bookkeeping ends there.
   */
  lemma ElevateThenResetRestores<T>(seen: T, target: T)
    ensures var up := ElevateStep(Tracked(None, None), Ok(Some(seen)), target, None);
      var down := ResetStep(up.tracked, Ok(Some(target)), None);
      up.err.None? && down.err.None?
      && down.tracked == Tracked(Some(seen), Some(seen))
      && (down.update.Some? <==> seen != target)
      && (down.update.Some? ==> down.update.value == seen)
  {
  }

  /** A later elevation never replaces the recorded original. */
  lemma OriginalRecordedOnce<T>(s: Tracked<T>, first: Result<Option<T>>, second: Result<Option<T>>,
                                    target: T, err1: Option<string>, err2: Option<string>)
    requires first.Ok? && first.value.Some?
    ensures var once := ElevateStep(s, first, target, err1);
      var twice := ElevateStep(once.tracked, second, target, err2);
      twice.tracked.original == once.tracked.original
      && once.tracked.original == (if s.original.Some? then s.original else first.value)
  {
  }

  // ---------------------------------------------------------------------------
  // RBAC

  /** A listed role assignment's properties (absent when the listing left them out). */
  datatype AssignmentProperties = AssignmentProperties(principalId: Option<string>, roleDefinitionId: Option<string>)

  predicate Matches(a: Option<AssignmentProperties>, principalId: string, roleDefinitionId: string)
  {
    a.Some? && a.value.principalId == Some(principalId) && a.value.roleDefinitionId == Some(roleDefinitionId)
  }

  /** Some page listed before the first listing failure holds a matching assignment. */
  predicate AlreadyGranted(pages: seq<Result<seq<Option<AssignmentProperties>>>>, principalId: string, roleDefinitionId: string)
  {
    exists p, k :: 0 <= p < |pages| && (forall q :: 0 <= q <= p ==> pages[q].Ok?)
      && 0 <= k < |pages[p].value| && Matches(pages[p].value[k], principalId, roleDefinitionId)
  }

  /** A storage request the elevator sends, in the order it sends them. */
  datatype Request =
    | UpdatePublicNetworkAccess(access: NetworkAccess)
    | UpdateDefaultAction(action: DefaultAction)
    | CreateAssignment(scope: string, principalId: string, roleDefinitionId: string)
    | DeleteAssignment(assignmentId: string)

  /** The public-access write a step sent, as a request list. */
  function PublicUpdates(update: Option<NetworkAccess>): seq<Request>
  {
    if update.Some? then [UpdatePublicNetworkAccess(update.value)] else []
  }

  /** The firewall write a step sent, as a request list. */
  function FirewallUpdates(update: Option<DefaultAction>): seq<Request>
  {
    if update.Some? then [UpdateDefaultAction(update.value)] else []
  }

  /** The Storage Blob Data Contributor role the elevator grants. */
  function BlobContributorRole(subscriptionId: string): string
  {
    "/subscriptions/" + subscriptionId + "/providers/Microsoft.Authorization/roleDefinitions/ba92f5b4-2d11-453d-a403-e96b0029c9fe"
  }

  function StorageAccountId(subscriptionId: string, resourceGroup: string, accountName: string): string
  {
    "/subscriptions/" + subscriptionId + "/resourceGroups/" + resourceGroup
      + "/providers/Microsoft.Storage/storageAccounts/" + accountName
  }

  /** What the storage and authorization APIs answer during one elevation. */
  datatype ElevationAnswers = ElevationAnswers(
    publicAccess: Result<Option<NetworkAccess>>,
    publicUpdate: Option<string>,
    firewall: Result<Option<DefaultAction>>,
    firewallUpdate: Option<string>,
    principal: Result<string>,
    listed: seq<Result<seq<Option<AssignmentProperties>>>>,
    created: Result<Option<string>>)

  /** What the storage API answers during one reset. */
  datatype ResetAnswers = ResetAnswers(
    firewall: Result<Option<DefaultAction>>,
    firewallUpdate: Option<string>,
    publicAccess: Result<Option<NetworkAccess>>,
    publicUpdate: Option<string>)

  class AzureStorageElevator {
    const subscriptionId: string
    const resourceGroup: string
    var publicAccess: Tracked<NetworkAccess>
    var firewall: Tracked<DefaultAction>
    /** The role assignments this elevator created, for the reset to remove. */
    var grantedRoleAssignments: seq<string>

    constructor (subscriptionId: string, resourceGroup: string)
      ensures this.subscriptionId == subscriptionId && this.resourceGroup == resourceGroup
      ensures publicAccess == Tracked(None, None) && firewall == Tracked(None, None)
      ensures grantedRoleAssignments == []
    {
      this.subscriptionId := subscriptionId;
      this.resourceGroup := resourceGroup;
      publicAccess := Tracked(None, None);
      firewall := Tracked(None, None);
      grantedRoleAssignments := [];
    }

    /** `ElevatePublicNetworkAccess`: enable public network access, recording the original once. */
    method ElevatePublicNetworkAccess(observed: Result<Option<NetworkAccess>>, updateErr: Option<string>)
      returns (err: Option<string>, update: Option<NetworkAccess>)
      modifies this
      ensures var st := ElevateStep(old(publicAccess), observed, Enabled, updateErr);
        publicAccess == st.tracked && err == st.err && update == st.update
      ensures firewall == old(firewall) && grantedRoleAssignments == old(grantedRoleAssignments)
    {
      var st := ElevateStep(publicAccess, observed, Enabled, updateErr);
      publicAccess := st.tracked;
      err, update := st.err, st.update;
    }

    /** `ResetPublicNetworkAccess`: restore the recorded original, if any. */
    method ResetPublicNetworkAccess(observed: Result<Option<NetworkAccess>>, updateErr: Option<string>)
      returns (err: Option<string>, update: Option<NetworkAccess>)
      modifies this
      ensures var st := ResetStep(old(publicAccess), observed, updateErr);
        publicAccess == st.tracked && err == st.err && update == st.update
      ensures firewall == old(firewall) && grantedRoleAssignments == old(grantedRoleAssignments)
    {
      var st := ResetStep(publicAccess, observed, updateErr);
      publicAccess := st.tracked;
      err, update := st.err, st.update;
    }

    /** `ElevateNetworkFirewall`: set the default action to Allow, recording the original once. */
    method ElevateNetworkFirewall(observed: Result<Option<DefaultAction>>, updateErr: Option<string>)
      returns (err: Option<string>, update: Option<DefaultAction>)
      modifies this
      ensures var st := ElevateStep(old(firewall), observed, Allow, updateErr);
        firewall == st.tracked && err == st.err && update == st.update
      ensures publicAccess == old(publicAccess) && grantedRoleAssignments == old(grantedRoleAssignments)
    {
      var st := ElevateStep(firewall, observed, Allow, updateErr);
      firewall := st.tracked;
      err, update := st.err, st.update;
    }

    /** `ResetNetworkFirewall`: restore the recorded default action, if any. */
    method ResetNetworkFirewall(observed: Result<Option<DefaultAction>>, updateErr: Option<string>)
      returns (err: Option<string>, update: Option<DefaultAction>)
      modifies this
      ensures var st := ResetStep(old(firewall), observed, updateErr);
        firewall == st.tracked && err == st.err && update == st.update
      ensures publicAccess == old(publicAccess) && grantedRoleAssignments == old(grantedRoleAssignments)
    {
      var st := ResetStep(firewall, observed, updateErr);
      firewall := st.tracked;
      err, update := st.err, st.update;
    }

    /**
     * `GrantRBAC`: nothing to do when the listing (read up to its first failure) shows the
     * principal already holds the role; otherwise a role assignment is created, and its id is
     * remembered when the API returns one. An "already exists" error counts as success.
     */
    method GrantRbac(resourceId: string, principalId: string, roleDefinitionId: string,
                     listed: seq<Result<seq<Option<AssignmentProperties>>>>, created: Result<Option<string>>)
      returns (err: Option<string>, request: Option<Request>)
      modifies this
      ensures publicAccess == old(publicAccess) && firewall == old(firewall)
      ensures AlreadyGranted(listed, principalId, roleDefinitionId) ==>
        err.None? && request.None? && grantedRoleAssignments == old(grantedRoleAssignments)
      ensures !AlreadyGranted(listed, principalId, roleDefinitionId) ==>
        request == Some(CreateAssignment(resourceId, principalId, roleDefinitionId))
        && (err.None? <==> created.Ok? || Contains(created.message, "already exists") || Contains(created.message, "RoleAssignmentExists"))
        && grantedRoleAssignments ==
             old(grantedRoleAssignments) + (if created.Ok? && created.value.Some? then [created.value.value] else [])
    {
      var p := 0;
      while p < |listed| && listed[p].Ok?
        invariant 0 <= p <= |listed|
        invariant forall q :: 0 <= q < p ==> listed[q].Ok?
        invariant forall q, k :: 0 <= q < p && 0 <= k < |listed[q].value| ==> !Matches(listed[q].value[k], principalId, roleDefinitionId)
      {
        var page := listed[p].value;
        for k := 0 to |page|
          invariant forall j :: 0 <= j < k ==> !Matches(page[j], principalId, roleDefinitionId)
        {
          if page[k].Some? && page[k].value.principalId == Some(principalId) && page[k].value.roleDefinitionId == Some(roleDefinitionId) {
            assert Matches(listed[p].value[k], principalId, roleDefinitionId);
            return None, None;
          }
        }
        p := p + 1;
      }
      request := Some(CreateAssignment(resourceId, principalId, roleDefinitionId));
      if created.Err? {
        if Contains(created.message, "already exists") || Contains(created.message, "RoleAssignmentExists") {
          return None, request;
        }
        return Some("failed to create role assignment: " + created.message), request;
      }
      if created.value.Some? {
        grantedRoleAssignments := grantedRoleAssignments + [created.value.value];
      }
      return None, request;
    }

    /** `ResetRBAC`: asks to delete every granted assignment (failures ignored) and forgets them all. */
    method ResetRbac() returns (requests: seq<Request>)
      modifies this
      ensures publicAccess == old(publicAccess) && firewall == old(firewall)
      ensures grantedRoleAssignments == []
      ensures |requests| == |old(grantedRoleAssignments)|
      ensures forall k :: 0 <= k < |requests| ==> requests[k] == DeleteAssignment(old(grantedRoleAssignments)[k])
    {
      requests := [];
      if |grantedRoleAssignments| == 0 {
        return;
      }
      for i := 0 to |grantedRoleAssignments|
        invariant |requests| == i
        invariant forall k :: 0 <= k < i ==> requests[k] == DeleteAssignment(grantedRoleAssignments[k])
      {
        requests := requests + [DeleteAssignment(grantedRoleAssignments[i])];
      }
      grantedRoleAssignments := [];
    }

    /**
     * `ElevateStorageAccountAccess`: public access, then firewall, then (when the current
     * identity is known) the Storage Blob Data Contributor grant; failures are only logged, so
     * it always returns nil. `requests` are the writes sent, in order.
     */
    method ElevateStorageAccountAccess(accountName: string, answers: ElevationAnswers) returns (requests: seq<Request>)
      modifies this
      ensures var pub := ElevateStep(old(publicAccess), answers.publicAccess, Enabled, answers.publicUpdate);
        publicAccess == pub.tracked
      ensures var fw := ElevateStep(old(firewall), answers.firewall, Allow, answers.firewallUpdate);
        firewall == fw.tracked
      ensures answers.principal.Err? ==> grantedRoleAssignments == old(grantedRoleAssignments)
      ensures answers.principal.Ok? ==>
        var creates := !AlreadyGranted(answers.listed, answers.principal.value, BlobContributorRole(subscriptionId));
        grantedRoleAssignments == old(grantedRoleAssignments)
          + (if creates && answers.created.Ok? && answers.created.value.Some? then [answers.created.value.value] else [])
      ensures var pub := ElevateStep(old(publicAccess), answers.publicAccess, Enabled, answers.publicUpdate);
        var fw := ElevateStep(old(firewall), answers.firewall, Allow, answers.firewallUpdate);
        var grants := answers.principal.Ok?
          && !AlreadyGranted(answers.listed, answers.principal.value, BlobContributorRole(subscriptionId));
        requests == PublicUpdates(pub.update) + FirewallUpdates(fw.update)
          + (if grants
             then [CreateAssignment(StorageAccountId(subscriptionId, resourceGroup, accountName),
                                    answers.principal.value, BlobContributorRole(subscriptionId))]
             else [])
    {
      var _, pub := ElevatePublicNetworkAccess(answers.publicAccess, answers.publicUpdate);
      var _, fw := ElevateNetworkFirewall(answers.firewall, answers.firewallUpdate);
      requests := PublicUpdates(pub) + FirewallUpdates(fw);
      if answers.principal.Err? {
        return;
      }
      var resourceId := StorageAccountId(subscriptionId, resourceGroup, accountName);
      var _, grant := GrantRbac(resourceId, answers.principal.value, BlobContributorRole(subscriptionId),
                                answers.listed, answers.created);
      if grant.Some? {
        requests := requests + [grant.value];
      }
    }

    /**
     * `ResetStorageAccountAccess`: RBAC first, then the firewall, then public access; it always
     * returns nil and always leaves no granted assignments behind.
     */
    method ResetStorageAccountAccess(answers: ResetAnswers) returns (requests: seq<Request>)
      modifies this
      ensures grantedRoleAssignments == []
      ensures firewall == ResetStep(old(firewall), answers.firewall, answers.firewallUpdate).tracked
      ensures publicAccess == ResetStep(old(publicAccess), answers.publicAccess, answers.publicUpdate).tracked
      ensures requests ==
        seq(|old(grantedRoleAssignments)|, k requires 0 <= k < |old(grantedRoleAssignments)| => DeleteAssignment(old(grantedRoleAssignments)[k]))
        + FirewallUpdates(ResetStep(old(firewall), answers.firewall, answers.firewallUpdate).update)
        + PublicUpdates(ResetStep(old(publicAccess), answers.publicAccess, answers.publicUpdate).update)
    {
      var deletes := ResetRbac();
      var _, fw := ResetNetworkFirewall(answers.firewall, answers.firewallUpdate);
      var _, pub := ResetPublicNetworkAccess(answers.publicAccess, answers.publicUpdate);
      requests := deletes + FirewallUpdates(fw) + PublicUpdates(pub);
    }
  }
}

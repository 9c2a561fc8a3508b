/** The engine's decision on arbitrary policies, condition by condition, without the code that makes it. */
module AuthorizationRules {
  import opened Wrappers
  import opened Authorization

  /** The alphabet of permission codes. */
  lemma WordCharacters(c: char)
    ensures IsWordStart(c) <==> c in "abcdefghijklmnopqrstuvwxyz"
    ensures IsWordPart(c) <==> c in "abcdefghijklmnopqrstuvwxyz0123456789_"
  {
  }

  /** A scope that names no ids leaves it to the subject's own workspaces or teams; a custom scope checks only the
      dimensions it names. */
  ghost predicate Covers(subject: Subject, resource: Resource, scope: DataScope) {
    || scope == TenantAll
    || (scope.Workspace? && exists id | Some(id) == resource.workspaceId ::
          id in scope.workspaceIds || (scope.workspaceIds == {} && id in subject.workspaceIds))
    || (scope.Team? && exists id | Some(id) == resource.teamId ::
          id in scope.teamIds || (scope.teamIds == {} && id in subject.teamIds))
    || (scope == Assigned && resource.assignedTo == Some(subject.actor))
    || (scope == CreatedByMe && resource.createdBy == Some(subject.actor))
    || (scope.Custom? && Names(scope.custom.workspaceIds, resource.workspaceId) &&
        Names(scope.custom.teamIds, resource.teamId) && Names(scope.custom.resourceIds, resource.resourceId))
  }

  ghost predicate Names(ids: set<Id>, id: Option<Id>) {
    ids == {} || id in set i | i in ids :: Some(i)
  }

  /** Some grant of the code covers the resource. */
  ghost predicate Granted(policy: Policy, subject: Subject, code: string, resource: Resource) {
    exists g, scope | g in policy.grants && scope in g.scopes :: g.code == code && Covers(subject, resource, scope)
  }

  /** A resource with a workflow state needs a rule that lists it, and one without needs that there is no rule. */
  ghost predicate StateFits(policy: Policy, code: string, resource: Resource) {
    if resource.workflowState.None? then forall rule | rule in policy.stateRules :: rule.code != code
    else exists rule | rule in policy.stateRules :: rule.code == code && resource.workflowState.value in rule.allowedStates
  }

  /** The four duties an actor can violate. */
  ghost predicate Conflicted(duties: DutyRules, code: string, actor: Id, resource: Resource) {
    || (duties.forbidSubmitterApproval && code in duties.approval && resource.submittedBy == Some(actor))
    || (duties.forbidCreatorApproval && code in duties.approval && resource.createdBy == Some(actor))
    || (duties.forbidEditorPublish && code in duties.publishing && resource.lastEditedBy == Some(actor))
    || (duties.forbidApproverPublish && code in duties.publishing && actor in resource.approvedBy)
  }

  lemma CoversIff(subject: Subject, resource: Resource, scope: DataScope)
    ensures ScopeMatches(subject, resource, scope) <==> Covers(subject, resource, scope)
  {
  }

  lemma GrantedIff(policy: Policy, subject: Subject, code: string, resource: Resource)
    ensures ScopeAllowed(subject, resource, MatchingGrants(policy.grants, code)) <==> Granted(policy, subject, code, resource)
  {
    if ScopeAllowed(subject, resource, MatchingGrants(policy.grants, code)) {
      var g :| g in MatchingGrants(policy.grants, code) && GrantMatches(subject, resource, g);
      var scope :| scope in g.scopes && ScopeMatches(subject, resource, scope);
      CoversIff(subject, resource, scope);
    }
    if Granted(policy, subject, code, resource) {
      var g, scope :| g in policy.grants && scope in g.scopes && g.code == code && Covers(subject, resource, scope);
      CoversIff(subject, resource, scope);
      assert g in MatchingGrants(policy.grants, code) && GrantMatches(subject, resource, g);
    }
  }

  lemma StateFitsIff(policy: Policy, code: string, resource: Resource)
    ensures StateAllowed(policy.stateRules, code, resource) <==> StateFits(policy, code, resource)
  {
  }

  lemma ConflictedIff(duties: DutyRules, code: string, actor: Id, resource: Resource)
    ensures ViolatesDuties(duties, code, actor, resource) <==> Conflicted(duties, code, actor, resource)
  {
  }

  /** The decision on every policy, with the first reason that applies. */
  lemma DecidedAs(policy: Option<Policy>, subject: Subject, code: string, resource: Resource)
    ensures Authorize(policy, subject, code, resource) ==
            if !WellFormed(code) then Denied(code, InvalidPermission)
            else if subject.tenant != resource.tenant then Denied(code, TenantMismatch)
            else if !(exists action: string :: code == resource.resourceType + ":" + action && IsWord(action)) then Denied(code, ResourceTypeMismatch)
            else if policy == None then Denied(code, PolicyNotFound)
            else if !policy.value.tenantActive then Denied(code, TenantInactive)
            else if !policy.value.actorActive then Denied(code, ActorInactive)
            else if forall g | g in policy.value.grants :: g.code != code then Denied(code, PermissionMissing)
            else if !StateFits(policy.value, code, resource) then Denied(code, WorkflowStateDenied)
            else if Conflicted(policy.value.duties, code, subject.actor, resource) then Denied(code, SeparationOfDuties)
            else if !Granted(policy.value, subject, code, resource) then Denied(code, DataScopeMismatch)
            else Allowed(code)
  {
    if WellFormed(code) {
      TypeOfCode(code, resource.resourceType);
    }
    if policy.Some? {
      StateFitsIff(policy.value, code, resource);
      ConflictedIff(policy.value.duties, code, subject.actor, resource);
      GrantedIff(policy.value, subject, code, resource);
    }
  }

  /** The resource type of a code is what stands before its colon. */
  lemma TypeOfCode(code: string, resourceType: string)
    requires WellFormed(code)
    ensures ResourceOf(code) == resourceType <==> exists action: string :: code == resourceType + ":" + action && IsWord(action)
  {
    CodesJoin(code);
    assert code == ResourceOf(code) + ":" + ActionOf(code);
    if exists action: string :: code == resourceType + ":" + action && IsWord(action) {
      var action: string :| code == resourceType + ":" + action && IsWord(action);
      var i := ColonAt(code);
      assert code[|resourceType|] == ':' && i <= |resourceType|;
      if i < |resourceType| {
        assert code[i + 1..][|resourceType| - i - 1] == ':';
      }
      assert code[..|resourceType|] == resourceType;
    }
  }
}

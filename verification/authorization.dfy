/** The default-deny authorization engine and the policies built from role rows
    (src/aipy/modules/authorization). */
module Authorization {
  import opened Wrappers
  import opened Filtering

  // ---- permission codes ----

  predicate IsWordStart(c: char) {
    'a' <= c <= 'z'
  }

  predicate IsWordPart(c: char) {
    IsWordStart(c) || '0' <= c <= '9' || c == '_'
  }

  /** The pattern `[a-z][a-z0-9_]*`. */
  predicate IsWord(s: string) {
    s != [] && IsWordStart(s[0]) && forall i | 0 <= i < |s| :: IsWordPart(s[i])
  }

  /** Index of the first colon, or the length when there is none. */
  function ColonAt(s: string): (i: nat)
    ensures i <= |s| && (forall k | 0 <= k < i :: s[k] != ':') && (i < |s| ==> s[i] == ':')
  {
    if s == [] || s[0] == ':' then 0 else 1 + ColonAt(s[1..])
  }

  /** `_PERMISSION_PATTERN.fullmatch`: two words joined by a colon. */
  predicate WellFormed(code: string) {
    var i := ColonAt(code);
    i < |code| && IsWord(code[..i]) && IsWord(code[i + 1..])
  }

  function ResourceOf(code: string): string
    requires WellFormed(code)
  {
    code[..ColonAt(code)]
  }

  function ActionOf(code: string): string
    requires WellFormed(code)
  {
    code[ColonAt(code) + 1..]
  }

  function CodeOf(resource: string, action: string): string {
    resource + ":" + action
  }

  // ---- policies and resources ----

  datatype CustomScope = CustomScope(workspaceIds: set<Id>, teamIds: set<Id>, resourceIds: set<Id>)

  datatype DataScope =
    | TenantAll
    | Workspace(workspaceIds: set<Id>)
    | Team(teamIds: set<Id>)
    | Assigned
    | CreatedByMe
    | Custom(custom: CustomScope)

  datatype PermissionGrant = PermissionGrant(code: string, scopes: seq<DataScope>)

  datatype StateRule = StateRule(code: string, allowedStates: set<string>)

  datatype DutyRules = DutyRules(
    approval: set<string>,
    publishing: set<string>,
    forbidSubmitterApproval: bool,
    forbidCreatorApproval: bool,
    forbidEditorPublish: bool,
    forbidApproverPublish: bool)

  const DEFAULT_DUTIES := DutyRules({"review:approve"}, {"publication:publish"}, true, true, true, false)

  datatype Policy = Policy(
    tenantActive: bool,
    actorActive: bool,
    grants: seq<PermissionGrant>,
    stateRules: seq<StateRule>,
    duties: DutyRules)

  datatype Subject = Subject(tenant: Id, actor: Id, teamIds: seq<Id>, workspaceIds: seq<Id>)

  datatype Resource = Resource(
    tenant: Id,
    resourceType: string,
    resourceId: Option<Id>,
    workspaceId: Option<Id>,
    teamId: Option<Id>,
    assignedTo: Option<Id>,
    createdBy: Option<Id>,
    submittedBy: Option<Id>,
    lastEditedBy: Option<Id>,
    approvedBy: set<Id>,
    workflowState: Option<string>)

  datatype DenialReason =
    | InvalidPermission
    | TenantMismatch
    | ResourceTypeMismatch
    | PolicyNotFound
    | TenantInactive
    | ActorInactive
    | PermissionMissing
    | WorkflowStateDenied
    | SeparationOfDuties
    | DataScopeMismatch

  datatype Decision = Allowed(code: string) | Denied(code: string, reason: DenialReason)

  // ---- the decision ----

  function MatchingGrants(grants: seq<PermissionGrant>, code: string): (r: seq<PermissionGrant>)
    ensures forall g :: g in r <==> g in grants && g.code == code
    ensures r == [] <==> forall g | g in grants :: g.code != code
  {
    var matching := Filter((g: PermissionGrant) => g.code == code, grants);
    assert matching != [] ==> matching[0] in matching;
    matching
  }

  predicate StateAllowed(rules: seq<StateRule>, code: string, resource: Resource) {
    if forall rule | rule in rules :: rule.code != code then
      resource.workflowState.None?
    else
      && resource.workflowState.Some?
      && exists rule | rule in rules :: rule.code == code && resource.workflowState.value in rule.allowedStates
  }

  predicate ViolatesDuties(duties: DutyRules, code: string, actor: Id, resource: Resource) {
    || (code in duties.approval &&
        ((duties.forbidSubmitterApproval && resource.submittedBy == Some(actor)) ||
         (duties.forbidCreatorApproval && resource.createdBy == Some(actor))))
    || (code in duties.publishing &&
        ((duties.forbidEditorPublish && resource.lastEditedBy == Some(actor)) ||
         (duties.forbidApproverPublish && actor in resource.approvedBy)))
  }

  predicate ScopeMatches(subject: Subject, resource: Resource, scope: DataScope) {
    match scope
    case TenantAll => true
    case Workspace(ids) =>
      resource.workspaceId.Some? &&
      (if ids != {} then resource.workspaceId.value in ids else resource.workspaceId.value in subject.workspaceIds)
    case Team(ids) =>
      resource.teamId.Some? &&
      (if ids != {} then resource.teamId.value in ids else resource.teamId.value in subject.teamIds)
    case Assigned => resource.assignedTo == Some(subject.actor)
    case CreatedByMe => resource.createdBy == Some(subject.actor)
    case Custom(c) =>
      && (c.workspaceIds == {} || (resource.workspaceId.Some? && resource.workspaceId.value in c.workspaceIds))
      && (c.teamIds == {} || (resource.teamId.Some? && resource.teamId.value in c.teamIds))
      && (c.resourceIds == {} || (resource.resourceId.Some? && resource.resourceId.value in c.resourceIds))
  }

  predicate GrantMatches(subject: Subject, resource: Resource, grant: PermissionGrant) {
    exists scope | scope in grant.scopes :: ScopeMatches(subject, resource, scope)
  }

  predicate ScopeAllowed(subject: Subject, resource: Resource, grants: seq<PermissionGrant>) {
    exists g | g in grants :: GrantMatches(subject, resource, g)
  }

  /** `AuthorizationService.authorize`, given what `get_policy` returned for the subject. */
  function Authorize(policy: Option<Policy>, subject: Subject, code: string, resource: Resource): (d: Decision)
    ensures d.code == code
  {
    if !WellFormed(code) then Denied(code, InvalidPermission)
    else if subject.tenant != resource.tenant then Denied(code, TenantMismatch)
    else if ResourceOf(code) != resource.resourceType then Denied(code, ResourceTypeMismatch)
    else if policy.None? then Denied(code, PolicyNotFound)
    else if !policy.value.tenantActive then Denied(code, TenantInactive)
    else if !policy.value.actorActive then Denied(code, ActorInactive)
    else
      var grants := MatchingGrants(policy.value.grants, code);
      if grants == [] then Denied(code, PermissionMissing)
      else if !StateAllowed(policy.value.stateRules, code, resource) then Denied(code, WorkflowStateDenied)
      else if ViolatesDuties(policy.value.duties, code, subject.actor, resource) then Denied(code, SeparationOfDuties)
      else if !ScopeAllowed(subject, resource, grants) then Denied(code, DataScopeMismatch)
      else Allowed(code)
  }

  // ---- policies from role rows ----

  /** What `get_policy` reads; `codes` are the role's permission rows and `fallback` those of the job title. */
  datatype MemberRecords = MemberRecords(
    tenantActive: bool,
    membershipActive: bool,
    userActive: bool,
    codes: seq<string>,
    fallback: seq<string>)

  function ResolveCodes(codes: seq<string>, fallback: seq<string>): seq<string> {
    if codes != [] then codes else fallback
  }

  /** First occurrences, in order: the keys of `dict.fromkeys`. */
  function FirstOccurrences(codes: seq<string>): (r: seq<string>)
    ensures forall c :: c in r <==> c in codes
    ensures forall i, j | 0 <= i < j < |r| :: r[i] != r[j]
  {
    if codes == [] then []
    else
      var earlier := FirstOccurrences(codes[..|codes| - 1]);
      var last := codes[|codes| - 1];
      if last in earlier then earlier else earlier + [last]
  }

  function GrantsFor(codes: seq<string>): (r: seq<PermissionGrant>)
    ensures forall g :: g in r <==> g.code in codes && WellFormed(g.code) && g.scopes == [TenantAll]
  {
    if codes == [] then []
    else
      var earlier := GrantsFor(codes[..|codes| - 1]);
      var last := codes[|codes| - 1];
      assert forall c :: c in codes <==> c in codes[..|codes| - 1] || c == last;
      if WellFormed(last) then earlier + [PermissionGrant(last, [TenantAll])] else earlier
  }

  /** `_grants`, as the loop it is. */
  method BuildGrants(codes: seq<string>) returns (grants: seq<PermissionGrant>)
    ensures grants == GrantsFor(FirstOccurrences(codes))
  {
    var keys := FirstOccurrences(codes);
    grants := [];
    for i := 0 to |keys|
      invariant grants == GrantsFor(keys[..i])
    {
      assert keys[..i + 1][..|keys[..i + 1]| - 1] == keys[..i];
      if WellFormed(keys[i]) {
        grants := grants + [PermissionGrant(keys[i], [TenantAll])];
      }
    }
    assert keys[..|keys|] == keys;
  }

  function GetPolicy(records: Option<MemberRecords>): Option<Policy> {
    match records
    case None => None
    case Some(r) =>
      Some(Policy(r.tenantActive, r.membershipActive && r.userActive,
                  GrantsFor(FirstOccurrences(ResolveCodes(r.codes, r.fallback))), [], DEFAULT_DUTIES))
  }

  // ---- properties ----

  lemma {:induction false} ColonAtJoin(word: string, rest: string)
    requires forall i | 0 <= i < |word| :: word[i] != ':'
    ensures ColonAt(word + ":" + rest) == |word|
  {
    if word == [] {
      assert ([] + ":" + rest)[0] == ':';
    } else {
      assert (word + ":" + rest)[1..] == word[1..] + ":" + rest;
      ColonAtJoin(word[1..], rest);
    }
  }

  /** Joining two words is a well-formed code whose halves are the words, and every well-formed code arises so. */
  lemma CodesSplit(resource: string, action: string)
    requires IsWord(resource) && IsWord(action)
    ensures WellFormed(CodeOf(resource, action))
    ensures ResourceOf(CodeOf(resource, action)) == resource && ActionOf(CodeOf(resource, action)) == action
  {
    ColonAtJoin(resource, action);
    var code := CodeOf(resource, action);
    assert code[..|resource|] == resource && code[|resource| + 1..] == action;
  }

  lemma CodesJoin(code: string)
    requires WellFormed(code)
    ensures CodeOf(ResourceOf(code), ActionOf(code)) == code && IsWord(ResourceOf(code)) && IsWord(ActionOf(code))
  {
  }

  /** Built grants match a code when it is listed and well formed, and then their scope always matches. */
  lemma BuiltGrantsMatch(codes: seq<string>, subject: Subject, code: string, resource: Resource)
    ensures var grants := MatchingGrants(GrantsFor(FirstOccurrences(codes)), code);
            (grants != [] <==> WellFormed(code) && code in codes) &&
            (grants != [] ==> ScopeAllowed(subject, resource, grants))
  {
    var built := GrantsFor(FirstOccurrences(codes));
    var g := PermissionGrant(code, [TenantAll]);
    if WellFormed(code) && code in codes {
      assert g in built;
      assert TenantAll in g.scopes && ScopeMatches(subject, resource, TenantAll);
      assert g in MatchingGrants(built, code) && GrantMatches(subject, resource, g);
    }
  }

  /** On policies built from role rows the engine comes down to one flat condition. */
  lemma BuiltPolicyVerdict(r: MemberRecords, subject: Subject, code: string, resource: Resource)
    ensures Authorize(GetPolicy(Some(r)), subject, code, resource).Allowed? <==>
            && WellFormed(code) && code in (if r.codes == [] then r.fallback else r.codes)
            && subject.tenant == resource.tenant && ResourceOf(code) == resource.resourceType
            && r.tenantActive && r.membershipActive && r.userActive
            && resource.workflowState.None?
            && (code == "review:approve" ==> resource.submittedBy != Some(subject.actor) && resource.createdBy != Some(subject.actor))
            && (code == "publication:publish" ==> resource.lastEditedBy != Some(subject.actor))
  {
    BuiltGrantsMatch(ResolveCodes(r.codes, r.fallback), subject, code, resource);
  }

  /** Allowed means that no duty rule of the policy is violated. */
  lemma AllowedIsDutiful(policy: Option<Policy>, subject: Subject, code: string, resource: Resource)
    requires Authorize(policy, subject, code, resource).Allowed?
    ensures policy.Some? && !ViolatesDuties(policy.value.duties, code, subject.actor, resource)
  {
  }

  /** So under the default rules nobody may approve what they created, whatever their role lists. */
  lemma ApprovalNeedsAnother(records: Option<MemberRecords>, subject: Subject, code: string, resource: Resource)
    requires code in DEFAULT_DUTIES.approval
    requires Authorize(GetPolicy(records), subject, code, resource).Allowed?
    ensures resource.createdBy != Some(subject.actor)
  {
    AllowedIsDutiful(GetPolicy(records), subject, code, resource);
  }

  lemma ApprovalCode()
    ensures CodeOf("review", "approve") in DEFAULT_DUTIES.approval
  {
    assert CodeOf("review", "approve") == "review:approve";
  }

  /** So the verdict sees the code list only as a set: order, duplicates and malformed entries do not matter ... */
  lemma VerdictIgnoresListShape(r: MemberRecords, codes: seq<string>, subject: Subject, code: string, resource: Resource)
    requires r.codes != [] && codes != []
    requires forall c :: WellFormed(c) ==> (c in r.codes <==> c in codes)
    ensures Authorize(GetPolicy(Some(r)), subject, code, resource).Allowed? <==>
            Authorize(GetPolicy(Some(r.(codes := codes))), subject, code, resource).Allowed?
  {
    BuiltPolicyVerdict(r, subject, code, resource);
    BuiltPolicyVerdict(r.(codes := codes), subject, code, resource);
  }

  /** ... and a union of two lists allows exactly what either allows. */
  lemma UnionAllowsEither(r: MemberRecords, more: seq<string>, subject: Subject, code: string, resource: Resource)
    requires r.codes != [] && more != []
    ensures Authorize(GetPolicy(Some(r.(codes := r.codes + more))), subject, code, resource).Allowed? <==>
            Authorize(GetPolicy(Some(r)), subject, code, resource).Allowed? ||
            Authorize(GetPolicy(Some(r.(codes := more))), subject, code, resource).Allowed?
  {
    BuiltPolicyVerdict(r.(codes := r.codes + more), subject, code, resource);
    BuiltPolicyVerdict(r, subject, code, resource);
    BuiltPolicyVerdict(r.(codes := more), subject, code, resource);
  }

  /** Every grant of `grants` has a counterpart in `more` with at least its scopes. */
  predicate CoveredBy(grants: seq<PermissionGrant>, more: seq<PermissionGrant>) {
    forall g | g in grants ::
      exists h | h in more :: h.code == g.code && forall scope | scope in g.scopes :: scope in h.scopes
  }

  lemma MoreGrantsKeepScope(grants: seq<PermissionGrant>, more: seq<PermissionGrant>, subject: Subject, code: string, resource: Resource)
    requires CoveredBy(grants, more)
    requires ScopeAllowed(subject, resource, MatchingGrants(grants, code))
    ensures ScopeAllowed(subject, resource, MatchingGrants(more, code))
  {
  }

  /** For arbitrary policies, more grants (and more scopes within them) never turn allow into deny. */
  lemma MoreGrantsKeepAllow(policy: Policy, more: seq<PermissionGrant>, subject: Subject, code: string, resource: Resource)
    requires CoveredBy(policy.grants, more)
    requires Authorize(Some(policy), subject, code, resource).Allowed?
    ensures Authorize(Some(policy.(grants := more)), subject, code, resource).Allowed?
  {
    assert StateAllowed(policy.stateRules, code, resource);
    assert !ViolatesDuties(policy.duties, code, subject.actor, resource);
    MoreGrantsKeepScope(policy.grants, more, subject, code, resource);
    assert MatchingGrants(more, code) != [];
  }
}

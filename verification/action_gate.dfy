/** The two places that ask the engine about a board row: the actions offered with it, and the check made
    when one of them is performed (apps/api/repositories.py). */
module ActionGate {
  import opened Wrappers
  import opened Authorization
  import opened Filtering

  /** What authorization looks at in a row; only human tasks have an assignee. */
  datatype BoardRow = BoardRow(id: Id, createdBy: Option<Id>, assignee: Option<Id>)

  function RowResource(subject: Subject, resourceType: string, row: BoardRow, assignedTo: Option<Id>): Resource {
    Resource(subject.tenant, resourceType, Some(row.id), None, None, assignedTo, row.createdBy, None, None, {}, None)
  }

  /** `_require_permission`: the decision whose denial becomes a 403. */
  function RequirePermission(policy: Option<Policy>, subject: Subject, resourceType: string, action: string, row: BoardRow): Decision {
    Authorize(policy, subject, CodeOf(resourceType, action), RowResource(subject, resourceType, row, row.assignee))
  }

  /** One candidate of `_allowed_actions`, whose context carries no assignee. */
  predicate Offers(policy: Option<Policy>, subject: Subject, resourceType: string, action: string, row: BoardRow) {
    Authorize(policy, subject, CodeOf(resourceType, action), RowResource(subject, resourceType, row, None)).Allowed?
  }

  /** `_allowed_actions` over a list of candidate names. */
  function AllowedActions(policy: Option<Policy>, subject: Subject, resourceType: string, candidates: seq<string>, row: BoardRow): (r: seq<string>)
    ensures forall a :: a in r <==> a in candidates && Offers(policy, subject, resourceType, a, row)
  {
    Filter((action: string) => Offers(policy, subject, resourceType, action, row), candidates)
  }

  /** Each candidate is offered or left out where it stands: the list keeps the order of the candidates. */
  lemma OfferedInOrder(policy: Option<Policy>, subject: Subject, resourceType: string, before: seq<string>, action: string, after: seq<string>, row: BoardRow)
    ensures AllowedActions(policy, subject, resourceType, before + [action] + after, row) ==
            AllowedActions(policy, subject, resourceType, before, row) +
            (if Offers(policy, subject, resourceType, action, row) then [action] else []) +
            AllowedActions(policy, subject, resourceType, after, row)
  {
    FilterAround((name: string) => Offers(policy, subject, resourceType, name, row), before, action, after);
  }

  /** What the engine is told: the check sends the assignee, the offer does not, and neither a workflow state. */
  lemma GateContexts(policy: Option<Policy>, subject: Subject, resourceType: string, action: string, row: BoardRow)
    ensures RequirePermission(policy, subject, resourceType, action, row) ==
            Authorize(policy, subject, resourceType + ":" + action,
                      Resource(subject.tenant, resourceType, Some(row.id), None, None, row.assignee, row.createdBy, None, None, {}, None))
    ensures Offers(policy, subject, resourceType, action, row) <==>
            Authorize(policy, subject, resourceType + ":" + action,
                      Resource(subject.tenant, resourceType, Some(row.id), None, None, None, row.createdBy, None, None, {}, None)).Allowed?
  {
  }

  predicate GrantsAssigned(policy: Option<Policy>, code: string) {
    policy.Some? && exists g | g in policy.value.grants :: g.code == code && Assigned in g.scopes
  }

  /** For every policy: performing an action succeeds where it is offered, and also where only the data scope
      stopped the offer, a grant for it has the ASSIGNED scope, and the row is assigned to the caller. */
  lemma AcceptedIff(policy: Option<Policy>, subject: Subject, resourceType: string, action: string, row: BoardRow)
    ensures RequirePermission(policy, subject, resourceType, action, row).Allowed? <==>
            || Offers(policy, subject, resourceType, action, row)
            || (Authorize(policy, subject, CodeOf(resourceType, action), RowResource(subject, resourceType, row, None)) ==
                Denied(CodeOf(resourceType, action), DataScopeMismatch) &&
                GrantsAssigned(policy, CodeOf(resourceType, action)) && row.assignee == Some(subject.actor))
  {
  }

  /** Whatever is offered is accepted on the same row, under every policy. */
  lemma OfferedIsAccepted(policy: Option<Policy>, subject: Subject, resourceType: string, candidates: seq<string>, action: string, row: BoardRow)
    requires action in AllowedActions(policy, subject, resourceType, candidates, row)
    ensures RequirePermission(policy, subject, resourceType, action, row) == Allowed(CodeOf(resourceType, action))
  {
  }

  /** Under every policy built from role rows the board offers exactly the candidates it would accept. */
  lemma BuiltPoliciesOfferAll(records: Option<MemberRecords>, subject: Subject, resourceType: string, candidates: seq<string>, action: string, row: BoardRow)
    requires action in candidates
    ensures action in AllowedActions(GetPolicy(records), subject, resourceType, candidates, row) <==>
            RequirePermission(GetPolicy(records), subject, resourceType, action, row).Allowed?
  {
    AcceptedIff(GetPolicy(records), subject, resourceType, action, row);
  }

  /** What the check on a board row comes to for a member with role rows: active all round, the code among the
      member's, and no approval of what one created. */
  lemma BoardVerdict(r: MemberRecords, subject: Subject, resourceType: string, action: string, row: BoardRow)
    requires IsWord(resourceType)
    ensures RequirePermission(GetPolicy(Some(r)), subject, resourceType, action, row).Allowed? <==>
            && IsWord(action) && CodeOf(resourceType, action) in (if r.codes == [] then r.fallback else r.codes)
            && r.tenantActive && r.membershipActive && r.userActive
            && (CodeOf(resourceType, action) == "review:approve" ==> row.createdBy != Some(subject.actor))
  {
    var code := CodeOf(resourceType, action);
    BuiltPolicyVerdict(r, subject, code, RowResource(subject, resourceType, row, row.assignee));
    WordHasNoColon(resourceType);
    ColonAtJoin(resourceType, action);
    assert code[..|resourceType|] == resourceType && code[|resourceType| + 1..] == action;
  }

  lemma WordHasNoColon(word: string)
    requires IsWord(word)
    ensures forall i | 0 <= i < |word| :: word[i] != ':'
  {
  }
}

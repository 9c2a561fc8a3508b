/** The transition and display tables for content runs and human tasks
    (src/aipy/modules/content/state_machine.py). */
module StateMachine {
  import opened Wrappers

  datatype ContentStatus = Draft | Running | WaitingHuman | Paused | Failed | Completed | Cancelled

  datatype TaskStatus = Open | Claimed | Completed | Cancelled | Expired

  datatype TaskDecision = APPROVE | EDIT_AND_APPROVE | REJECT | REQUEST_REWORK | SKIP

  /** Action names a client may send on a run; `OtherRunAction` is every string the source does not know. */
  datatype RunAction = Pause | Resume | Rerun | Cancel | Export | Collect | OtherRunAction

  datatype TaskAction = Claim | Reassign | Submit | Approve | Reject | Assign | OtherTaskAction

  datatype Transition<S> = Transition(status: S, statusLabel: string, tone: string, decision: Option<TaskDecision>)

  const CONTENT_TRANSITIONS: map<RunAction, (set<ContentStatus>, ContentStatus)> :=
    map[
      Pause := ({Running, WaitingHuman}, Paused),
      Resume := ({Paused}, Running),
      Rerun := ({Failed, ContentStatus.Completed}, Running),
      Cancel := ({Draft, Running, WaitingHuman, Paused, Failed}, ContentStatus.Cancelled)
    ]

  const TASK_TRANSITIONS: map<TaskAction, (set<TaskStatus>, TaskStatus)> :=
    map[
      Claim := ({Open}, Claimed),
      Reassign := ({Open, Claimed}, Open),
      Submit := ({Claimed}, TaskStatus.Completed),
      Approve := ({Open, Claimed}, TaskStatus.Completed),
      Reject := ({Open, Claimed}, TaskStatus.Completed)
    ]

  const TASK_DECISIONS: map<TaskAction, TaskDecision> :=
    map[Approve := APPROVE, Submit := EDIT_AND_APPROVE, Reject := REJECT]

  function ContentDisplay(status: ContentStatus): (string, string) {
    match status
    case Draft => ("草稿", "neutral")
    case Running => ("运行中", "info")
    case WaitingHuman => ("等待人工", "warning")
    case Paused => ("已暂停", "warning")
    case Failed => ("需要处理", "danger")
    case Completed => ("已完成", "success")
    case Cancelled => ("已取消", "neutral")
  }

  function TaskDisplay(status: TaskStatus): (string, string) {
    match status
    case Open => ("待领取", "warning")
    case Claimed => ("处理中", "info")
    case Completed => ("已处理", "success")
    case Cancelled => ("已撤销", "neutral")
    case Expired => ("已超时", "danger")
  }

  function PlanContentTransition(action: RunAction, current: ContentStatus): Option<Transition<ContentStatus>> {
    if action !in CONTENT_TRANSITIONS || current !in CONTENT_TRANSITIONS[action].0 then
      None
    else
      var target := CONTENT_TRANSITIONS[action].1;
      var (statusLabel, tone) := ContentDisplay(target);
      Some(Transition(target, statusLabel, tone, None))
  }

  function PlanTaskTransition(action: TaskAction, current: TaskStatus): Option<Transition<TaskStatus>> {
    if action !in TASK_TRANSITIONS || current !in TASK_TRANSITIONS[action].0 then
      None
    else
      var target := TASK_TRANSITIONS[action].1;
      var (statusLabel, tone) := TaskDisplay(target);
      var decision := if action in TASK_DECISIONS then Some(TASK_DECISIONS[action]) else None;
      Some(Transition(target, statusLabel, tone, decision))
  }

  /** The arrows section 4.2 of docs/02-workflow-state-machine.md draws between run states. */
  predicate DesignAllows(from: ContentStatus, to: ContentStatus) {
    match from
    case Draft => to == Running
    case Running => to in {WaitingHuman, Paused, ContentStatus.Completed, Failed, ContentStatus.Cancelled}
    case WaitingHuman => to in {Running, Paused, Failed, ContentStatus.Cancelled}
    case Paused => to in {Running, ContentStatus.Cancelled}
    case Failed => to in {Running, ContentStatus.Cancelled}
    case Completed => false
    case Cancelled => false
  }

  /** Of the transitions a request can plan, exactly two leave the documented state graph. What a run really goes
      through also has the worker's writes in it; see `ContentProtocol.HistoryFollowsDesignIff`. */
  lemma PlansFollowDesignExcept(action: RunAction, current: ContentStatus)
    requires PlanContentTransition(action, current).Some?
    ensures DesignAllows(current, PlanContentTransition(action, current).value.status) <==>
            !((action == Rerun && current == ContentStatus.Completed) || (action == Cancel && current == Draft))
  {
  }

  /** A planned transition always changes the status of a run, and never out of CANCELLED. */
  lemma PlansMoveTheRun(action: RunAction, current: ContentStatus)
    requires PlanContentTransition(action, current).Some?
    ensures PlanContentTransition(action, current).value.status != current
    ensures current != ContentStatus.Cancelled
  {
  }
}

/** The candidate's own application page (`MyApplications.jsx`): the overall
    badge of the assigned workflow, the per-task badge, and the stage rows
    that expand to show their tasks. */
module MyApplications {
  import opened Common
  import opened Badges

  datatype Workflow = Workflow(name: string, stages: Option<seq<Stage>>)

  /** The candidate's assignment; its workflow may be missing. */
  datatype CandidateAssignment = CandidateAssignment(workflow: Option<Workflow>)

  /** `assignment.workflow?.stages`, as handed to the classifier. */
  function WorkflowStages(a: CandidateAssignment): Option<seq<Stage>> {
    if a.workflow.None? then None else a.workflow.value.stages
  }

  /** The badge and the stage rows the page shows: a missing workflow or
      stage list shows 'Başlamadı' over an empty list; otherwise the rows are
      the workflow's stages in order. */
  function CandidateView(a: CandidateAssignment): (v: (Badge, seq<Stage>))
    ensures WorkflowStages(a).None? ==> v == (NotStarted, [])
    ensures WorkflowStages(a).Some? ==> v.1 == WorkflowStages(a).value
    ensures v.0 == NotStarted <==> |v.1| == 0
    ensures v.0 == StatusBadge(Some(v.1))
  {
    var stages := WorkflowStages(a);
    (StatusBadge(stages), stages.GetOr([]))
  }

  datatype TaskBadge = TaskDone | TaskRejected | TaskWaiting {
    function Text(): string {
      match this
      case TaskDone => "Tamamlandı"
      case TaskRejected => "Reddedildi"
      case TaskWaiting => "Beklemede"
    }
  }

  /** `getTaskStatusBadge`: approved tasks are done, denied ones rejected, and
      every other status, known or not, is waiting. */
  function TaskStatusBadge(status: string): (b: TaskBadge)
    ensures b == TaskDone <==> status == Approved
    ensures b == TaskRejected <==> status == Denied
    ensures b == TaskWaiting <==> status != Approved && status != Denied
  {
    if status == Approved then TaskDone
    else if status == Denied then TaskRejected
    else TaskWaiting
  }

  /** The task badge and the stage icon split statuses the same way. */
  lemma TaskBadgeAgreesWithIcon(status: string)
    ensures TaskStatusBadge(status) == TaskDone <==> StageStatusIcon(status) == CheckIcon
    ensures TaskStatusBadge(status) == TaskRejected <==> StageStatusIcon(status) == CrossIcon
    ensures TaskStatusBadge(status) == TaskWaiting <==> StageStatusIcon(status) == ClockIcon
  {
  }

  /** `hasTasks`: the stage has a task list and it is not empty. */
  predicate HasTasks(st: Stage) {
    st.tasks.Some? && |st.tasks.value| > 0
  }

  /** A click on a stage row: `hasTasks && toggleStage(stage.id)`. */
  function ClickStage(expanded: map<int, bool>, st: Stage): (r: map<int, bool>)
    ensures !HasTasks(st) ==> r == expanded
    ensures HasTasks(st) ==> (IsOn(r, st.id) <==> !IsOn(expanded, st.id))
    ensures forall k :: k != st.id ==> (IsOn(r, k) <==> IsOn(expanded, k))
  {
    if HasTasks(st) then Toggle(expanded, st.id) else expanded
  }

  /** The task list under a stage is shown when the stage has tasks and its
      flag is on. */
  predicate ShowsTasks(expanded: map<int, bool>, st: Stage) {
    HasTasks(st) && IsOn(expanded, st.id)
  }

  /** A stage without tasks never shows a task list, however often it is
      clicked; a stage with tasks opens and closes on alternate clicks. */
  lemma {:induction false} ClicksOnStage(expanded: map<int, bool>, st: Stage, clicks: nat)
    ensures ShowsTasks(ClickStageTimes(expanded, st, clicks), st) <==>
              HasTasks(st) && (IsOn(expanded, st.id) != (clicks % 2 == 1))
  {
    if clicks > 0 {
      ClicksOnStage(expanded, st, clicks - 1);
    }
  }

  function ClickStageTimes(expanded: map<int, bool>, st: Stage, clicks: nat): map<int, bool> {
    if clicks == 0 then expanded else ClickStage(ClickStageTimes(expanded, st, clicks - 1), st)
  }
}

/** The task creation form (`TaskCreateModal.jsx`): its initial state, the
    shared change handler, and the validation and normalisation done before
    the task is sent to the backend. */
module TaskForm {
  import opened Common

  const FileUpload := "FILE_UPLOAD"
  const CaseAssignment := "CASE_ASSIGNMENT"
  const Checkbox := "checkbox"

  datatype Field = TaskType | Title | Description | Deadline | ScheduledDate | CaseContent | IsRequired

  /** `formData`; `taskType` is the `type` key. Dates are the raw
      `datetime-local` strings. */
  datatype Form = Form(
    taskType: string,
    title: string,
    description: string,
    deadline: string,
    scheduledDate: string,
    caseContent: string,
    isRequired: bool)

  /** The value held under one key of `formData`. */
  datatype Value = Text(s: string) | Flag(b: bool)

  function Get(f: Form, k: Field): Value {
    match k
    case TaskType => Text(f.taskType)
    case Title => Text(f.title)
    case Description => Text(f.description)
    case Deadline => Text(f.deadline)
    case ScheduledDate => Text(f.scheduledDate)
    case CaseContent => Text(f.caseContent)
    case IsRequired => Flag(f.isRequired)
  }

  /** The state the modal opens with. */
  const InitialForm := Form(FileUpload, "", "", "", "", "", true)

  lemma InitialFormFields()
    ensures Get(InitialForm, TaskType) == Text(FileUpload)
    ensures Get(InitialForm, IsRequired) == Flag(true)
    ensures forall k :: k != TaskType && k != IsRequired ==> Get(InitialForm, k) == Text("")
  {
  }

  /** The change event of one input: `name`, `type`, `value`, `checked`. */
  datatype InputEvent = InputEvent(name: Field, inputType: string, value: string, checked: bool)

  /** The form's markup binds `isRequired` to its only checkbox and every
      other key to a radio, text, textarea or date input. */
  predicate Wired(e: InputEvent) {
    e.inputType == Checkbox <==> e.name == IsRequired
  }

  /** `handleInputChange`: the named key gets `checked` for a checkbox and
      `value` otherwise; no other key changes. */
  function HandleInputChange(f: Form, e: InputEvent): (r: Form)
    requires Wired(e)
    ensures Get(r, e.name) == (if e.inputType == Checkbox then Flag(e.checked) else Text(e.value))
    ensures forall k :: k != e.name ==> Get(r, k) == Get(f, k)
  {
    match e.name
    case TaskType => f.(taskType := e.value)
    case Title => f.(title := e.value)
    case Description => f.(description := e.value)
    case Deadline => f.(deadline := e.value)
    case ScheduledDate => f.(scheduledDate := e.value)
    case CaseContent => f.(caseContent := e.value)
    case IsRequired => f.(isRequired := e.checked)
  }

  /** Two changes of the same input keep only the later one. */
  lemma LaterChangeWins(f: Form, e1: InputEvent, e2: InputEvent)
    requires Wired(e1) && Wired(e2) && e1.name == e2.name
    ensures HandleInputChange(HandleInputChange(f, e1), e2) == HandleInputChange(f, e2)
  {
  }

  /** Changes of different inputs commute. */
  lemma ChangesCommute(f: Form, e1: InputEvent, e2: InputEvent)
    requires Wired(e1) && Wired(e2) && e1.name != e2.name
    ensures HandleInputChange(HandleInputChange(f, e1), e2) == HandleInputChange(HandleInputChange(f, e2), e1)
  {
  }

  datatype SubmitError = TitleRequired | CaseContentRequired

  /** The body sent to `taskAPI.createTask`; None is `undefined`. */
  datatype Payload = Payload(
    taskType: string,
    title: string,
    description: Option<string>,
    caseContent: Option<string>,
    deadline: Option<string>,
    scheduledDate: Option<string>,
    isRequired: bool)

  /** `s.trim() || undefined` */
  function TrimmedOrAbsent(s: string): Option<string> {
    if IsBlank(s) then None else Some(Trim(s))
  }

  /** `s || undefined` */
  function NonEmptyOrAbsent(s: string): Option<string> {
    if s == "" then None else Some(s)
  }

  /** `handleSubmit`: a blank title is refused first; a case assignment with
      blank content is refused next; otherwise the payload carries the
      trimmed texts, with empty optional fields left out. */
  function Submit(f: Form): (r: Result<Payload, SubmitError>)
    ensures r == Err(TitleRequired) <==> IsBlank(f.title)
    ensures r == Err(CaseContentRequired) <==>
              !IsBlank(f.title) && f.taskType == CaseAssignment && IsBlank(f.caseContent)
    ensures r.Ok? ==>
              && r.value.title == Trim(f.title) && r.value.title != ""
              && r.value.taskType == f.taskType
              && r.value.isRequired == f.isRequired
              && (r.value.description.None? <==> AllSpace(f.description))
              && (r.value.description.Some? ==> r.value.description.value == Trim(f.description))
              && (r.value.caseContent.None? <==> AllSpace(f.caseContent))
              && (r.value.caseContent.Some? ==> r.value.caseContent.value == Trim(f.caseContent))
              && (r.value.deadline.None? <==> f.deadline == "")
              && (r.value.deadline.Some? ==> r.value.deadline.value == f.deadline)
              && (r.value.scheduledDate.None? <==> f.scheduledDate == "")
              && (r.value.scheduledDate.Some? ==> r.value.scheduledDate.value == f.scheduledDate)
  {
    BlankIffAllSpace(f.description);
    BlankIffAllSpace(f.caseContent);
    if IsBlank(f.title) then Err(TitleRequired)
    else if f.taskType == CaseAssignment && IsBlank(f.caseContent) then Err(CaseContentRequired)
    else Ok(Payload(
      f.taskType,
      Trim(f.title),
      TrimmedOrAbsent(f.description),
      TrimmedOrAbsent(f.caseContent),
      NonEmptyOrAbsent(f.deadline),
      NonEmptyOrAbsent(f.scheduledDate),
      f.isRequired))
  }

  /** The form a payload would be typed back into. */
  function FormOf(p: Payload): Form {
    Form(p.taskType, p.title, p.description.GetOr(""), p.deadline.GetOr(""),
         p.scheduledDate.GetOr(""), p.caseContent.GetOr(""), p.isRequired)
  }

  /** An optional text field read back from the payload normalises to the
      same value. */
  lemma TrimmedOrAbsentStable(s: string)
    ensures TrimmedOrAbsent(TrimmedOrAbsent(s).GetOr("")) == TrimmedOrAbsent(s)
  {
    TrimIdempotent(s);
  }

  /** Normalisation is stable: submitting the form a payload describes gives
      that payload back. */
  lemma SubmitNormalises(f: Form)
    ensures Submit(f).Ok? ==> Submit(FormOf(Submit(f).value)) == Submit(f)
  {
    if Submit(f).Ok? {
      var p := Submit(f).value;
      var g := FormOf(p);
      TrimIdempotent(f.title);
      assert !IsBlank(g.title);
      TrimmedOrAbsentStable(f.description);
      TrimmedOrAbsentStable(f.caseContent);
      assert g.taskType == CaseAssignment ==> !IsBlank(g.caseContent);
    }
  }
}

/** The workflow creation modal (`CreateWorkflowButton.jsx`): the checks run
    before `workflowAPI.create` and the body it is sent. The stage rows are
    edited with the operations of `StageList`. */
module CreateWorkflow {
  import opened Common
  import opened StageList

  const NameRequired := "Şablon adı gerekli!"
  const StageNamesRequired := "Aşama adları boş olamaz!"

  /** A toast the modal shows instead of calling the backend. */
  datatype Notice = ErrorToast(message: string) | SuccessToast(message: string)

  /** `stages.some(s => !s.name.trim())` */
  predicate SomeBlankStage(s: seq<StageDraft>) {
    exists i :: 0 <= i < |s| && IsBlank(s[i].name)
  }

  /** `handleCreateWorkflow` as the modal has it: a blank template name is an
      error toast, but a blank stage name is reported with `toast.success`. */
  function HandleCreateAsWritten(name: string, s: seq<StageDraft>): (r: Result<WorkflowPayload, Notice>)
    ensures r == Err(ErrorToast(NameRequired)) <==> IsBlank(name)
    ensures r == Err(SuccessToast(StageNamesRequired)) <==> !IsBlank(name) && SomeBlankStage(s)
    ensures r.Ok? ==> r.value == PayloadOf(name, s)
  {
    if IsBlank(name) then Err(ErrorToast(NameRequired))
    else if SomeBlankStage(s) then Err(SuccessToast(StageNamesRequired))
    else Ok(PayloadOf(name, s))
  }

  /** A named template with one unnamed stage is refused, and the refusal is
      shown as a success toast. */
  lemma BlankStageReportedAsSuccess()
    ensures HandleCreateAsWritten("Hiring", Initial) == Err(SuccessToast(StageNamesRequired))
  {
    assert Initial[0].name == "";
    assert !IsBlank("Hiring") by {
      assert "Hiring"[0] == 'H' && !IsSpace('H');
      assert !AllSpace("Hiring");
      BlankIffAllSpace("Hiring");
    }
  }

  /** `handleCreateWorkflow` with both refusals shown as errors. Either blank
      field aborts before the API call; otherwise the body is the name as
      typed (untrimmed) and every stage name in list order, none blank. */
  function HandleCreate(name: string, s: seq<StageDraft>): (r: Result<WorkflowPayload, Notice>)
    ensures r.Err? <==> IsBlank(name) || SomeBlankStage(s)
    ensures r.Err? ==> r.error.ErrorToast?
    ensures r.Err? ==> (r.error.message == NameRequired <==> IsBlank(name))
    ensures r.Ok? ==> r.value.name == name && !IsBlank(r.value.name)
    ensures r.Ok? ==> |r.value.stages| == |s|
    ensures r.Ok? ==> forall i :: 0 <= i < |s| ==> r.value.stages[i] == s[i].name && !IsBlank(r.value.stages[i])
  {
    if IsBlank(name) then Err(ErrorToast(NameRequired))
    else if SomeBlankStage(s) then Err(ErrorToast(StageNamesRequired))
    else Ok(PayloadOf(name, s))
  }

  /** The correction changes nothing but the kind of toast: the same inputs
      are accepted, with the same body, and refused with the same message. */
  lemma CorrectionOnlyChangesToast(name: string, s: seq<StageDraft>)
    ensures HandleCreate(name, s).Ok? <==> HandleCreateAsWritten(name, s).Ok?
    ensures HandleCreate(name, s).Ok? ==> HandleCreate(name, s) == HandleCreateAsWritten(name, s)
    ensures HandleCreate(name, s).Err? ==>
              HandleCreate(name, s).error.message == HandleCreateAsWritten(name, s).error.message
  {
  }

  /** The freshly opened modal has one empty stage row, so it refuses to
      create until that row is named. */
  lemma InitialRowMustBeNamed(name: string)
    ensures HandleCreate(name, Initial).Err?
  {
    assert Initial[0].name == "";
    assert IsBlank(Initial[0].name);
  }

  /** An accepted body, typed back into the modal, is accepted again with
      the same body. */
  lemma AcceptedPayloadRoundTrips(name: string, s: seq<StageDraft>)
    requires HandleCreate(name, s).Ok?
    ensures HandleCreate(HandleCreate(name, s).value.name, Drafts(HandleCreate(name, s).value.stages)) == HandleCreate(name, s)
  {
    var p := HandleCreate(name, s).value;
    NamesDraftsRoundTrip(p.stages, s);
    assert Drafts(p.stages) == s;
  }
}

/** The workflow page (`NewForm.jsx`): one editor used both to create a
    workflow and to update the one selected with `Düzenle`, the resets after
    a successful call, and the single open row of the workflow list. The
    stage rows are edited with the operations of `StageList`. */
module NewForm {
  import opened Common
  import opened StageList

  /** A workflow as the list returns it; its stages are plain names. */
  datatype Workflow = Workflow(id: int, name: string, stages: seq<string>)

  /** The editor's state: `workflowName`, `stages`, `selectedId` and
      `openWorkflowId` (None is `null`). */
  datatype Editor = Editor(
    name: string,
    stages: seq<StageDraft>,
    selectedId: Option<int>,
    openId: Option<int>)

  const InitialEditor := Editor("", Initial, None, None)

  /** `createWorkflow`'s body: whatever the editor holds, with no check. */
  function CreatePayload(e: Editor): (p: WorkflowPayload)
    ensures p.name == e.name
    ensures |p.stages| == |e.stages|
    ensures forall i :: 0 <= i < |e.stages| ==> p.stages[i] == e.stages[i].name
  {
    PayloadOf(e.name, e.stages)
  }

  /** After a successful create the name is emptied and the stages are back
      to one empty row; the selection and the open row are kept. */
  function AfterCreate(e: Editor): (r: Editor)
    ensures r.name == "" && r.stages == Initial
    ensures r.selectedId == e.selectedId && r.openId == e.openId
  {
    e.(name := "", stages := Initial)
  }

  /** The call `workflowAPI.update(selectedId, body)`. */
  datatype UpdateRequest = UpdateRequest(id: int, payload: WorkflowPayload)

  /** `Güncelle` is disabled while `!selectedId`: no selection, or the id
      0. Otherwise the call updates the selected workflow with the editor's
      body, unchecked. */
  function UpdateRequestOf(e: Editor): (r: Option<UpdateRequest>)
    ensures r.None? <==> e.selectedId.None? || e.selectedId.value == 0
    ensures r.Some? ==> r.value.id == e.selectedId.value && r.value.payload == CreatePayload(e)
  {
    if e.selectedId.None? || e.selectedId.value == 0 then None
    else Some(UpdateRequest(e.selectedId.value, CreatePayload(e)))
  }

  /** After a successful update the selection is also cleared, which
      disables `Güncelle` again. */
  function AfterUpdate(e: Editor): (r: Editor)
    ensures r.name == "" && r.stages == Initial && r.selectedId.None?
    ensures r.openId == e.openId
    ensures UpdateRequestOf(r).None?
  {
    e.(name := "", stages := Initial, selectedId := None)
  }

  /** `editWorkflow(wf)`: select the workflow and load its name and stage
      names into the editor. */
  function EditWorkflow(e: Editor, wf: Workflow): (r: Editor)
    ensures r.selectedId == Some(wf.id) && r.name == wf.name
    ensures Names(r.stages) == wf.stages
    ensures r.openId == e.openId
  {
    NamesDraftsRoundTrip(wf.stages, []);
    e.(selectedId := Some(wf.id), name := wf.name, stages := Drafts(wf.stages))
  }

  /** Loading a workflow and pressing `Güncelle` straight away sends the
      workflow back unchanged; only the id 0 would leave the button
      disabled. */
  lemma EditThenUpdateRoundTrip(e: Editor, wf: Workflow)
    ensures wf.id != 0 ==>
              UpdateRequestOf(EditWorkflow(e, wf)) == Some(UpdateRequest(wf.id, WorkflowPayload(wf.name, wf.stages)))
    ensures wf.id == 0 ==> UpdateRequestOf(EditWorkflow(e, wf)).None?
  {
  }

  /** Creating right after a reset sends an empty name and one empty stage:
      the page itself checks nothing. */
  lemma CreateAfterResetIsUnchecked(e: Editor)
    ensures CreatePayload(AfterCreate(e)) == WorkflowPayload("", [""])
    ensures CreatePayload(AfterUpdate(e)) == WorkflowPayload("", [""])
  {
    assert Names(Initial) == [""];
  }

  /** A click on a workflow row: the open row closes, any other row opens in
      place of the one open before. */
  function ToggleOpen(e: Editor, id: int): (r: Editor)
    ensures e.openId == Some(id) ==> r.openId.None?
    ensures e.openId != Some(id) ==> r.openId == Some(id)
    ensures r.(openId := e.openId) == e
  {
    e.(openId := if e.openId == Some(id) then None else Some(id))
  }

  /** Two clicks on the same row leave it open if it was open and leave no
      row open otherwise: a different row open before is not restored. */
  lemma ToggleOpenTwice(e: Editor, id: int)
    ensures ToggleOpen(ToggleOpen(e, id), id).openId ==
              (if e.openId == Some(id) then Some(id) else None)
  {
  }
}

/** The template list (`WorkflowList.jsx`): the lists read from the
    responses, the name search, the stages shown under each template, the
    edit and assign modals, and the guard and body of the assignment. */
module WorkflowList {
  import opened Common

  datatype Workflow = Workflow(id: int, name: string, isActive: bool)

  /** A stage row of `stageAPI.getAll`, tagged with its template's id. */
  datatype StageRow = StageRow(id: int, name: string, workflowId: int)

  datatype Candidate = Candidate(id: int, name: string, surname: string)

  /** `Array.isArray(res.data?.data) ? res.data.data : []`, with None for a
      value that is missing or not an array. */
  function ListFrom<T>(data: Option<seq<T>>): (r: seq<T>)
    ensures data.Some? ==> r == data.value
    ensures data.None? ==> r == []
  {
    data.GetOr([])
  }

  // ---------------------------------------------------------------------
  // Search
  // ---------------------------------------------------------------------

  predicate NameMatches(w: Workflow, search: string) {
    Contains(Lower(w.name), Lower(search))
  }

  /** The search effect: the templates whose lowercased name contains the
      lowercased search text, in their original order. */
  function SearchWorkflows(ws: seq<Workflow>, search: string): (r: seq<Workflow>)
    ensures IsSubseq(r, ws)
    ensures forall i :: 0 <= i < |r| ==> r[i] in ws && NameMatches(r[i], search)
    ensures forall i :: 0 <= i < |ws| && NameMatches(ws[i], search) ==> ws[i] in r
    ensures forall w :: multiset(r)[w] == (if NameMatches(w, search) then multiset(ws)[w] else 0)
  {
    Filter(ws, w => NameMatches(w, search))
  }

  /** An empty search lists every template, in order. */
  lemma EmptySearchListsAll(ws: seq<Workflow>)
    ensures SearchWorkflows(ws, "") == ws
  {
    forall i | 0 <= i < |ws|
      ensures NameMatches(ws[i], "")
    {
      ContainsEmpty(Lower(ws[i].name));
    }
    FilterKeepsAll(ws, w => NameMatches(w, ""));
  }

  /** Typing more narrows the list: the result for a longer search text is
      the result for its prefix, filtered again. */
  lemma LongerSearchNarrows(ws: seq<Workflow>, search: string, more: string)
    ensures SearchWorkflows(ws, search + more) ==
              Filter(SearchWorkflows(ws, search), w => NameMatches(w, search + more))
    ensures IsSubseq(SearchWorkflows(ws, search + more), SearchWorkflows(ws, search))
  {
    LowerAppend(search, more);
    forall w | NameMatches(w, search + more)
      ensures NameMatches(w, search)
    {
      ContainsPrefix(Lower(w.name), Lower(search), Lower(more));
    }
    FilterNarrows(ws, w => NameMatches(w, search + more), w => NameMatches(w, search));
  }

  /** What the page shows from the two responses: a response that is not an
      array shows no template and no stage; an array response with an empty
      search shows every template, and every stage row tagged with a
      template shows up under it. */
  lemma ShownFromResponses(wdata: Option<seq<Workflow>>, sdata: Option<seq<StageRow>>, search: string, wf: Workflow)
    ensures wdata.None? ==> SearchWorkflows(ListFrom(wdata), search) == []
    ensures sdata.None? ==> RelatedStages(ListFrom(sdata), wf) == []
    ensures wdata.Some? ==> SearchWorkflows(ListFrom(wdata), "") == wdata.value
    ensures sdata.Some? ==> forall i :: 0 <= i < |sdata.value| && sdata.value[i].workflowId == wf.id ==>
                                          sdata.value[i] in RelatedStages(ListFrom(sdata), wf)
  {
    EmptySearchListsAll(ListFrom(wdata));
  }

  // ---------------------------------------------------------------------
  // Stages under a template
  // ---------------------------------------------------------------------

  /** `relatedStages`: the stage rows tagged with the template's id, in
      order. */
  function RelatedStages(stages: seq<StageRow>, wf: Workflow): (r: seq<StageRow>)
    ensures IsSubseq(r, stages)
    ensures forall i :: 0 <= i < |r| ==> r[i] in stages && r[i].workflowId == wf.id
    ensures forall i :: 0 <= i < |stages| && stages[i].workflowId == wf.id ==> stages[i] in r
    ensures forall s :: multiset(r)[s] == (if s.workflowId == wf.id then multiset(stages)[s] else 0)
  {
    Filter(stages, (s: StageRow) => s.workflowId == wf.id)
  }

  /** Two templates with different ids show no stage row in common, so the
      rows shown under them together never outnumber the rows fetched. */
  lemma {:induction false} RelatedStagesDisjoint(stages: seq<StageRow>, a: Workflow, b: Workflow)
    requires a.id != b.id
    ensures forall i, j :: 0 <= i < |RelatedStages(stages, a)| && 0 <= j < |RelatedStages(stages, b)| ==>
              RelatedStages(stages, a)[i] != RelatedStages(stages, b)[j]
    ensures |RelatedStages(stages, a)| + |RelatedStages(stages, b)| <= |stages|
    decreases |stages|
  {
    if |stages| > 0 {
      RelatedStagesDisjoint(stages[1..], a, b);
    }
  }

  // ---------------------------------------------------------------------
  // Modals and assignment
  // ---------------------------------------------------------------------

  /** `editModal`, `editName`, `assignModal` and `selectedCandidate`; None is
      `null`. */
  datatype ListState = ListState(
    editModal: Option<Workflow>,
    editName: string,
    assignModal: Option<Workflow>,
    selected: Option<Candidate>)

  /** `openEdit`: the edit modal shows the template, its name field seeded
      with the template's name. */
  function OpenEdit(s: ListState, wf: Workflow): (r: ListState)
    ensures r.editModal == Some(wf) && r.editName == wf.name
    ensures r.assignModal == s.assignModal && r.selected == s.selected
  {
    s.(editModal := Some(wf), editName := wf.name)
  }

  /** `openAssignModal`: the assign modal shows the template and any earlier
      selection is dropped. */
  function OpenAssignModal(s: ListState, wf: Workflow): (r: ListState)
    ensures r.assignModal == Some(wf) && r.selected.None?
    ensures r.editModal == s.editModal && r.editName == s.editName
  {
    s.(assignModal := Some(wf), selected := None)
  }

  /** `candidates.find(c => c.id === parseInt(value))`: the first candidate
      with that id; `value` is None when `parseInt` gives NaN (the empty
      `Seçiniz` option), which no id equals. */
  function FindCandidate(cs: seq<Candidate>, value: Option<int>): (r: Option<Candidate>)
    ensures r.None? <==> value.None? || forall i :: 0 <= i < |cs| ==> cs[i].id != value.value
    ensures r.Some? ==> value.Some? && r.value.id == value.value
    ensures r.Some? ==> exists k :: 0 <= k < |cs| && cs[k] == r.value &&
                                    forall j :: 0 <= j < k ==> cs[j].id != value.value
    decreases |cs|
  {
    if value.None? || |cs| == 0 then None
    else if cs[0].id == value.value then Some(cs[0])
    else
      assert forall j :: 1 <= j < |cs| ==> cs[j] == cs[1..][j - 1];
      FindCandidate(cs[1..], value)
  }

  /** A change of the candidate select. */
  function SelectCandidate(s: ListState, cs: seq<Candidate>, value: Option<int>): (r: ListState)
    ensures r.selected == FindCandidate(cs, value)
    ensures r.(selected := s.selected) == s
  {
    s.(selected := FindCandidate(cs, value))
  }

  /** The body of `workflowAPI.assignToCandidate`. */
  datatype AssignRequest = AssignRequest(workflowId: int, candidateId: int, assignedByUserId: int)

  /** Why `handleAssign` sends nothing: no candidate chosen (an error toast
      before the `try`), or no template in the modal (reading `.id` of
      `null` throws inside the `try`, which reports the failure toast). */
  datatype AssignError = NoCandidate | AssignFailed

  /** `handleAssign`: the candidate guard comes first; the body carries the
      modal's template id, the chosen candidate's id and the fixed assigner
      id 1. */
  function HandleAssign(s: ListState): (r: Result<AssignRequest, AssignError>)
    ensures r == Err(NoCandidate) <==> s.selected.None?
    ensures r == Err(AssignFailed) <==> s.selected.Some? && s.assignModal.None?
    ensures r.Ok? ==> && s.selected.Some? && s.assignModal.Some?
                      && r.value.workflowId == s.assignModal.value.id
                      && r.value.candidateId == s.selected.value.id
                      && r.value.assignedByUserId == 1
  {
    if s.selected.None? then Err(NoCandidate)
    else if s.assignModal.None? then Err(AssignFailed)
    else Ok(AssignRequest(s.assignModal.value.id, s.selected.value.id, 1))
  }

  /** After the call: success closes the assign modal, failure keeps it. */
  function AfterAssign(s: ListState, succeeded: bool): (r: ListState)
    ensures succeeded ==> r.assignModal.None?
    ensures !succeeded ==> r == s
    ensures r.selected == s.selected && r.editModal == s.editModal && r.editName == s.editName
  {
    if succeeded then s.(assignModal := None) else s
  }

  /** Opening the edit modal does not disturb a pending assignment. A failed
      assignment can be retried with the same request; after a successful
      one the modal must be opened again before anything is sent. */
  lemma AssignAroundModals(s: ListState, wf: Workflow)
    ensures HandleAssign(OpenEdit(s, wf)) == HandleAssign(s)
    ensures HandleAssign(AfterAssign(s, false)) == HandleAssign(s)
    ensures HandleAssign(AfterAssign(s, true)).Err?
  {
  }

  /** Opening the assign modal always forces a fresh choice: assigning
      straight away is refused with no call. Choosing a listed candidate
      then assigns that candidate to that template. */
  lemma AssignFlow(s: ListState, wf: Workflow, cs: seq<Candidate>, k: nat)
    requires k < |cs|
    ensures HandleAssign(OpenAssignModal(s, wf)) == Err(NoCandidate)
    ensures HandleAssign(SelectCandidate(OpenAssignModal(s, wf), cs, Some(cs[k].id))) ==
              Ok(AssignRequest(wf.id, cs[k].id, 1))
  {
  }
}

/** The stage-list editor shared by the workflow creation modal
    (`CreateWorkflowButton.jsx`) and the workflow page (`NewForm.jsx`): both
    keep `stages` as a list of `{ name }` rows with the same append,
    remove-at-index and rename-at-index operations, and both send the names
    in list order. */
module StageList {
  import opened Common

  /** One `{ name }` row of the editor. */
  datatype StageDraft = StageDraft(name: string)

  /** The list the editor starts with and is reset to: one empty row. */
  const Initial: seq<StageDraft> := [StageDraft("")]

  /** The body sent to `workflowAPI.create` / `workflowAPI.update`. */
  datatype WorkflowPayload = WorkflowPayload(name: string, stages: seq<string>)

  /** `addStage`: one empty row at the end; the existing rows are kept. */
  function AddStage(s: seq<StageDraft>): (r: seq<StageDraft>)
    ensures |r| == |s| + 1
    ensures r[..|s|] == s
    ensures r[|s|].name == ""
  {
    s + [StageDraft("")]
  }

  /** `stages.filter((_, i) => i !== idx)`: exactly row `idx` goes, the
      others keep their order; an index that names no row removes nothing. */
  function RemoveStage(s: seq<StageDraft>, idx: int): (r: seq<StageDraft>)
    ensures 0 <= idx < |s| ==> r == s[..idx] + s[idx + 1..]
    ensures !(0 <= idx < |s|) ==> r == s
    decreases |s|
  {
    if |s| == 0 then []
    else (if idx == 0 then [] else [s[0]]) + RemoveStage(s[1..], idx - 1)
  }

  /** `updated[idx].name = value` on a copy of the list. An index that names
      no row makes the assignment throw (`undefined` has no `name`), which
      is None here. */
  function SetStageName(s: seq<StageDraft>, idx: int, value: string): (r: Option<seq<StageDraft>>)
    ensures r.Some? <==> 0 <= idx < |s|
    ensures r.Some? ==> |r.value| == |s| && r.value[idx].name == value
    ensures r.Some? ==> forall j :: 0 <= j < |s| && j != idx ==> r.value[j] == s[j]
  {
    if 0 <= idx < |s| then Some(s[idx := StageDraft(value)]) else None
  }

  /** `stages.map(s => s.name)` */
  function Names(s: seq<StageDraft>): (r: seq<string>)
    ensures |r| == |s|
  {
    seq(|s|, i requires 0 <= i < |s| => s[i].name)
  }

  /** `names.map(s => ({ name: s }))` */
  function Drafts(names: seq<string>): (r: seq<StageDraft>)
    ensures |r| == |names|
  {
    seq(|names|, i requires 0 <= i < |names| => StageDraft(names[i]))
  }

  /** Loading names into the editor and reading them back is lossless, in
      both directions. */
  lemma NamesDraftsRoundTrip(names: seq<string>, s: seq<StageDraft>)
    ensures Names(Drafts(names)) == names
    ensures Drafts(Names(s)) == s
  {
  }

  /** The body both pages build from the editor: the name as typed and the
      row names in order. */
  function PayloadOf(name: string, s: seq<StageDraft>): (p: WorkflowPayload)
    ensures p.name == name
    ensures |p.stages| == |s|
    ensures forall i :: 0 <= i < |s| ==> p.stages[i] == s[i].name
  {
    WorkflowPayload(name, Names(s))
  }

  /** Removing the row just added gives the list back. */
  lemma RemoveAfterAdd(s: seq<StageDraft>)
    ensures RemoveStage(AddStage(s), |s|) == s
  {
    var a := AddStage(s);
    assert a[..|s|] == s;
    assert a[|s| + 1..] == [];
  }

  /** Adding a row adds an empty name at the end of the payload. */
  lemma AddOnPayload(s: seq<StageDraft>)
    ensures Names(AddStage(s)) == Names(s) + [""]
  {
    var a := AddStage(s);
    forall j | 0 <= j < |s| + 1 ensures Names(a)[j] == (Names(s) + [""])[j] {
      if j < |s| {
        assert a[j] == a[..|s|][j];
      }
    }
  }

  /** Renaming a row changes exactly that name in the payload. */
  lemma RenameOnPayload(s: seq<StageDraft>, idx: int, value: string)
    requires 0 <= idx < |s|
    ensures Names(SetStageName(s, idx, value).value) == Names(s)[idx := value]
  {
    var r := SetStageName(s, idx, value).value;
    forall j | 0 <= j < |s| ensures Names(r)[j] == Names(s)[idx := value][j] {
    }
  }

  /** A click in the editor: the add button, the `Sil` button of a row, or
      typing into a row's input. */
  datatype Edit = Add | Remove(idx: int) | Rename(idx: int, value: string)

  /** The editor renders one input per row and a `Sil` button per row only
      while there is more than one row. */
  predicate Offered(s: seq<StageDraft>, e: Edit) {
    match e
    case Add => true
    case Remove(i) => |s| > 1 && 0 <= i < |s|
    case Rename(i, _) => 0 <= i < |s|
  }

  /** The effect of one offered click. */
  function Apply(s: seq<StageDraft>, e: Edit): (r: seq<StageDraft>)
    requires Offered(s, e)
    ensures e.Add? ==> |r| == |s| + 1
    ensures e.Remove? ==> |r| == |s| - 1
    ensures e.Rename? ==> |r| == |s|
  {
    match e
    case Add => AddStage(s)
    case Remove(i) => RemoveStage(s, i)
    case Rename(i, v) => SetStageName(s, i, v).value
  }

  /** A sequence of clicks; a click on a control that is not rendered cannot
      happen and changes nothing. */
  function Run(s: seq<StageDraft>, es: seq<Edit>): seq<StageDraft>
    decreases |es|
  {
    if |es| == 0 then s
    else Run(if Offered(s, es[0]) then Apply(s, es[0]) else s, es[1..])
  }

  /** Since removal is offered only with two or more rows, no sequence of
      clicks empties a non-empty list. */
  lemma {:induction false} RunNeverEmpties(s: seq<StageDraft>, es: seq<Edit>)
    requires |s| >= 1
    ensures |Run(s, es)| >= 1
    decreases |es|
  {
    if |es| > 0 {
      var next := if Offered(s, es[0]) then Apply(s, es[0]) else s;
      RunNeverEmpties(next, es[1..]);
    }
  }
}

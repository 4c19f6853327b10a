/** Classification of an application by the statuses of its stages. The same
    `getStatusBadge` and `getStageStatusIcon` appear in the admin list
    (`AllAssignment.jsx`) and in the candidate view (`MyApplications.jsx`);
    they are defined once here. */
module Badges {
  import opened Common

  const Approved := "APPROVED"
  const Denied := "DENIED"
  const Pending := "PENDING"

  datatype Task = Task(id: int, title: string, status: string, isRequired: bool)

  /** A workflow stage of an application; `tasks` may be missing. */
  datatype Stage = Stage(id: int, name: string, status: string, tasks: Option<seq<Task>>)

  /** The five labels an application can carry. */
  datatype Badge = NotStarted | Rejected | Ongoing | Waiting | Processing {
    function Text(): string {
      match this
      case NotStarted => "Başlamadı"
      case Rejected => "Reddedildi"
      case Ongoing => "Devam Ediyor"
      case Waiting => "Beklemede"
      case Processing => "İşlemde"
    }
  }

  /** `stages.some(s => s.status === status)` */
  predicate SomeStatus(stages: seq<Stage>, status: string) {
    exists i :: 0 <= i < |stages| && stages[i].status == status
  }

  /** `stages.every(s => s.status === status)` */
  predicate EveryStatus(stages: seq<Stage>, status: string) {
    forall i :: 0 <= i < |stages| ==> stages[i].status == status
  }

  /** `getStatusBadge`: no stages means not started; otherwise a denial beats
      an approval, which beats an all-pending list; anything else is in
      progress. */
  function StatusBadge(stages: Option<seq<Stage>>): (b: Badge)
    ensures b == NotStarted <==> stages.None? || |stages.value| == 0
    ensures b == Rejected <==> stages.Some? && SomeStatus(stages.value, Denied)
    ensures b == Ongoing <==>
              stages.Some? && !SomeStatus(stages.value, Denied) && SomeStatus(stages.value, Approved)
    ensures b == Waiting <==>
              stages.Some? && |stages.value| > 0 && EveryStatus(stages.value, Pending)
    ensures b == Processing <==>
              && stages.Some? && |stages.value| > 0
              && !SomeStatus(stages.value, Denied)
              && !SomeStatus(stages.value, Approved)
              && !EveryStatus(stages.value, Pending)
  {
    if stages.None? || |stages.value| == 0 then NotStarted
    else if SomeStatus(stages.value, Denied) then Rejected
    else if SomeStatus(stages.value, Approved) then Ongoing
    else if EveryStatus(stages.value, Pending) then Waiting
    else Processing
  }

  /** The five labels are pairwise different, so comparing `.text` is
      comparing badges. */
  lemma BadgeTextsDistinct(a: Badge, b: Badge)
    ensures a.Text() == b.Text() <==> a == b
  {
  }

  /** Number of stages with the given status. */
  function StatusCount(stages: seq<Stage>, status: string): (n: nat)
    ensures n <= |stages|
  {
    if |stages| == 0 then 0
    else (if stages[0].status == status then 1 else 0) + StatusCount(stages[1..], status)
  }

  lemma {:induction false} StatusCountPositive(stages: seq<Stage>, status: string)
    ensures StatusCount(stages, status) > 0 <==> SomeStatus(stages, status)
  {
    if |stages| > 0 {
      StatusCountPositive(stages[1..], status);
      if SomeStatus(stages[1..], status) {
        var i :| 0 <= i < |stages[1..]| && stages[1..][i].status == status;
        assert stages[i + 1].status == status;
      }
      if SomeStatus(stages, status) && stages[0].status != status {
        var i :| 0 <= i < |stages| && stages[i].status == status;
        assert stages[1..][i - 1].status == status;
      }
    }
  }

  lemma {:induction false} StatusCountFull(stages: seq<Stage>, status: string)
    ensures StatusCount(stages, status) == |stages| <==> EveryStatus(stages, status)
  {
    if |stages| > 0 {
      StatusCountFull(stages[1..], status);
      if EveryStatus(stages, status) {
        assert EveryStatus(stages[1..], status);
      }
      if StatusCount(stages, status) == |stages| {
        assert stages[0].status == status;
        forall i | 0 <= i < |stages|
          ensures stages[i].status == status
        {
          if i > 0 {
            assert stages[i] == stages[1..][i - 1];
          }
        }
      }
    }
  }

  /** Reference classification from status counts, written independently of
      the `some`/`every` tests of the source. */
  function BadgeFromCounts(stages: seq<Stage>): Badge {
    var n := |stages|;
    var denied := StatusCount(stages, Denied);
    var approved := StatusCount(stages, Approved);
    var pending := StatusCount(stages, Pending);
    if n == 0 then NotStarted
    else if denied > 0 then Rejected
    else if approved > 0 then Ongoing
    else if pending == n then Waiting
    else Processing
  }

  /** The classifier agrees with the count-based reference on every list. */
  lemma StatusBadgeMatchesCounts(stages: seq<Stage>)
    ensures StatusBadge(Some(stages)) == BadgeFromCounts(stages)
  {
    StatusCountPositive(stages, Denied);
    StatusCountPositive(stages, Approved);
    StatusCountFull(stages, Pending);
  }

  /** The per-stage icon. */
  datatype Icon = CheckIcon | CrossIcon | ClockIcon

  /** `getStageStatusIcon`: everything but APPROVED and DENIED shows as
      pending. */
  function StageStatusIcon(status: string): (i: Icon)
    ensures i == CheckIcon <==> status == Approved
    ensures i == CrossIcon <==> status == Denied
    ensures i == ClockIcon <==> status != Approved && status != Denied
  {
    if status == Approved then CheckIcon
    else if status == Denied then CrossIcon
    else ClockIcon
  }

  /** On a one-stage application, the application badge and the stage icon
      tell the same story. */
  lemma SingleStageBadge(st: Stage)
    ensures StageStatusIcon(st.status) == CrossIcon <==> StatusBadge(Some([st])) == Rejected
    ensures StageStatusIcon(st.status) == CheckIcon <==> StatusBadge(Some([st])) == Ongoing
    ensures StageStatusIcon(st.status) == ClockIcon <==>
              StatusBadge(Some([st])) == Waiting || StatusBadge(Some([st])) == Processing
  {
    assert [st][0] == st;
  }
}

/** The statistics page (`Stats.jsx`): extraction of the user and candidate
    lists from the two responses, the summary cards, the cumulative sign-up
    buckets and the role chart. */
module Stats {
  import opened Common

  /** How long ago a user signed up, as the page computes it: no `createdAt`
      (or an empty one), a value `new Date` cannot parse (every comparison
      with NaN is false), or an age in days. */
  datatype Created = Missing | Unparsable | DaysAgo(days: real)

  datatype User = User(role: Option<string>, created: Created)

  /** `Array.isArray(a) ? a : Array.isArray(b) ? b : []`, where None stands
      for a value that is absent or not an array. The users list reads
      `data.data.users` then `data.users`; the candidate list reads
      `data.data` then `data`. */
  function FirstArray<T>(a: Option<seq<T>>, b: Option<seq<T>>): (r: seq<T>)
    ensures a.Some? ==> r == a.value
    ensures a.None? && b.Some? ==> r == b.value
    ensures a.None? && b.None? ==> r == []
  {
    match a
    case Some(xs) => xs
    case None => b.GetOr([])
  }

  // ---------------------------------------------------------------------
  // Summary cards
  // ---------------------------------------------------------------------

  datatype StatValue = Num(n: int) | Dash

  datatype StatEntry = StatEntry(title: string, value: StatValue)

  const TotalUsers := "Total Users"
  const TotalForms := "Total Forms"

  const InitialStats := [
    StatEntry(TotalForms, Num(0)),
    StatEntry(TotalUsers, Num(0)),
    StatEntry("Orders", Dash),
    StatEntry("Growth", Dash)
  ]

  /** `setStats(prev => prev.map(...))`: 'Total Users' gets the user count,
      'Total Forms' the candidate count, every other entry is kept. */
  function UpdateStats(stats: seq<StatEntry>, users: nat, candidates: nat): (r: seq<StatEntry>)
    ensures |r| == |stats|
    ensures forall i :: 0 <= i < |r| ==> r[i].title == stats[i].title
    ensures forall i :: 0 <= i < |r| && stats[i].title == TotalUsers ==> r[i].value == Num(users)
    ensures forall i :: 0 <= i < |r| && stats[i].title == TotalForms ==> r[i].value == Num(candidates)
    ensures forall i :: 0 <= i < |r| && stats[i].title != TotalUsers && stats[i].title != TotalForms ==>
              r[i] == stats[i]
  {
    seq(|stats|, i requires 0 <= i < |stats| =>
      if stats[i].title == TotalUsers then stats[i].(value := Num(users))
      else if stats[i].title == TotalForms then stats[i].(value := Num(candidates))
      else stats[i])
  }

  /** Updating twice with the same counts is updating once; from the initial
      cards the update fills exactly the two totals. */
  lemma UpdateStatsIdempotent(stats: seq<StatEntry>, users: nat, candidates: nat)
    ensures UpdateStats(UpdateStats(stats, users, candidates), users, candidates) == UpdateStats(stats, users, candidates)
    ensures UpdateStats(InitialStats, users, candidates) == [
              StatEntry(TotalForms, Num(candidates)),
              StatEntry(TotalUsers, Num(users)),
              StatEntry("Orders", Dash),
              StatEntry("Growth", Dash)
            ]
  {
  }

  // ---------------------------------------------------------------------
  // Sign-up buckets
  // ---------------------------------------------------------------------

  predicate SignedUpWithin(u: User, limit: real) {
    u.created.DaysAgo? && u.created.days <= limit
  }

  /** Number of users who signed up at most `limit` days ago. */
  function CountWithin(users: seq<User>, limit: real): (n: nat)
    ensures n <= |users|
  {
    if |users| == 0 then 0
    else (if SignedUpWithin(users[0], limit) then 1 else 0) + CountWithin(users[1..], limit)
  }

  lemma {:induction false} CountWithinSnoc(users: seq<User>, u: User, limit: real)
    ensures CountWithin(users + [u], limit) == CountWithin(users, limit) + (if SignedUpWithin(u, limit) then 1 else 0)
  {
    if |users| > 0 {
      assert (users + [u])[1..] == users[1..] + [u];
      CountWithinSnoc(users[1..], u, limit);
    }
  }

  /** A wider window counts every user a narrower one counts. */
  lemma {:induction false} CountWithinMonotone(users: seq<User>, narrow: real, wide: real)
    requires narrow <= wide
    ensures CountWithin(users, narrow) <= CountWithin(users, wide)
  {
    if |users| > 0 {
      CountWithinMonotone(users[1..], narrow, wide);
    }
  }

  /** Users without a parsable sign-up date are in no bucket. */
  lemma UndatedUserIgnored(users: seq<User>, u: User, limit: real)
    requires !u.created.DaysAgo?
    ensures CountWithin(users + [u], limit) == CountWithin(users, limit)
  {
    CountWithinSnoc(users, u, limit);
  }

  datatype Buckets = Buckets(last7Days: nat, last14Days: nat, last1Month: nat, last1Year: nat)

  /** `createdAtBuckets`: one pass over the users, each dated user counted in
      every window it falls in; the buckets are cumulative. */
  method CreatedAtBuckets(users: seq<User>) returns (b: Buckets)
    ensures b.last7Days == CountWithin(users, 7.0)
    ensures b.last14Days == CountWithin(users, 14.0)
    ensures b.last1Month == CountWithin(users, 30.0)
    ensures b.last1Year == CountWithin(users, 365.0)
    ensures b.last7Days <= b.last14Days <= b.last1Month <= b.last1Year <= |users|
  {
    b := Buckets(0, 0, 0, 0);
    var i := 0;
    while i < |users|
      invariant 0 <= i <= |users|
      invariant b.last7Days == CountWithin(users[..i], 7.0)
      invariant b.last14Days == CountWithin(users[..i], 14.0)
      invariant b.last1Month == CountWithin(users[..i], 30.0)
      invariant b.last1Year == CountWithin(users[..i], 365.0)
    {
      var u := users[i];
      assert users[..i + 1] == users[..i] + [u];
      CountWithinSnoc(users[..i], u, 7.0);
      CountWithinSnoc(users[..i], u, 14.0);
      CountWithinSnoc(users[..i], u, 30.0);
      CountWithinSnoc(users[..i], u, 365.0);
      if u.created.DaysAgo? {
        var diffDays := u.created.days;
        if diffDays <= 7.0 { b := b.(last7Days := b.last7Days + 1); }
        if diffDays <= 14.0 { b := b.(last14Days := b.last14Days + 1); }
        if diffDays <= 30.0 { b := b.(last1Month := b.last1Month + 1); }
        if diffDays <= 365.0 { b := b.(last1Year := b.last1Year + 1); }
      }
      i := i + 1;
    }
    assert users[..|users|] == users;
    CountWithinMonotone(users, 7.0, 14.0);
    CountWithinMonotone(users, 14.0, 30.0);
    CountWithinMonotone(users, 30.0, 365.0);
  }

  // ---------------------------------------------------------------------
  // Roles
  // ---------------------------------------------------------------------

  const Admin := "ADMIN"
  const Hr := "HR"
  const Candidate := "CANDIDATE"

  /** `(u.role || "").toUpperCase()` */
  function RoleKey(u: User): string {
    Upper(if u.role.Some? then u.role.value else "")
  }

  predicate IsCountedRole(r: string) {
    r == Admin || r == Hr || r == Candidate
  }

  /** Number of users whose uppercased role is `role`. */
  function RoleCount(users: seq<User>, role: string): (n: nat)
    ensures n <= |users|
  {
    if |users| == 0 then 0
    else (if RoleKey(users[0]) == role then 1 else 0) + RoleCount(users[1..], role)
  }

  lemma {:induction false} RoleCountSnoc(users: seq<User>, u: User, role: string)
    ensures RoleCount(users + [u], role) == RoleCount(users, role) + (if RoleKey(u) == role then 1 else 0)
  {
    if |users| > 0 {
      assert (users + [u])[1..] == users[1..] + [u];
      RoleCountSnoc(users[1..], u, role);
    }
  }

  /** The `reduce` into `roleCounts`: only the three known roles get a key,
      each holding that role's count; roles with no user have no key. */
  method CountRoles(users: seq<User>) returns (acc: map<string, nat>)
    ensures forall r :: r in acc ==> IsCountedRole(r)
    ensures forall r :: IsCountedRole(r) ==> (r in acc <==> RoleCount(users, r) > 0)
    ensures forall r :: r in acc ==> acc[r] == RoleCount(users, r)
  {
    acc := map[];
    var i := 0;
    while i < |users|
      invariant 0 <= i <= |users|
      invariant forall r :: r in acc ==> IsCountedRole(r)
      invariant forall r :: IsCountedRole(r) ==> (r in acc <==> RoleCount(users[..i], r) > 0)
      invariant forall r :: r in acc ==> acc[r] == RoleCount(users[..i], r)
    {
      var u := users[i];
      assert users[..i + 1] == users[..i] + [u];
      forall r | true
        ensures RoleCount(users[..i + 1], r) == RoleCount(users[..i], r) + (if RoleKey(u) == r then 1 else 0)
      {
        RoleCountSnoc(users[..i], u, r);
      }
      var r := RoleKey(u);
      if r == Admin || r == Hr || r == Candidate {
        acc := acc[r := (if r in acc then acc[r] else 0) + 1];
      }
      i := i + 1;
    }
    assert users[..|users|] == users;
  }

  datatype RoleEntry = RoleEntry(name: string, value: nat)

  /** The chart's labels for the three roles and for the candidate count. */
  const AdminLabel := "Admin"
  const HrLabel := "İnsan Kaynakları"
  const PartialProfileLabel := "Yarım Profil"
  const CandidateLabel := "Aday"

  /** `roleData`: the three counted roles (0 when absent) and the candidate
      count from the other endpoint. */
  method RoleData(users: seq<User>, candidatesCount: nat) returns (roles: seq<RoleEntry>)
    ensures roles == [RoleEntry(AdminLabel, RoleCount(users, Admin)),
                      RoleEntry(HrLabel, RoleCount(users, Hr)),
                      RoleEntry(PartialProfileLabel, RoleCount(users, Candidate)),
                      RoleEntry(CandidateLabel, candidatesCount)]
    ensures |roles| == 4 && roles[0].value + roles[1].value + roles[2].value <= |users|
  {
    var counts := CountRoles(users);
    roles := [
      RoleEntry(AdminLabel, if Admin in counts then counts[Admin] else 0),
      RoleEntry(HrLabel, if Hr in counts then counts[Hr] else 0),
      RoleEntry(PartialProfileLabel, if Candidate in counts then counts[Candidate] else 0),
      RoleEntry(CandidateLabel, candidatesCount)
    ];
    RolesWithinUsers(users);
  }

  /** A user has one role, so the three role counts together never exceed the
      number of users. */
  lemma {:induction false} RolesWithinUsers(users: seq<User>)
    ensures RoleCount(users, Admin) + RoleCount(users, Hr) + RoleCount(users, Candidate) <= |users|
  {
    if |users| > 0 {
      RolesWithinUsers(users[1..]);
    }
  }

  /** The cards and the role chart read the same lists: 'Total Users' shows
      the length of the users list the chart counts, 'Total Forms' the
      candidate count the chart shows as 'Aday', and the chart's three role
      bars together never exceed 'Total Users'. */
  lemma ChartWithinCards<C>(a: Option<seq<User>>, b: Option<seq<User>>, c: Option<seq<C>>, d: Option<seq<C>>)
    ensures var users := FirstArray(a, b);
            var cards := UpdateStats(InitialStats, |users|, |FirstArray(c, d)|);
            && cards[1] == StatEntry(TotalUsers, Num(|users|))
            && cards[0] == StatEntry(TotalForms, Num(|FirstArray(c, d)|))
            && RoleCount(users, Admin) + RoleCount(users, Hr) + RoleCount(users, Candidate) <= cards[1].value.n
  {
    var users := FirstArray(a, b);
    RolesWithinUsers(users);
  }
}

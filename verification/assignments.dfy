/** The admin list of all applications (`AllAssignment.jsx`): the search and
    status filter, the per-label stat cards, and the expand toggles. */
module AllAssignments {
  import opened Common
  import opened Badges

  /** One application: the candidate's name, surname and e-mail, the
      workflow's name and the stages (possibly missing). */
  datatype Assignment = Assignment(
    id: int,
    name: string,
    surname: string,
    email: string,
    workflowName: string,
    stages: Option<seq<Stage>>)

  const AllStatuses := "all"

  /** The search term occurs, case-insensitively, in the candidate's name,
      surname or e-mail or in the workflow's name. */
  predicate MatchesSearch(a: Assignment, term: string) {
    var t := Lower(term);
    Contains(Lower(a.name), t) || Contains(Lower(a.surname), t) ||
    Contains(Lower(a.email), t) || Contains(Lower(a.workflowName), t)
  }

  /** The search ignores the case of Turkish letters too: 'çelik' and
      'Çelik' both find the surname 'Çelik'. */
  lemma TurkishSurnameFound(a: Assignment)
    requires a.surname == "Çelik"
    ensures MatchesSearch(a, "çelik") && MatchesSearch(a, "Çelik")
  {
    assert Lower("Çelik") == "çelik" by {
      assert Lower("Çelik") == [LowerChar('Ç'), LowerChar('e'), LowerChar('l'), LowerChar('i'), LowerChar('k')];
    }
    assert Lower("çelik") == "çelik" by {
      assert Lower("çelik") == [LowerChar('ç'), LowerChar('e'), LowerChar('l'), LowerChar('i'), LowerChar('k')];
    }
    assert StartsWith("çelik", "çelik");
  }

  /** The lowercased badge text contains the lowercased status filter. */
  predicate MatchesStatus(a: Assignment, filter: string) {
    Contains(Lower(StatusBadge(a.stages).Text()), Lower(filter))
  }

  predicate Shown(a: Assignment, term: string, filter: string) {
    MatchesSearch(a, term) && (filter == AllStatuses || MatchesStatus(a, filter))
  }

  /** `filteredAssignments`: the applications that match the search and,
      unless the filter is 'all', the status filter, in their original order. */
  function FilteredAssignments(xs: seq<Assignment>, term: string, filter: string): (r: seq<Assignment>)
    ensures IsSubseq(r, xs)
    ensures forall i :: 0 <= i < |r| ==> r[i] in xs && Shown(r[i], term, filter)
    ensures forall i :: 0 <= i < |xs| && Shown(xs[i], term, filter) ==> xs[i] in r
    ensures forall a :: multiset(r)[a] == (if Shown(a, term, filter) then multiset(xs)[a] else 0)
  {
    Filter(xs, a => Shown(a, term, filter))
  }

  /** With an empty search and the 'all' filter every application is listed,
      in order. */
  lemma EmptySearchListsAll(xs: seq<Assignment>)
    ensures FilteredAssignments(xs, "", AllStatuses) == xs
  {
    forall i | 0 <= i < |xs|
      ensures MatchesSearch(xs[i], "")
    {
      ContainsEmpty(Lower(xs[i].name));
    }
    FilterKeepsAll(xs, a => Shown(a, "", AllStatuses));
  }

  /** A status filter narrows the 'all' list: the result is the 'all' result
      filtered by status, hence an order-preserving part of it. */
  lemma StatusFilterNarrows(xs: seq<Assignment>, term: string, filter: string)
    requires filter != AllStatuses
    ensures FilteredAssignments(xs, term, filter) ==
              Filter(FilteredAssignments(xs, term, AllStatuses), a => MatchesStatus(a, filter))
    ensures IsSubseq(FilteredAssignments(xs, term, filter), FilteredAssignments(xs, term, AllStatuses))
  {
    FilterFuse(xs, a => Shown(a, term, AllStatuses), a => MatchesStatus(a, filter),
               a => Shown(a, term, filter));
  }

  /** `assignments.filter(a => getStatusBadge(a.stages).text === text).length` */
  function CardCount(xs: seq<Assignment>, text: string): (n: nat)
    ensures n <= |xs|
  {
    if |xs| == 0 then 0
    else (if StatusBadge(xs[0].stages).Text() == text then 1 else 0) + CardCount(xs[1..], text)
  }

  /** No application is counted on two of the Beklemede, Devam Ediyor and
      Reddedildi cards, so together they never exceed the total card. */
  lemma {:induction false} CardsWithinTotal(xs: seq<Assignment>)
    ensures CardCount(xs, Waiting.Text()) + CardCount(xs, Ongoing.Text()) + CardCount(xs, Rejected.Text()) <= |xs|
  {
    if |xs| > 0 {
      CardsWithinTotal(xs[1..]);
    }
  }

  /** The lowercased label texts (every label's capitals are ASCII except
      the dotted capital I, which the model keeps). */
  lemma LowerLabel(b: Badge)
    ensures b == Waiting ==> Lower(b.Text()) == "beklemede"
    ensures b == Ongoing ==> Lower(b.Text()) == "devam ediyor"
    ensures b == Rejected ==> Lower(b.Text()) == "reddedildi"
    ensures b == NotStarted ==> Lower(b.Text()) == "başlamadı"
    ensures b == Processing ==> Lower(b.Text()) == "İşlemde"
  {
    var t := b.Text();
    assert forall i :: 0 <= i < |t| ==> Lower(t)[i] == LowerChar(t[i]);
    match b
    case Waiting => assert Lower(t) == "beklemede";
    case Ongoing => assert Lower(t) == "devam ediyor";
    case Rejected => assert Lower(t) == "reddedildi";
    case NotStarted => assert Lower(t) == "başlamadı";
    case Processing => assert Lower(t) == "İşlemde";
  }

  /** Which of the three select options occur in a lowercased label. */
  predicate OptionHits(l: string, beklemede: bool, devam: bool, reddedildi: bool) {
    && (Contains(l, "beklemede") <==> beklemede)
    && (Contains(l, "devam") <==> devam)
    && (Contains(l, "reddedildi") <==> reddedildi)
  }

  lemma OptionsOnWaiting()
    ensures OptionHits("beklemede", true, false, false)
  {
    assert StartsWith("beklemede", "beklemede");
    NotContainsLonger("beklemede", "reddedildi");
    NoOccurrence("beklemede", "devam", 'v');
  }

  lemma OptionsOnOngoing()
    ensures OptionHits("devam ediyor", false, true, false)
  {
    assert StartsWith("devam ediyor", "devam");
    OngoingLacksOtherOptions();
  }

  lemma OngoingLacksOtherOptions()
    ensures !Contains("devam ediyor", "beklemede")
    ensures !Contains("devam ediyor", "reddedildi")
  {
    OngoingLetters();
    NoOccurrence("devam ediyor", "beklemede", 'k');
    NoOccurrence("devam ediyor", "reddedildi", 'l');
  }

  /** 'devam ediyor' has no 'k' (of 'beklemede') and no 'l' (of
      'reddedildi'). */
  lemma OngoingLetters()
    ensures 'k' in "beklemede" && 'k' !in "devam ediyor"
    ensures 'l' in "reddedildi" && 'l' !in "devam ediyor"
  {
  }

  lemma OptionsOnRejected()
    ensures OptionHits("reddedildi", false, false, true)
  {
    assert StartsWith("reddedildi", "reddedildi");
    RejectedLetters();
    NoOccurrence("reddedildi", "beklemede", 'b');
    NoOccurrence("reddedildi", "devam", 'v');
  }

  /** 'reddedildi' has no 'b' (of 'beklemede') and no 'v' (of 'devam'). */
  lemma RejectedLetters()
    ensures 'b' in "beklemede" && 'b' !in "reddedildi"
    ensures 'v' in "devam" && 'v' !in "reddedildi"
  {
  }

  lemma OptionsOnNotStarted()
    ensures OptionHits("başlamadı", false, false, false)
  {
    NotContainsLonger("başlamadı", "reddedildi");
    NoOccurrence("başlamadı", "beklemede", 'k');
    NoOccurrence("başlamadı", "devam", 'v');
  }

  lemma OptionsOnProcessing()
    ensures OptionHits("İşlemde", false, false, false)
  {
    NotContainsLonger("İşlemde", "reddedildi");
    NotContainsLonger("İşlemde", "beklemede");
    NoOccurrence("İşlemde", "devam", 'v');
  }

  /** The three options of the status select pick exactly the applications of
      their card. */
  lemma StatusOptionSelectsCard(b: Badge)
    ensures Contains(Lower(b.Text()), "beklemede") <==> b == Waiting
    ensures Contains(Lower(b.Text()), "devam") <==> b == Ongoing
    ensures Contains(Lower(b.Text()), "reddedildi") <==> b == Rejected
  {
    LowerLabel(b);
    match b
    case Waiting => OptionsOnWaiting();
    case Ongoing => OptionsOnOngoing();
    case Rejected => OptionsOnRejected();
    case NotStarted => OptionsOnNotStarted();
    case Processing => OptionsOnProcessing();
  }

  /** The select's option values are already lower case. */
  lemma LowerOptions()
    ensures Lower("beklemede") == "beklemede"
    ensures Lower("devam") == "devam"
    ensures Lower("reddedildi") == "reddedildi"
  {
    assert Lower("beklemede") == "beklemede" by {
      forall i | 0 <= i < 9 ensures Lower("beklemede")[i] == "beklemede"[i] {}
    }
    assert Lower("devam") == "devam" by {
      forall i | 0 <= i < 5 ensures Lower("devam")[i] == "devam"[i] {}
    }
    assert Lower("reddedildi") == "reddedildi" by {
      forall i | 0 <= i < 10 ensures Lower("reddedildi")[i] == "reddedildi"[i] {}
    }
  }

  /** A stat card and the list under the matching select option, with an
      empty search, count the same applications. */
  lemma {:induction false} CardMatchesStatusOption(xs: seq<Assignment>, b: Badge, option: string)
    requires || (b == Waiting && option == "beklemede")
             || (b == Ongoing && option == "devam")
             || (b == Rejected && option == "reddedildi")
    ensures CardCount(xs, b.Text()) == |FilteredAssignments(xs, "", option)|
  {
    if |xs| > 0 {
      CardMatchesStatusOption(xs[1..], b, option);
      var a := xs[0];
      ContainsEmpty(Lower(a.name));
      assert MatchesSearch(a, "");
      LowerOptions();
      StatusOptionSelectsCard(StatusBadge(a.stages));
      BadgeTextsDistinct(StatusBadge(a.stages), b);
      assert MatchesStatus(a, option) <==> StatusBadge(a.stages).Text() == b.Text();
    }
  }

  /** A pattern with a character the text lacks does not occur in it. */
  lemma {:induction false} NoOccurrence(s: string, t: string, c: char)
    requires c in t && c !in s
    ensures !Contains(s, t)
    decreases |s|
  {
    if |t| <= |s| {
      var k :| 0 <= k < |t| && t[k] == c;
      assert s[k] in s;
      assert s[..|t|][k] != t[k];
    }
    if |s| > 0 {
      NoOccurrence(s[1..], t, c);
    }
  }
}

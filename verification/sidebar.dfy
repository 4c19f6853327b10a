/** The navigation sidebar (`SideBar.jsx`): the menu table, the effect that
    opens a group when the current path belongs to it, the group toggle, the
    active-link tests and the badge guard. */
module SideBar {
  import opened Common

  /** A link inside a group; `badge` is the optional count text. */
  datatype Child = Child(title: string, path: string, badge: Option<string>)

  datatype MenuItem =
    | Single(key: string, title: string, path: string, badge: Option<string>)
    | Group(key: string, title: string, badge: Option<string>, children: seq<Child>)

  const Applications := Group("applications", "Başvuru Yönetimi", Some("4"), [
    Child("Başvuru Formlarım", "/my-forms", None),
    Child("Başvuru Formları", "/forms", None),
    Child("Yeni Form", "/yeni-sablon", None),
    Child("Başvuranlar", "/applicants", Some("12"))
  ])

  const Recruitment := Group("recruitment", "İşe Alım Süreci", Some("3"), [
    Child("Şablonlar", "/workflows", None),
    Child("Görevler", "/tasks", Some("5")),
    Child("Adaylar", "/candidates", None),
    Child("Raporlar", "/reports", None)
  ])

  const System := Group("system", "Sistem Yönetimi", None, [
    Child("Kullanıcılar", "/users", None),
    Child("Ayarlar", "/settings", None),
    Child("Yetkiler", "/permissions", None)
  ])

  /** `menuItems`, in display order. */
  const MenuItems: seq<MenuItem> := [
    Single("dashboard", "Dashboard", "/", None),
    Applications,
    Recruitment,
    System,
    Single("contact", "İletişim", "/contact", None)
  ]

  // ---------------------------------------------------------------------
  // Active links
  // ---------------------------------------------------------------------

  /** `isItemActive(p)`: the link's path is the current path. */
  predicate IsItemActive(itemPath: string, pathname: string) {
    itemPath == pathname
  }

  /** `isGroupActive(children)`: `children.some(...)` over the child links. */
  function IsGroupActive(children: seq<Child>, pathname: string): (active: bool)
    ensures active <==> exists i :: 0 <= i < |children| && children[i].path == pathname
    decreases |children|
  {
    |children| > 0 && (children[0].path == pathname || IsGroupActive(children[1..], pathname))
  }

  /** Every link target of the menu, singles and children, in display
      order. */
  function LinkPaths(items: seq<MenuItem>): seq<string>
    decreases |items|
  {
    if |items| == 0 then []
    else
      match items[0]
      case Single(_, _, p, _) => [p] + LinkPaths(items[1..])
      case Group(_, _, _, cs) => ChildPaths(cs) + LinkPaths(items[1..])
  }

  /** The paths of a group's links, in order. */
  function ChildPaths(cs: seq<Child>): (ps: seq<string>)
    ensures |ps| == |cs|
    ensures forall i :: 0 <= i < |cs| ==> ps[i] == cs[i].path
  {
    seq(|cs|, i requires 0 <= i < |cs| => cs[i].path)
  }

  /** The link targets of the menu table, in display order. */
  lemma MenuLinkPaths()
    ensures LinkPaths(MenuItems) == ["/", "/my-forms", "/forms", "/yeni-sablon", "/applicants",
                                     "/workflows", "/tasks", "/candidates", "/reports",
                                     "/users", "/settings", "/permissions", "/contact"]
  {
    var m := MenuItems;
    assert ChildPaths(Applications.children) == ["/my-forms", "/forms", "/yeni-sablon", "/applicants"];
    assert ChildPaths(Recruitment.children) == ["/workflows", "/tasks", "/candidates", "/reports"];
    assert ChildPaths(System.children) == ["/users", "/settings", "/permissions"];
    assert LinkPaths(m[4..]) == ["/contact"] by {
      assert m[4..][1..] == [];
    }
    assert m[3..][1..] == m[4..];
    assert m[2..][1..] == m[3..];
    assert m[1..][1..] == m[2..];
    assert LinkPaths(m[3..]) == ChildPaths(System.children) + LinkPaths(m[4..]);
    assert LinkPaths(m[2..]) == ChildPaths(Recruitment.children) + LinkPaths(m[3..]);
    assert LinkPaths(m[1..]) == ChildPaths(Applications.children) + LinkPaths(m[2..]);
    assert LinkPaths(m) == ["/"] + LinkPaths(m[1..]);
  }

  /** The menu's link targets are pairwise different, so for any path at
      most one link is highlighted. */
  lemma MenuLinksDistinct(pathname: string)
    ensures forall i, j :: 0 <= i < j < |LinkPaths(MenuItems)| ==> LinkPaths(MenuItems)[i] != LinkPaths(MenuItems)[j]
    ensures forall i, j ::
              (&& 0 <= i < |LinkPaths(MenuItems)| && 0 <= j < |LinkPaths(MenuItems)|
               && IsItemActive(LinkPaths(MenuItems)[i], pathname)
               && IsItemActive(LinkPaths(MenuItems)[j], pathname)) ==> i == j
  {
    MenuLinkPaths();
  }

  // ---------------------------------------------------------------------
  // Open groups
  // ---------------------------------------------------------------------

  /** One `if ([...paths].includes(currentPath))` block of the effect,
      opening the group `key`. */
  datatype Trigger = Trigger(paths: seq<string>, key: string)

  /** Some trigger for `key` lists `pathname`. */
  predicate Triggered(ts: seq<Trigger>, pathname: string, key: string) {
    exists i :: 0 <= i < |ts| && ts[i].key == key && pathname in ts[i].paths
  }

  /** The effect's blocks run in order, each setting its key to true when it
      fires. A group is open afterwards exactly when it was open before or
      some block for it fired; keys no block fired for keep their value, so
      the effect never closes a menu. */
  function OpenFor(open: map<string, bool>, ts: seq<Trigger>, pathname: string): (r: map<string, bool>)
    ensures forall k :: IsOn(r, k) <==> IsOn(open, k) || Triggered(ts, pathname, k)
    ensures forall k :: k in open && !Triggered(ts, pathname, k) ==> k in r && r[k] == open[k]
    ensures forall k :: k in r ==> k in open || IsOn(r, k)
    decreases |ts|
  {
    if |ts| == 0 then open
    else
      var next := if pathname in ts[0].paths then open[ts[0].key := true] else open;
      assert forall k :: Triggered(ts, pathname, k) <==>
        (ts[0].key == k && pathname in ts[0].paths) || Triggered(ts[1..], pathname, k)
      by {
        forall k | Triggered(ts[1..], pathname, k)
          ensures Triggered(ts, pathname, k)
        {
          var i :| 0 <= i < |ts[1..]| && ts[1..][i].key == k && pathname in ts[1..][i].paths;
          assert ts[i + 1] == ts[1..][i];
        }
        forall k | Triggered(ts, pathname, k) && !(ts[0].key == k && pathname in ts[0].paths)
          ensures Triggered(ts[1..], pathname, k)
        {
          var i :| 0 <= i < |ts| && ts[i].key == k && pathname in ts[i].paths;
          assert ts[1..][i - 1] == ts[i];
        }
      }
      OpenFor(next, ts[1..], pathname)
  }

  /** The three blocks of the effect as written. The applications block
      lists '/new-form', a path no child link has, and omits '/yeni-sablon',
      the path of its 'Yeni Form' link. */
  const TriggersAsWritten: seq<Trigger> := [
    Trigger(["/my-forms", "/forms", "/new-form", "/applicants"], "applications"),
    Trigger(["/workflows", "/tasks", "/candidates", "/reports"], "recruitment"),
    Trigger(["/users", "/settings", "/permissions"], "system")
  ]

  /** The effect as written. */
  function AutoOpenAsWritten(open: map<string, bool>, pathname: string): (r: map<string, bool>)
    ensures forall k :: IsOn(open, k) ==> IsOn(r, k)
    ensures forall k :: IsOn(r, k) <==> IsOn(open, k) || Triggered(TriggersAsWritten, pathname, k)
  {
    OpenFor(open, TriggersAsWritten, pathname)
  }

  /** One block per group, listing exactly that group's link paths. */
  function TriggersOf(items: seq<MenuItem>): (ts: seq<Trigger>)
    ensures forall i :: 0 <= i < |items| && items[i].Group? ==>
              Trigger(ChildPaths(items[i].children), items[i].key) in ts
    ensures forall t :: t in ts ==>
              (exists i :: 0 <= i < |items| && items[i].Group? &&
                           t == Trigger(ChildPaths(items[i].children), items[i].key))
    decreases |items|
  {
    if |items| == 0 then []
    else
      var rest := TriggersOf(items[1..]);
      assert forall i :: 1 <= i < |items| ==> items[i] == items[1..][i - 1];
      if items[0].Group? then [Trigger(ChildPaths(items[0].children), items[0].key)] + rest
      else rest
  }

  /** The effect with its blocks derived from the menu table. */
  function AutoOpen(open: map<string, bool>, pathname: string): (r: map<string, bool>)
    ensures forall k :: IsOn(open, k) ==> IsOn(r, k)
    ensures forall k :: k in open && !Triggered(TriggersOf(MenuItems), pathname, k) ==> k in r && r[k] == open[k]
  {
    OpenFor(open, TriggersOf(MenuItems), pathname)
  }

  /** With blocks derived from a menu, a group of that menu is opened when
      one of its links is the current path. */
  lemma DerivedTriggersOpenActive(open: map<string, bool>, items: seq<MenuItem>, pathname: string, g: MenuItem)
    requires g in items && g.Group? && IsGroupActive(g.children, pathname)
    ensures IsOn(OpenFor(open, TriggersOf(items), pathname), g.key)
  {
    var ts := TriggersOf(items);
    var t := Trigger(ChildPaths(g.children), g.key);
    assert t in ts;
    var j :| 0 <= j < |g.children| && g.children[j].path == pathname;
    assert pathname == t.paths[j];
    var k :| 0 <= k < |ts| && ts[k] == t;
    assert Triggered(ts, pathname, g.key);
  }

  /** With blocks derived from a menu, a group the effect opens is one
      whose links include the current path. */
  lemma DerivedTriggersOpenOnlyActive(open: map<string, bool>, items: seq<MenuItem>, pathname: string, key: string)
    requires IsOn(OpenFor(open, TriggersOf(items), pathname), key) && !IsOn(open, key)
    ensures exists h :: h in items && h.Group? && h.key == key && IsGroupActive(h.children, pathname)
  {
    var ts := TriggersOf(items);
    var k :| 0 <= k < |ts| && ts[k].key == key && pathname in ts[k].paths;
    assert ts[k] in ts;
    var m :| 0 <= m < |items| && items[m].Group? &&
             ts[k] == Trigger(ChildPaths(items[m].children), items[m].key);
    var h := items[m];
    var j :| 0 <= j < |ChildPaths(h.children)| && ChildPaths(h.children)[j] == pathname;
    assert h.children[j].path == pathname;
    assert h in items;
  }

  /** With the blocks derived from the menu table, a group is opened exactly
      when one of its links is the current path (or it was open already). */
  lemma AutoOpenOpensActiveGroup(open: map<string, bool>, pathname: string, key: string)
    ensures (exists g :: g in MenuItems && g.Group? && g.key == key && IsGroupActive(g.children, pathname))
            ==> IsOn(AutoOpen(open, pathname), key)
    ensures IsOn(AutoOpen(open, pathname), key) && !IsOn(open, key) ==>
              exists g :: g in MenuItems && g.Group? && g.key == key && IsGroupActive(g.children, pathname)
  {
    if g :| g in MenuItems && g.Group? && g.key == key && IsGroupActive(g.children, pathname) {
      DerivedTriggersOpenActive(open, MenuItems, pathname, g);
    }
    if IsOn(AutoOpen(open, pathname), key) && !IsOn(open, key) {
      DerivedTriggersOpenOnlyActive(open, MenuItems, pathname, key);
    }
  }

  /** On the 'Yeni Form' page the applications group is highlighted but the
      effect as written leaves it closed; on '/new-form' it opens the group
      although none of its links is highlighted. */
  lemma NewFormLinkNotOpened()
    ensures IsGroupActive(Applications.children, "/yeni-sablon")
    ensures !IsOn(AutoOpenAsWritten(map[], "/yeni-sablon"), "applications")
    ensures IsOn(AutoOpenAsWritten(map[], "/new-form"), "applications")
    ensures !IsGroupActive(Applications.children, "/new-form")
  {
    ApplicationsLinks();
    ApplicationsTriggersAsWritten();
  }

  /** The applications group links to '/yeni-sablon' and not to '/new-form'. */
  lemma ApplicationsLinks()
    ensures IsGroupActive(Applications.children, "/yeni-sablon")
    ensures !IsGroupActive(Applications.children, "/new-form")
  {
    assert Applications.children[2].path == "/yeni-sablon";
  }

  /** The literal lists name the applications group for '/new-form' and for
      no block on '/yeni-sablon'. */
  lemma ApplicationsTriggersAsWritten()
    ensures !Triggered(TriggersAsWritten, "/yeni-sablon", "applications")
    ensures Triggered(TriggersAsWritten, "/new-form", "applications")
  {
    var ps := TriggersAsWritten[0].paths;
    assert ps == ["/my-forms", "/forms", "/new-form", "/applicants"];
    assert "/yeni-sablon" !in ps;
    assert TriggersAsWritten[1].key != "applications";
    assert TriggersAsWritten[2].key != "applications";
    assert ps[2] == "/new-form";
  }

  /** The derived effect opens the applications group on 'Yeni Form'. */
  lemma NewFormLinkOpensGroup()
    ensures IsOn(AutoOpen(map[], "/yeni-sablon"), "applications")
  {
    assert Applications.children[2].path == "/yeni-sablon";
    assert MenuItems[1] == Applications;
    DerivedTriggersOpenActive(map[], MenuItems, "/yeni-sablon", Applications);
  }

  // ---------------------------------------------------------------------
  // Toggle and badge
  // ---------------------------------------------------------------------

  /** `toggleMenu(key)`: only that group's flag flips. */
  function ToggleMenu(open: map<string, bool>, key: string): (r: map<string, bool>)
    ensures IsOn(r, key) <==> !IsOn(open, key)
    ensures forall k :: k != key ==> (IsOn(r, k) <==> IsOn(open, k))
  {
    Toggle(open, key)
  }

  /** Opening by the effect and then clicking the group header closes it,
      whatever its earlier state. */
  lemma HeaderClickClosesOpenedGroup(open: map<string, bool>, pathname: string, g: MenuItem)
    requires g in MenuItems && g.Group? && IsGroupActive(g.children, pathname)
    ensures !IsOn(ToggleMenu(AutoOpen(open, pathname), g.key), g.key)
  {
    DerivedTriggersOpenActive(open, MenuItems, pathname, g);
  }

  /** `Badge`: a falsy count (missing or the empty string) renders nothing;
      any other count renders as its text. */
  function RenderBadge(count: Option<string>): (r: Option<string>)
    ensures r.None? <==> count.None? || count.value == ""
    ensures r.Some? ==> r == count
  {
    if count.None? || count.value == "" then None else count
  }

  /** Every badge configured in the menu is rendered: the guard only hides
      items that have no badge. */
  lemma MenuBadgesRender()
    ensures forall i :: 0 <= i < |MenuItems| ==> RenderBadge(MenuItems[i].badge) == MenuItems[i].badge
    ensures forall i :: 0 <= i < |Applications.children| ==>
              RenderBadge(Applications.children[i].badge) == Applications.children[i].badge
    ensures forall i :: 0 <= i < |Recruitment.children| ==>
              RenderBadge(Recruitment.children[i].badge) == Recruitment.children[i].badge
  {
  }
}

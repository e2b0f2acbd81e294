/** The ordered listings: workspaces by id, their tabs in list order, their panes in list order. */
module RegistryListing {
  import opened Prelude
  import opened RegistryModel
  import opened RegistryIntegrity

  predicate IsMin(s: set<Id>, m: Id) { m in s && forall x :: x in s ==> m <= x }

  lemma HasMin(s: set<Id>)
    requires s != {}
    ensures exists m :: IsMin(s, m)
    decreases |s|
  {
    var a :| a in s;
    var rest := s - {a};
    var k := a;
    if rest != {} {
      HasMin(rest);
      var m :| IsMin(rest, m);
      k := if a < m then a else m;
    }
    forall x | x in s ensures k <= x {
      assert x == a || x in rest;
    }
    assert IsMin(s, k);
  }

  ghost function Min(s: set<Id>): (m: Id)
    requires s != {}
    ensures m in s && forall x :: x in s ==> m <= x
  {
    HasMin(s);
    var m :| IsMin(s, m);
    m
  }

  /** `sort_by_key` over the numbers in the ids, one minimum at a time. */
  ghost function Sorted(s: set<Id>): seq<Id>
    decreases |s|
  {
    if s == {} then [] else [Min(s)] + Sorted(s - {Min(s)})
  }

  predicate Ascending(s: seq<Id>) { forall i, j :: 0 <= i < j < |s| ==> s[i] < s[j] }

  lemma {:induction false} SortedIs(s: set<Id>)
    ensures forall x :: x in Sorted(s) <==> x in s
    ensures Ascending(Sorted(s))
    decreases |s|
  {
    if s != {} {
      var rest := Sorted(s - {Min(s)});
      SortedIs(s - {Min(s)});
      AscendingConcat([Min(s)], rest);
    }
  }

  lemma AscendingConcat(a: seq<Id>, b: seq<Id>)
    requires Ascending(a) && Ascending(b) && forall x, y :: x in a && y in b ==> x < y
    ensures Ascending(a + b)
  {
    var c := a + b;
    forall i, j | 0 <= i < j < |c| ensures c[i] < c[j] {
      if i < |a| <= j { assert c[i] in a && c[j] in b; }
    }
  }

  /** `filter_map(|id| map.get(id))`: ids without a record are skipped. */
  function Present(ids: seq<Id>, known: set<Id>): seq<Id> {
    if ids == [] then []
    else Present(ids[..|ids| - 1], known) + if ids[|ids| - 1] in known then [ids[|ids| - 1]] else []
  }

  lemma {:induction false} AllPresent(ids: seq<Id>, known: set<Id>)
    requires forall x :: x in ids ==> x in known
    ensures Present(ids, known) == ids
    decreases |ids|
  {
    if ids != [] { AllPresent(ids[..|ids| - 1], known); }
  }

  function TabsOf(d: Data, ws: seq<Id>): seq<Id>
    requires forall w :: w in ws ==> w in d.workspaces
  {
    if ws == [] then [] else TabsOf(d, ws[..|ws| - 1]) + Present(d.workspaces[ws[|ws| - 1]].tabs, d.tabs.Keys)
  }

  /** The workspaces a listing visits. */
  function Chosen(ws: seq<Id>, only: Option<Id>): (r: seq<Id>)
    ensures forall w :: w in r <==> w in ws && (only.None? || w == only.value)
  {
    if ws == [] then []
    else
      var w := ws[|ws| - 1];
      assert ws == ws[..|ws| - 1] + [w];
      Chosen(ws[..|ws| - 1], only) + if only.None? || w == only.value then [w] else []
  }

  ghost function ListedTabs(d: Data, only: Option<Id>): seq<Id> {
    SortedIs(d.workspaces.Keys);
    TabsOf(d, Chosen(Sorted(d.workspaces.Keys), only))
  }

  /** One more workspace visited. */
  lemma ListStep(d: Data, order: seq<Id>, i: nat, only: Option<Id>)
    requires i < |order| && forall w :: w in order ==> w in d.workspaces
    ensures forall k :: 0 <= k <= |order| ==> forall w :: w in Chosen(order[..k], only) ==> w in d.workspaces
    ensures TabsOf(d, Chosen(order[..i + 1], only)) ==
            TabsOf(d, Chosen(order[..i], only))
            + if only.None? || order[i] == only.value then Present(d.workspaces[order[i]].tabs, d.tabs.Keys) else []
  {
    var ws := Chosen(order[..i], only);
    assert order[..i + 1][..i] == order[..i];
    assert (ws + [order[i]])[..|ws|] == ws && ws + [] == ws;
  }

  function PanesOf(d: Data, ts: seq<Id>): seq<Id>
    requires forall t :: t in ts ==> t in d.tabs
  {
    if ts == [] then [] else PanesOf(d, ts[..|ts| - 1]) + Present(d.tabs[ts[|ts| - 1]].panes, d.panes.Keys)
  }

  lemma NoDupConcat(a: seq<Id>, b: seq<Id>)
    requires NoDup(a) && NoDup(b) && forall x :: x in a ==> x !in b
    ensures NoDup(a + b)
  {
    var c := a + b;
    forall i, j | 0 <= i < j < |c| ensures c[i] != c[j] {
      if i < |a| <= j { assert c[i] in a && c[j] in b; }
    }
  }

  lemma {:induction false} TabsOfIs(d: Data, ws: seq<Id>)
    requires Integrity(d) && NoDup(ws) && forall w :: w in ws ==> w in d.workspaces
    ensures NoDup(TabsOf(d, ws))
    ensures forall t :: t in TabsOf(d, ws) <==> t in d.tabs && d.tabs[t].ws in ws
    decreases |ws|
  {
    if ws != [] {
      var init := ws[..|ws| - 1];
      var w := ws[|ws| - 1];
      assert ws == init + [w];
      assert w !in init;
      TabsOfIs(d, init);
      AllPresent(d.workspaces[w].tabs, d.tabs.Keys);
      NoDupConcat(TabsOf(d, init), d.workspaces[w].tabs);
    }
  }

  lemma {:induction false} PanesOfIs(d: Data, ts: seq<Id>)
    requires Integrity(d) && NoDup(ts) && forall t :: t in ts ==> t in d.tabs
    ensures NoDup(PanesOf(d, ts))
    ensures forall p :: p in PanesOf(d, ts) <==> p in d.panes && d.panes[p].tab in ts
    decreases |ts|
  {
    if ts != [] {
      var init := ts[..|ts| - 1];
      var t := ts[|ts| - 1];
      assert ts == init + [t];
      assert t !in init;
      PanesOfIs(d, init);
      AllPresent(d.tabs[t].panes, d.panes.Keys);
      NoDupConcat(PanesOf(d, init), d.tabs[t].panes);
    }
  }

  lemma {:induction false} ChosenOnce(ws: seq<Id>, only: Option<Id>)
    requires Ascending(ws)
    ensures Ascending(Chosen(ws, only))
    decreases |ws|
  {
    if ws != [] {
      var init := ws[..|ws| - 1];
      var w := ws[|ws| - 1];
      ChosenOnce(init, only);
      assert forall k :: 0 <= k < |init| ==> init[k] == ws[k] < w;
      if only.None? || w == only.value { AscendingConcat(Chosen(init, only), [w]); }
    }
  }

  predicate Asked(only: Option<Id>, w: Id) { only.None? || w == only.value }

  lemma ListedAreThere(d: Data, only: Option<Id>)
    requires Integrity(d)
    ensures NoDup(ListedTabs(d, only))
    ensures forall t :: t in ListedTabs(d, only) <==> t in d.tabs && Asked(only, d.tabs[t].ws)
  {
    SortedIs(d.workspaces.Keys);
    ChosenOnce(Sorted(d.workspaces.Keys), only);
    TabsOfIs(d, Chosen(Sorted(d.workspaces.Keys), only));
  }

  lemma {:induction false} PresentAreKnown(ids: seq<Id>, known: set<Id>)
    ensures forall x :: x in Present(ids, known) ==> x in known
    decreases |ids|
  {
    if ids != [] { PresentAreKnown(ids[..|ids| - 1], known); }
  }

  lemma {:induction false} TabsAreThere(d: Data, ws: seq<Id>)
    requires forall w :: w in ws ==> w in d.workspaces
    ensures forall t :: t in TabsOf(d, ws) ==> t in d.tabs
    decreases |ws|
  {
    if ws != [] {
      TabsAreThere(d, ws[..|ws| - 1]);
      PresentAreKnown(d.workspaces[ws[|ws| - 1]].tabs, d.tabs.Keys);
    }
  }

  ghost function ListedPanes(d: Data, only: Option<Id>): seq<Id> {
    SortedIs(d.workspaces.Keys);
    TabsAreThere(d, Chosen(Sorted(d.workspaces.Keys), only));
    PanesOf(d, ListedTabs(d, only))
  }

  /** Each tab and each pane of an intact registry is listed exactly once, or, when one workspace is asked
      for, exactly those in it. */
  lemma ListedOnce(d: Data, only: Option<Id>)
    requires Integrity(d)
    ensures NoDup(ListedTabs(d, only)) && NoDup(ListedPanes(d, only))
    ensures forall t :: t in ListedTabs(d, only) <==> t in d.tabs && Asked(only, d.tabs[t].ws)
    ensures forall p :: p in ListedPanes(d, only) <==> p in d.panes && Asked(only, d.panes[p].ws)
  {
    ListedAreThere(d, only);
    PanesOfIs(d, ListedTabs(d, only));
    assert forall p :: p in d.panes ==> d.panes[p].tab in d.tabs && d.panes[p].ws == d.tabs[d.panes[p].tab].ws;
  }

  // ------------------------------------------------------------ the order of a listing

  ghost predicate InOrder(s: seq<Id>, a: Id, b: Id) { exists i, j :: 0 <= i < j < |s| && s[i] == a && s[j] == b }

  /** Tab a comes before tab b: in an earlier workspace, or earlier on the list of the same one. */
  ghost predicate TabBefore(d: Data, a: Id, b: Id) {
    && a in d.tabs && b in d.tabs
    && (d.tabs[a].ws < d.tabs[b].ws
        || (d.tabs[a].ws == d.tabs[b].ws && d.tabs[a].ws in d.workspaces
            && InOrder(d.workspaces[d.tabs[a].ws].tabs, a, b)))
  }

  lemma {:induction false} TabsInOrder(d: Data, ws: seq<Id>)
    requires Integrity(d) && Ascending(ws) && forall w :: w in ws ==> w in d.workspaces
    ensures TabsOrdered(d, TabsOf(d, ws))
    decreases |ws|
  {
    if ws != [] {
      var init := ws[..|ws| - 1];
      TabsInOrder(d, init);
      TabsBelow(d, ws);
      AllPresent(d.workspaces[ws[|ws| - 1]].tabs, d.tabs.Keys);
      TabsAppend(d, TabsOf(d, init), ws[|ws| - 1]);
    }
  }

  ghost predicate TabsOrdered(d: Data, ts: seq<Id>) {
    forall i, j :: 0 <= i < j < |ts| ==> TabBefore(d, ts[i], ts[j])
  }

  lemma TabsBelow(d: Data, ws: seq<Id>)
    requires Integrity(d) && ws != [] && Ascending(ws) && forall w :: w in ws ==> w in d.workspaces
    ensures forall t :: t in TabsOf(d, ws[..|ws| - 1]) ==> t in d.tabs && d.tabs[t].ws < ws[|ws| - 1]
    ensures forall t :: t in d.workspaces[ws[|ws| - 1]].tabs ==> t in d.tabs
  {
    TabsOfIs(d, ws[..|ws| - 1]);
  }

  lemma TabsAppend(d: Data, ts: seq<Id>, w: Id)
    requires TabLayer(d.workspaces, d.tabs, {}) && w in d.workspaces
    requires TabsOrdered(d, ts)
    requires forall t :: t in ts ==> t in d.tabs && d.tabs[t].ws < w
    ensures TabsOrdered(d, ts + d.workspaces[w].tabs)
  {
    var own := d.workspaces[w].tabs;
    var all := ts + own;
    forall i, j | 0 <= i < j < |all| ensures TabBefore(d, all[i], all[j]) {
      if j < |ts| {
        assert TabBefore(d, ts[i], ts[j]);
      } else if i < |ts| {
        assert all[i] in ts && all[j] in own;
      } else {
        assert own[i - |ts|] in own && own[j - |ts|] in own;
        assert InOrder(own, all[i], all[j]);
      }
    }
  }

  lemma {:induction false} PanesInOrder(d: Data, ts: seq<Id>)
    requires Integrity(d) && NoDup(ts) && forall t :: t in ts ==> t in d.tabs
    ensures PanesOrdered(d, ts, PanesOf(d, ts))
    decreases |ts|
  {
    if ts != [] {
      var init := ts[..|ts| - 1];
      PanesInOrder(d, init);
      PanesThere(d, ts);
      AllPresent(d.tabs[ts[|ts| - 1]].panes, d.panes.Keys);
      PanesAppend(d, init, PanesOf(d, init), ts[|ts| - 1]);
      assert init + [ts[|ts| - 1]] == ts;
    }
  }

  lemma PanesThere(d: Data, ts: seq<Id>)
    requires Integrity(d) && ts != [] && NoDup(ts) && forall t :: t in ts ==> t in d.tabs
    ensures forall p :: p in PanesOf(d, ts[..|ts| - 1]) ==> p in d.panes && d.panes[p].tab in ts[..|ts| - 1]
    ensures forall p :: p in d.tabs[ts[|ts| - 1]].panes ==> p in d.panes
  {
    PanesOfIs(d, ts[..|ts| - 1]);
  }

  /** Pane a comes before pane b: in an earlier tab of the list, or earlier on the list of the same tab. */
  ghost predicate PaneBefore(d: Data, ts: seq<Id>, a: Id, b: Id) {
    && a in d.panes && b in d.panes
    && (InOrder(ts, d.panes[a].tab, d.panes[b].tab)
        || (d.panes[a].tab == d.panes[b].tab && d.panes[a].tab in d.tabs
            && InOrder(d.tabs[d.panes[a].tab].panes, a, b)))
  }

  ghost predicate PanesOrdered(d: Data, ts: seq<Id>, ps: seq<Id>) {
    forall i, j :: 0 <= i < j < |ps| ==> PaneBefore(d, ts, ps[i], ps[j])
  }

  lemma PanesAppend(d: Data, ts: seq<Id>, ps: seq<Id>, t: Id)
    requires PaneLayer(d.tabs, d.panes) && t in d.tabs
    requires PanesOrdered(d, ts, ps)
    requires forall p :: p in ps ==> p in d.panes && d.panes[p].tab in ts
    ensures PanesOrdered(d, ts + [t], ps + d.tabs[t].panes)
  {
    var own := d.tabs[t].panes;
    var all := ps + own;
    forall i, j | 0 <= i < j < |all| ensures PaneBefore(d, ts + [t], all[i], all[j]) {
      if j < |ps| {
        assert PaneBefore(d, ts, ps[i], ps[j]);
        LaterToo(ts, t, d.panes[ps[i]].tab, d.panes[ps[j]].tab);
      } else if i < |ps| {
        assert all[i] in ps && all[j] in own;
        LastAfter(ts, t, d.panes[ps[i]].tab);
      } else {
        assert own[i - |ps|] in own && own[j - |ps|] in own;
        assert InOrder(own, all[i], all[j]);
      }
    }
  }

  lemma LaterToo(ts: seq<Id>, t: Id, a: Id, b: Id)
    ensures InOrder(ts, a, b) ==> InOrder(ts + [t], a, b)
  {
    if InOrder(ts, a, b) {
      var i, j :| 0 <= i < j < |ts| && ts[i] == a && ts[j] == b;
      assert (ts + [t])[i] == a && (ts + [t])[j] == b;
    }
  }

  lemma LastAfter(ts: seq<Id>, t: Id, a: Id)
    requires a in ts
    ensures InOrder(ts + [t], a, t)
  {
    var i :| 0 <= i < |ts| && ts[i] == a;
    assert (ts + [t])[i] == a && (ts + [t])[|ts|] == t;
  }

  /** A listing goes by ascending workspace, then by the order of the tabs in it, then of the panes in those. */
  lemma ListedInOrder(d: Data, only: Option<Id>)
    requires Integrity(d)
    ensures TabsOrdered(d, ListedTabs(d, only))
    ensures PanesOrdered(d, ListedTabs(d, only), ListedPanes(d, only))
  {
    ListedTabsInOrder(d, only);
    ListedAreThere(d, only);
    PanesInOrder(d, ListedTabs(d, only));
  }

  lemma ListedTabsInOrder(d: Data, only: Option<Id>)
    requires Integrity(d)
    ensures TabsOrdered(d, ListedTabs(d, only))
  {
    SortedIs(d.workspaces.Keys);
    ChosenOnce(Sorted(d.workspaces.Keys), only);
    TabsInOrder(d, Chosen(Sorted(d.workspaces.Keys), only));
  }

  /** There is only one ascending list of a set. */
  lemma {:induction false} SortedUnique(s: set<Id>, order: seq<Id>)
    requires Ascending(order) && forall x :: x in order <==> x in s
    ensures order == Sorted(s)
    decreases |s|
  {
    if order == [] {
      assert forall x :: x !in s;
    } else {
      FirstIsLeast(s, order);
      SortedUnique(s - {order[0]}, order[1..]);
      SortedFrom(s, order);
    }
  }

  lemma SortedFrom(s: set<Id>, order: seq<Id>)
    requires s != {} && order != [] && order[0] == Min(s) && order[1..] == Sorted(s - {order[0]})
    ensures order == Sorted(s)
  {
    assert order == [order[0]] + order[1..];
  }

  lemma FirstIsLeast(s: set<Id>, order: seq<Id>)
    requires order != [] && Ascending(order) && forall x :: x in order <==> x in s
    ensures s != {} && order[0] == Min(s) && Ascending(order[1..])
    ensures forall x :: x in order[1..] <==> x in s - {order[0]}
  {
    assert order[0] in s;
    HeadIsLeast(order);
    TailWithoutHead(order[0], order[1..]);
    assert order == [order[0]] + order[1..];
  }

  lemma HeadIsLeast(order: seq<Id>)
    requires order != [] && Ascending(order)
    ensures forall x :: x in order ==> order[0] <= x
  {
  }

  lemma TailWithoutHead(m: Id, rest: seq<Id>)
    requires Ascending([m] + rest)
    ensures Ascending(rest) && forall x :: x in rest <==> x in [m] + rest && x != m
  {
    var all := [m] + rest;
    assert forall k :: 0 <= k < |rest| ==> rest[k] == all[k + 1];
    assert all[0] == m && forall k :: 0 <= k < |rest| ==> m < rest[k];
    assert forall x :: x in all <==> x == m || x in rest;
  }

  lemma Inserted(a: seq<Id>, w: Id, b: seq<Id>)
    requires Ascending(a + b) && (forall x :: x in a ==> x < w) && (b != [] ==> w < b[0])
    ensures Ascending(a + [w] + b)
    ensures forall x :: x in a + [w] + b <==> x in a + b || x == w
  {
    HalvesAscend(a, b);
    AscendingConcat(a, [w]);
    forall x, y | x in a + [w] && y in b ensures x < y { assert x <= w; }
    AscendingConcat(a + [w], b);
  }

  lemma HalvesAscend(a: seq<Id>, b: seq<Id>)
    requires Ascending(a + b)
    ensures Ascending(a) && Ascending(b) && (b != [] ==> forall y :: y in b ==> b[0] <= y)
  {
    var c := a + b;
    assert forall k :: 0 <= k < |a| ==> c[k] == a[k];
    assert forall k :: 0 <= k < |b| ==> c[|a| + k] == b[k];
  }
}

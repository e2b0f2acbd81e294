/** Referential integrity of the registry, kept by every mutex section. */
module RegistryIntegrity {
  import opened Prelude
  import opened RegistryModel

  type Workspaces = map<Id, Workspace>
  type Tabs = map<Id, Tab>
  type Panes = map<Id, Pane>

  // --------------------------------------------------------------- invariants

  /** Workspaces and tabs refer to each other; `orphans` are tabs whose workspace row is already gone. */
  ghost predicate TabLayer(ws: Workspaces, tabs: Tabs, orphans: set<Id>) {
    && (forall w :: w in ws ==> NoDup(ws[w].tabs))
    && (forall w, t :: w in ws && t in ws[w].tabs ==> t in tabs && tabs[t].ws == w && t !in orphans)
    && (forall t :: t in tabs && t !in orphans ==> tabs[t].ws in ws && t in ws[tabs[t].ws].tabs)
    && (forall t :: t in tabs && t in orphans ==> tabs[t].ws !in ws)
  }

  /** Tabs and panes refer to each other, and every tab has a pane. */
  ghost predicate PaneLayer(tabs: Tabs, panes: Panes) {
    && (forall t :: t in tabs ==> tabs[t].panes != [] && NoDup(tabs[t].panes))
    && (forall t, p :: t in tabs && p in tabs[t].panes ==> p in panes && panes[p].tab == t)
    && (forall p :: p in panes ==>
          panes[p].tab in tabs && p in tabs[panes[p].tab].panes && panes[p].ws == tabs[panes[p].tab].ws)
  }

  function Terms(panes: Panes): set<Id> { set p | p in panes :: panes[p].term }

  /** Panes and terminals are in bijection. */
  ghost predicate TermLayer(panes: Panes, terminals: set<Id>) {
    && (forall p, q :: p in panes && q in panes && panes[p].term == panes[q].term ==> p == q)
    && terminals == Terms(panes)
  }

  predicate Below(d: Data) {
    && (forall w :: w in d.workspaces ==> w < d.nextId)
    && (forall t :: t in d.tabs ==> t < d.nextId)
    && (forall p :: p in d.panes ==> p < d.nextId)
    && (forall x :: x in d.terminals ==> x < d.nextId)
  }

  ghost predicate Layers(d: Data, orphans: set<Id>) {
    && TabLayer(d.workspaces, d.tabs, orphans)
    && PaneLayer(d.tabs, d.panes)
    && TermLayer(d.panes, d.terminals)
    && Below(d)
  }

  ghost predicate Integrity(d: Data) { Layers(d, {}) }

  // ------------------------------------------------------------------ closing a tab

  lemma {:induction false} WithoutNoDup(s: seq<Id>, x: Id)
    requires NoDup(s)
    ensures NoDup(Without(s, x))
    decreases |s|
  {
    if s != [] {
      var init := s[..|s| - 1];
      assert s[|s| - 1] !in init;
      WithoutNoDup(init, x);
    }
  }

  /** A list without x is the list with x cut out, in the old order. */
  lemma {:induction false} WithoutAt(s: seq<Id>, i: nat)
    requires NoDup(s) && i < |s|
    ensures Without(s, s[i]) == s[..i] + s[i + 1..]
    decreases |s|
  {
    var init := s[..|s| - 1];
    assert s[|s| - 1] !in init;
    if i < |init| {
      WithoutAt(init, i);
      assert init[..i] == s[..i] && init[i + 1..] + [s[|s| - 1]] == s[i + 1..];
    } else {
      assert s[..i] + s[i + 1..] == init;
    }
  }

  function IdSet(ps: seq<Id>): set<Id> { set p | p in ps }

  function TermsOf(panes: Panes, ps: seq<Id>): set<Id> { set p | p in ps && p in panes :: panes[p].term }

  /** Closing panes whose tab row is gone removes exactly them and their terminals. */
  lemma {:induction false} ClosePanesExact(d: Data, ps: seq<Id>)
    requires forall p :: p in ps && p in d.panes ==> d.panes[p].tab !in d.tabs
    ensures ClosePanesLocked(d, ps) ==
            d.(panes := d.panes - IdSet(ps), terminals := d.terminals - TermsOf(d.panes, ps))
    decreases |ps|
  {
    if ps == [] {
      assert d.panes - IdSet(ps) == d.panes && d.terminals - TermsOf(d.panes, ps) == d.terminals;
    } else {
      var init := ps[..|ps| - 1];
      var p := ps[|ps| - 1];
      ClosePanesExact(d, init);
      var d1 := ClosePanesLocked(d, init);
      assert ps == init + [p];
      assert IdSet(ps) == IdSet(init) + {p};
      assert d.panes - IdSet(ps) == d1.panes - {p};
      if p in d1.panes {
        assert TermsOf(d.panes, ps) == TermsOf(d.panes, init) + {d.panes[p].term};
      } else {
        assert TermsOf(d.panes, ps) == TermsOf(d.panes, init);
      }
    }
  }

  function Unlist(ws: Workspaces, w: Id, t: Id): Workspaces {
    if w in ws then ws[w := ws[w].(tabs := Without(ws[w].tabs, t))] else ws
  }

  /** The panes left when tab t goes. */
  function OtherPanes(panes: Panes, t: Id): Panes { map p | p in panes && panes[p].tab != t :: panes[p] }

  /** Closing a tab removes exactly the tab, its panes and their terminals, and takes it off its list. */
  lemma CloseTabExact(d: Data, t: Id)
    requires PaneLayer(d.tabs, d.panes) && TermLayer(d.panes, d.terminals) && t in d.tabs
    ensures CloseTabLocked(d, t) ==
            d.(tabs := d.tabs - {t}, panes := OtherPanes(d.panes, t), terminals := Terms(OtherPanes(d.panes, t)),
               workspaces := Unlist(d.workspaces, d.tabs[t].ws, t))
  {
    var d0 := d.(tabs := d.tabs - {t});
    var ps := d.tabs[t].panes;
    ClosePanesExact(d0, ps);
    assert d.panes - IdSet(ps) == OtherPanes(d.panes, t);
    TermsLeft(d, t);
  }

  lemma TermsLeft(d: Data, t: Id)
    requires PaneLayer(d.tabs, d.panes) && TermLayer(d.panes, d.terminals) && t in d.tabs
    ensures d.terminals - TermsOf(d.panes, d.tabs[t].panes) == Terms(OtherPanes(d.panes, t))
  {
    var rest := OtherPanes(d.panes, t);
    forall x ensures x in d.terminals - TermsOf(d.panes, d.tabs[t].panes) <==> x in Terms(rest) {
      if x in Terms(rest) { var p :| p in rest && rest[p].term == x; assert p in d.panes; }
      if x in d.terminals {
        var p :| p in d.panes && d.panes[p].term == x;
        assert p in rest || p in d.tabs[t].panes;
      }
    }
  }

  lemma FewerTerms(panes: Panes, fewer: Panes)
    requires forall p :: p in fewer ==> p in panes && fewer[p] == panes[p]
    ensures Terms(fewer) <= Terms(panes)
  {
  }

  lemma CloseTabTabs(ws: Workspaces, tabs: Tabs, t: Id, orphans: set<Id>)
    requires TabLayer(ws, tabs, orphans) && t in tabs
    ensures TabLayer(Unlist(ws, tabs[t].ws, t), tabs - {t}, orphans - {t})
  {
    var w0 := tabs[t].ws;
    if w0 in ws { WithoutNoDup(ws[w0].tabs, t); }
  }

  lemma CloseTabPanes(tabs: Tabs, panes: Panes, t: Id)
    requires PaneLayer(tabs, panes) && t in tabs
    ensures PaneLayer(tabs - {t}, OtherPanes(panes, t))
  {
  }

  lemma CloseTabKeeps(d: Data, t: Id, orphans: set<Id>)
    requires Layers(d, orphans)
    ensures Layers(CloseTabLocked(d, t), orphans - {t})
  {
    if t in d.tabs {
      CloseTabExact(d, t);
      CloseTabTabs(d.workspaces, d.tabs, t, orphans);
      CloseTabPanes(d.tabs, d.panes, t);
      FewerTerms(d.panes, OtherPanes(d.panes, t));
    }
  }

  lemma {:induction false} CloseTabsKeep(d: Data, ts: seq<Id>, orphans: set<Id>)
    requires Layers(d, orphans)
    ensures Layers(CloseTabsLocked(d, ts), orphans - IdSet(ts))
    decreases |ts|
  {
    if ts == [] {
      assert orphans - IdSet(ts) == orphans;
    } else {
      var init := ts[..|ts| - 1];
      CloseTabsKeep(d, init, orphans);
      CloseTabKeeps(CloseTabsLocked(d, init), ts[|ts| - 1], orphans - IdSet(init));
      assert ts == init + [ts[|ts| - 1]];
      assert orphans - IdSet(ts) == orphans - IdSet(init) - {ts[|ts| - 1]};
    }
  }

  // ------------------------------------------------------------------ closing a workspace

  lemma DropRow(ws: Workspaces, tabs: Tabs, w: Id)
    requires TabLayer(ws, tabs, {}) && w in ws
    ensures TabLayer(ws - {w}, tabs, IdSet(ws[w].tabs))
  {
    var gone := IdSet(ws[w].tabs);
    forall t | t in tabs ensures t in gone <==> tabs[t].ws == w {
      assert t in ws[tabs[t].ws].tabs;
    }
    forall v, t | v in ws - {w} && t in ws[v].tabs ensures t in tabs && tabs[t].ws == v && t !in gone {
      assert v in ws;
    }
  }

  lemma DropWorkspaceKeeps(d: Data, w: Id)
    requires Integrity(d)
    ensures Integrity(DropWorkspace(d, w))
  {
    if w in d.workspaces {
      var ts := d.workspaces[w].tabs;
      DropRow(d.workspaces, d.tabs, w);
      CloseTabsKeep(d.(workspaces := d.workspaces - {w}), ts, IdSet(ts));
      assert IdSet(ts) - IdSet(ts) == {};
    }
  }

  lemma {:induction false} DropWorkspacesKeep(d: Data, ws: seq<Id>)
    requires Integrity(d)
    ensures Integrity(DropWorkspaces(d, ws))
    decreases |ws|
  {
    if ws != [] {
      DropWorkspacesKeep(d, ws[..|ws| - 1]);
      DropWorkspaceKeeps(DropWorkspaces(d, ws[..|ws| - 1]), ws[|ws| - 1]);
    }
  }

  function PanesOutside(panes: Panes, ts: seq<Id>): Panes { map p | p in panes && panes[p].tab !in ts :: panes[p] }

  /** The registry without the tabs in ts and without their panes and terminals. */
  function Outside(d: Data, ts: seq<Id>): Data {
    d.(tabs := d.tabs - IdSet(ts), panes := PanesOutside(d.panes, ts), terminals := Terms(PanesOutside(d.panes, ts)))
  }

  /** Closing tabs whose workspace row is gone removes exactly them, their panes and their terminals. */
  lemma {:induction false} CloseTabsExact(d: Data, ts: seq<Id>, orphans: set<Id>)
    requires Layers(d, orphans) && IdSet(ts) <= orphans
    ensures CloseTabsLocked(d, ts) == Outside(d, ts)
    decreases |ts|
  {
    if ts == [] {
      assert d.tabs - IdSet(ts) == d.tabs && PanesOutside(d.panes, ts) == d.panes;
    } else {
      var init := ts[..|ts| - 1];
      var t := ts[|ts| - 1];
      assert ts == init + [t];
      CloseTabsExact(d, init, orphans);
      CloseTabsKeep(d, init, orphans);
      assert t in IdSet(ts);
      OutsideStep(d, init, t, orphans);
    }
  }

  lemma OutsideStep(d: Data, init: seq<Id>, t: Id, orphans: set<Id>)
    requires PaneLayer(Outside(d, init).tabs, Outside(d, init).panes)
    requires TermLayer(Outside(d, init).panes, Outside(d, init).terminals)
    requires t in orphans && (t in d.tabs ==> d.tabs[t].ws !in d.workspaces)
    ensures CloseTabLocked(Outside(d, init), t) == Outside(d, init + [t])
  {
    var d1 := Outside(d, init);
    assert IdSet(init + [t]) == IdSet(init) + {t};
    assert d1.tabs - {t} == d.tabs - IdSet(init + [t]);
    if t in d1.tabs {
      CloseTabExact(d1, t);
      assert OtherPanes(d1.panes, t) == PanesOutside(d.panes, init + [t]);
    } else {
      OutsideAlready(d1, d.panes, init, t);
      assert d1.tabs - {t} == d1.tabs;
    }
  }

  lemma OutsideAlready(d1: Data, panes: Panes, init: seq<Id>, t: Id)
    requires PaneLayer(d1.tabs, d1.panes) && d1.panes == PanesOutside(panes, init) && t !in d1.tabs
    ensures PanesOutside(panes, init + [t]) == d1.panes
  {
    assert forall p :: p in d1.panes ==> d1.panes[p].tab in d1.tabs;
  }

  function PanesElsewhere(panes: Panes, w: Id): Panes { map p | p in panes && panes[p].ws != w :: panes[p] }

  /** Dropping a workspace removes exactly its row, its tabs, their panes and their terminals. */
  lemma DropWorkspaceExact(d: Data, w: Id)
    requires Integrity(d) && w in d.workspaces
    ensures DropWorkspace(d, w) ==
            d.(workspaces := d.workspaces - {w},
               tabs := map t | t in d.tabs && d.tabs[t].ws != w :: d.tabs[t],
               panes := PanesElsewhere(d.panes, w),
               terminals := Terms(PanesElsewhere(d.panes, w)))
  {
    var ts := d.workspaces[w].tabs;
    DropRow(d.workspaces, d.tabs, w);
    CloseTabsExact(d.(workspaces := d.workspaces - {w}), ts, IdSet(ts));
    TabsOfWorkspace(d.workspaces, d.tabs, w);
    PanesOfWorkspace(d, w);
  }

  lemma TabsOfWorkspace(ws: Workspaces, tabs: Tabs, w: Id)
    requires TabLayer(ws, tabs, {}) && w in ws
    ensures tabs - IdSet(ws[w].tabs) == map t | t in tabs && tabs[t].ws != w :: tabs[t]
  {
  }

  lemma PanesOfWorkspace(d: Data, w: Id)
    requires TabLayer(d.workspaces, d.tabs, {}) && PaneLayer(d.tabs, d.panes) && w in d.workspaces
    ensures PanesOutside(d.panes, d.workspaces[w].tabs) == PanesElsewhere(d.panes, w)
  {
    forall p | p in d.panes ensures d.panes[p].tab in d.workspaces[w].tabs <==> d.panes[p].ws == w {
      assert d.panes[p].tab in d.tabs;
    }
  }

  /** The registry without these workspaces and without their tabs, panes and terminals. */
  function WithoutThese(d: Data, ws: seq<Id>): Data {
    var panes := map p | p in d.panes && d.panes[p].ws !in ws :: d.panes[p];
    d.(workspaces := map w | w in d.workspaces && w !in ws :: d.workspaces[w],
       tabs := map t | t in d.tabs && d.tabs[t].ws !in ws :: d.tabs[t],
       panes := panes, terminals := set p | p in panes :: panes[p].term)
  }

  /** Dropping a list of workspaces removes exactly those that are still there and everything in them. */
  lemma {:induction false} DropWorkspacesExact(d: Data, ws: seq<Id>)
    requires Integrity(d)
    ensures DropWorkspaces(d, ws) == WithoutThese(d, ws)
    decreases |ws|
  {
    if ws == [] {
      assert WithoutThese(d, ws).panes == d.panes && WithoutThese(d, ws).terminals == Terms(d.panes);
    } else {
      var init := ws[..|ws| - 1];
      var w := ws[|ws| - 1];
      assert ws == init + [w];
      DropWorkspacesExact(d, init);
      DropWorkspacesKeep(d, init);
      DropOneMore(d, init, w);
    }
  }

  lemma DropOneMore(d: Data, init: seq<Id>, w: Id)
    requires Integrity(WithoutThese(d, init))
    ensures DropWorkspace(WithoutThese(d, init), w) == WithoutThese(d, init + [w])
  {
    var d1 := WithoutThese(d, init);
    if w in d1.workspaces { DropWorkspaceExact(d1, w); } else { NothingThere(d1, w); }
    OneMoreGone(d, init, w);
  }

  lemma OneMoreGone(d: Data, init: seq<Id>, w: Id)
    ensures var d1 := WithoutThese(d, init); var d2 := WithoutThese(d, init + [w]);
      && d2.workspaces == d1.workspaces - {w}
      && d2.tabs == (map t | t in d1.tabs && d1.tabs[t].ws != w :: d1.tabs[t])
      && d2.panes == PanesElsewhere(d1.panes, w) && d2.terminals == Terms(d2.panes)
  {
  }

  lemma NothingThere(d: Data, w: Id)
    requires Integrity(d) && w !in d.workspaces
    ensures d.workspaces - {w} == d.workspaces
    ensures (map t | t in d.tabs && d.tabs[t].ws != w :: d.tabs[t]) == d.tabs
    ensures PanesElsewhere(d.panes, w) == d.panes && d.terminals == Terms(d.panes)
  {
    forall p | p in d.panes ensures d.panes[p].ws != w { assert d.panes[p].tab in d.tabs; }
  }

  // ------------------------------------------------------------------ closing a pane

  /** Closing the last pane of a tab is closing the tab. */
  lemma LastPaneClosesTab(d: Data, p: Id)
    requires PaneLayer(d.tabs, d.panes) && p in d.panes && d.tabs[d.panes[p].tab].panes == [p]
    ensures DropPane(d, p) == CloseTabLocked(d, d.panes[p].tab)
  {
    var t := d.panes[p].tab;
    var d1 := ClosePaneLocked(d, p);
    assert [p][..0] == [];
    assert Without([p], p) == [];
    var d0 := d.(tabs := d.tabs - {t});
    ClosePanesExact(d0, [p]);
    assert IdSet([p]) == {p} && TermsOf(d.panes, [p]) == {d.panes[p].term};
    assert ClosePanesLocked(d1.(tabs := d1.tabs - {t}), []) == d1.(tabs := d1.tabs - {t});
    assert d1.tabs - {t} == d.tabs - {t};
  }

  /** A list with p and something else keeps the something else. */
  lemma OtherPane(ps: seq<Id>, p: Id)
    requires NoDup(ps) && p in ps && ps != [p]
    ensures Without(ps, p) != []
  {
    if ps[0] == p { assert |ps| > 1; assert ps[1] != p && ps[1] in Without(ps, p); }
    else { assert ps[0] in Without(ps, p); }
  }

  lemma ClosePaneTerms(panes: Panes, terminals: set<Id>, p: Id)
    requires TermLayer(panes, terminals) && p in panes
    ensures TermLayer(panes - {p}, terminals - {panes[p].term})
  {
    var rest := panes - {p};
    forall x ensures x in terminals - {panes[p].term} <==> x in Terms(rest) {
      if x in terminals && x != panes[p].term {
        var q :| q in panes && panes[q].term == x;
        assert q in rest;
      }
      if x in Terms(rest) { var q :| q in rest && rest[q].term == x; assert q in panes; }
    }
  }

  lemma ClosePanePanes(tabs: Tabs, panes: Panes, p: Id)
    requires PaneLayer(tabs, panes) && p in panes && tabs[panes[p].tab].panes != [p]
    ensures var t := panes[p].tab;
      && Without(tabs[t].panes, p) != []
      && PaneLayer(tabs[t := tabs[t].(panes := Without(tabs[t].panes, p))], panes - {p})
  {
    var ps := tabs[panes[p].tab].panes;
    WithoutNoDup(ps, p);
    OtherPane(ps, p);
    UnlistPane(tabs, panes, p, Without(ps, p));
  }

  lemma UnlistPane(tabs: Tabs, panes: Panes, p: Id, rest: seq<Id>)
    requires PaneLayer(tabs, panes) && p in panes && rest != [] && NoDup(rest)
    requires forall y :: y in rest <==> y in tabs[panes[p].tab].panes && y != p
    ensures PaneLayer(tabs[panes[p].tab := tabs[panes[p].tab].(panes := rest)], panes - {p})
  {
  }

  lemma SameTabs(ws: Workspaces, tabs: Tabs, t: Id, tab: Tab)
    requires TabLayer(ws, tabs, {}) && t in tabs && tab.ws == tabs[t].ws
    ensures TabLayer(ws, tabs[t := tab], {})
  {
  }

  /** Closing a pane that is not its tab's last removes it and its terminal, takes it off its tab's list,
      whose order stays, and changes nothing else. */
  lemma ClosePaneExact(d: Data, p: Id)
    requires Integrity(d) && p in d.panes && d.tabs[d.panes[p].tab].panes != [p]
    ensures var t := d.panes[p].tab; var r := DropPane(d, p);
      && r.panes.Keys == d.panes.Keys - {p} && (forall q :: q in r.panes ==> r.panes[q] == d.panes[q])
      && r.terminals == Terms(r.panes)
      && r.tabs.Keys == d.tabs.Keys && (forall u :: u in d.tabs && u != t ==> r.tabs[u] == d.tabs[u])
      && r.tabs[t].ws == d.tabs[t].ws && r.tabs[t].title == d.tabs[t].title
      && (forall i :: 0 <= i < |d.tabs[t].panes| && d.tabs[t].panes[i] == p ==>
            r.tabs[t].panes == d.tabs[t].panes[..i] + d.tabs[t].panes[i + 1..])
      && r.workspaces == d.workspaces && r.focus == d.focus
  {
    ClosePanePanes(d.tabs, d.panes, p);
    ClosePaneTerms(d.panes, d.terminals, p);
    var ps := d.tabs[d.panes[p].tab].panes;
    forall i | 0 <= i < |ps| && ps[i] == p ensures Without(ps, p) == ps[..i] + ps[i + 1..] { WithoutAt(ps, i); }
  }

  lemma DropPaneKeeps(d: Data, p: Id)
    requires Integrity(d) && p in d.panes
    ensures Integrity(DropPane(d, p))
  {
    var t := d.panes[p].tab;
    if d.tabs[t].panes == [p] {
      LastPaneClosesTab(d, p);
      CloseTabKeeps(d, t, {});
      assert {} - {t} == {};
    } else {
      ClosePanePanes(d.tabs, d.panes, p);
      ClosePaneTerms(d.panes, d.terminals, p);
      SameTabs(d.workspaces, d.tabs, t, ClosePaneLocked(d, p).tabs[t]);
    }
  }

  // ------------------------------------------------------------------ inserting

  predicate Fresh(d: Data, t: Ticket) {
    match t
    case NewWorkspace(ws, tab, pane, term, _, _, _, _) =>
      ws !in d.workspaces && tab !in d.tabs && pane !in d.panes && term !in d.terminals
      && ws < d.nextId && tab < d.nextId && pane < d.nextId && term < d.nextId
    case BareWorkspace(ws, _, _, _) => ws !in d.workspaces && ws < d.nextId
    case NewTab(_, tab, pane, term, _, _, _) =>
      tab !in d.tabs && pane !in d.panes && term !in d.terminals
      && tab < d.nextId && pane < d.nextId && term < d.nextId
  }

  lemma AddTerm(panes: Panes, terminals: set<Id>, p: Id, pane: Pane)
    requires TermLayer(panes, terminals) && p !in panes && pane.term !in terminals
    ensures TermLayer(panes[p := pane], terminals + {pane.term})
  {
    var all := panes[p := pane];
    assert forall q :: q in panes ==> panes[q].term in Terms(panes);
    forall x ensures x in terminals + {pane.term} <==> x in Terms(all) {
      if x in terminals { var q :| q in panes && panes[q].term == x; assert q in all && all[q].term == x; }
      if x == pane.term { assert p in all && all[p].term == x; }
    }
  }

  lemma AddPaneRow(tabs: Tabs, panes: Panes, t: Id, tab: Tab, p: Id, pane: Pane)
    requires PaneLayer(tabs, panes) && t !in tabs && p !in panes
    requires tab.panes == [p] && pane.tab == t && pane.ws == tab.ws
    ensures PaneLayer(tabs[t := tab], panes[p := pane])
  {
  }

  lemma AddWorkspaceRow(ws: Workspaces, tabs: Tabs, w: Id, row: Workspace)
    requires TabLayer(ws, tabs, {}) && w !in ws && row.tabs == []
    ensures TabLayer(ws[w := row], tabs, {})
  {
  }

  lemma AddTabRow(ws: Workspaces, tabs: Tabs, w: Id, t: Id, tab: Tab)
    requires TabLayer(ws, tabs, {}) && w in ws && t !in tabs && tab.ws == w
    ensures TabLayer(ws[w := ws[w].(tabs := ws[w].tabs + [t])], tabs[t := tab], {})
  {
    assert t !in ws[w].tabs;
    assert NoDup(ws[w].tabs + [t]);
  }

  lemma InsertWorkspace(d: Data, t: Ticket)
    requires Integrity(d) && Fresh(d, t) && t.NewWorkspace?
    ensures Integrity(Insert(d, t))
  {
    var row := Workspace(t.title, t.cwd, []);
    var d0 := d.(workspaces := d.workspaces[t.ws := row]);
    AddWorkspaceRow(d.workspaces, d.tabs, t.ws, row);
    assert [] + [t.tab] == [t.tab];
    assert d0.workspaces[t.ws := row.(tabs := [t.tab])] == d.workspaces[t.ws := row.(tabs := [t.tab])];
    InsertTab(d0, t.ws, t.tab, t.pane, t.term, t.cwd, t.tabTitle);
  }

  lemma InsertBare(d: Data, t: Ticket)
    requires Integrity(d) && Fresh(d, t) && t.BareWorkspace?
    ensures Integrity(Insert(d, t))
  {
    AddWorkspaceRow(d.workspaces, d.tabs, t.ws, Workspace(t.title, t.cwd, []));
  }

  lemma InsertKeeps(d: Data, t: Ticket)
    requires Integrity(d) && Fresh(d, t)
    ensures Integrity(Insert(d, t))
  {
    match t
    case NewWorkspace(_, _, _, _, _, _, _, _) => InsertWorkspace(d, t);
    case BareWorkspace(_, _, _, _) => InsertBare(d, t);
    case NewTab(target, tab, pane, term, _, cwd, tabTitle) =>
      if target in d.workspaces { InsertTab(d, target, tab, pane, term, cwd, tabTitle); }
  }

  /** An insert adds its own rows, hooked to one another, and removes or overwrites nothing. */
  lemma InsertConserves(d: Data, t: Ticket)
    requires Fresh(d, t) && !t.BareWorkspace?
    ensures var r := Insert(d, t); var w := if t.NewTab? then t.target else t.ws;
      if t.NewTab? && w !in d.workspaces then r == d
      else
        && r.panes.Keys == d.panes.Keys + {t.pane} && r.tabs.Keys == d.tabs.Keys + {t.tab}
        && r.terminals == d.terminals + {t.term} && t.term !in d.terminals
        && r.panes[t.pane].term == t.term && r.panes[t.pane].tab == t.tab && r.panes[t.pane].ws == w
        && r.tabs[t.tab].panes == [t.pane] && r.tabs[t.tab].ws == w
        && w in r.workspaces && r.workspaces[w].tabs == (if t.NewTab? then d.workspaces[w].tabs else []) + [t.tab]
        && (forall q :: q in d.panes ==> r.panes[q] == d.panes[q])
        && (forall u :: u in d.tabs ==> r.tabs[u] == d.tabs[u])
        && (forall v :: v in d.workspaces && v != w ==> v in r.workspaces && r.workspaces[v] == d.workspaces[v])
  {
    assert t.NewWorkspace? ==> [] + [t.tab] == [t.tab];
  }

  lemma InsertTab(d: Data, w: Id, tab: Id, pane: Id, term: Id, cwd: string, title: string)
    requires Integrity(d) && w in d.workspaces && tab !in d.tabs && pane !in d.panes && term !in d.terminals
    requires tab < d.nextId && pane < d.nextId && term < d.nextId
    ensures var row := d.workspaces[w].(tabs := d.workspaces[w].tabs + [tab]);
      Integrity(AddPane(d.(workspaces := d.workspaces[w := row]), w, tab, pane, term, cwd, title))
  {
    AddTabRow(d.workspaces, d.tabs, w, tab, Tab(w, title, [pane]));
    AddPaneRow(d.tabs, d.panes, tab, Tab(w, title, [pane]), pane, Pane(term, w, tab, cwd));
    AddTerm(d.panes, d.terminals, pane, Pane(term, w, tab, cwd));
    AddBelow(d, w, d.workspaces[w].(tabs := d.workspaces[w].tabs + [tab]), tab, pane, term, cwd, title);
  }

  lemma AddBelow(d: Data, w: Id, row: Workspace, tab: Id, pane: Id, term: Id, cwd: string, title: string)
    requires Below(d) && w < d.nextId && tab < d.nextId && pane < d.nextId && term < d.nextId
    ensures Below(AddPane(d.(workspaces := d.workspaces[w := row]), w, tab, pane, term, cwd, title))
  {
  }
}

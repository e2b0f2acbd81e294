/** What the remaining sections leave behind, row by row, from any registry that a run can reach. */
module RegistrySections {
  import opened Prelude
  import opened RegistryModel
  import opened RegistryIntegrity
  import opened RegistryMoves
  import opened RegistryRuns

  /** No create is touched and no id is handed out. */
  predicate OnlyRows(s: Sys, r: Sys) { r.tickets == s.tickets && r.d.nextId == s.d.nextId }

  predicate TermsMatch(d: Data) { d.terminals == set p | p in d.panes :: d.panes[p].term }

  /** Some workspace is left to fall back to, or none is left at all. */
  predicate Left(d: Data, gone: seq<Id>, pick: Id) {
    (forall w :: w in d.workspaces ==> w in gone) || (pick in d.workspaces && pick !in gone)
  }

  /** Those workspaces and everything in them are gone, and nothing else changed. */
  predicate WorkspacesGone(d: Data, r: Data, gone: seq<Id>) {
    && r.workspaces == (map w | w in d.workspaces && w !in gone :: d.workspaces[w])
    && r.tabs == (map t | t in d.tabs && d.tabs[t].ws !in gone :: d.tabs[t])
    && r.panes == (map p | p in d.panes && d.panes[p].ws !in gone :: d.panes[p])
    && TermsMatch(r)
  }

  lemma WorkspacesGo(d: Data, gone: seq<Id>, pick: Id)
    requires Integrity(d) && Left(d, gone, pick)
    ensures var r := DropWorkspaces(d, gone);
      WorkspacesGone(d, r, gone) && r.nextId == d.nextId && PickOk(r, pick)
  {
    DropWorkspacesExact(d, gone);
    TheseAreGone(d, gone);
    PickLeft(d, WithoutThese(d, gone), gone, pick);
  }

  lemma TheseAreGone(d: Data, gone: seq<Id>)
    ensures var r := WithoutThese(d, gone);
      WorkspacesGone(d, r, gone) && forall w :: w in r.workspaces <==> w in d.workspaces && w !in gone
  {
  }

  /** `workspace.close` removes the workspace and everything in it, and nothing else. */
  lemma WorkspaceClosed(s: Sys, w: Id, pick: Id)
    requires Integrity(s.d) && w in s.d.workspaces && Left(s.d, [w], pick)
    ensures var r := Apply(s, DoCloseWorkspace(w, pick)); OnlyRows(s, r) && WorkspacesGone(s.d, r.d, [w])
  {
    WorkspacesGo(s.d, [w], pick);
    assert [w][..0] == [];
    CloseRows(s, DoCloseWorkspace(w, pick), DropWorkspace(s.d, w), pick);
  }

  /** A close is its removal with the focus repaired. */
  lemma CloseRows(s: Sys, step: Step, d: Data, pick: Id)
    requires IsClose(step) && PickOk(d, pick) && Close(s.d, step) == NormalizeFocus(d, pick)
    ensures Apply(s, step) == Sys(d.(focus := NormalizeFocus(d, pick).focus), s.tickets)
  {
  }

  lemma PickLeft(d: Data, r: Data, gone: seq<Id>, pick: Id)
    requires Left(d, gone, pick) && forall w :: w in r.workspaces <==> w in d.workspaces && w !in gone
    ensures PickOk(r, pick)
  {
    if pick !in r.workspaces { assert r.workspaces.Keys == {}; }
  }

  /** `worktree_remove` does so for every workspace that was rooted at the checkout and is still there. */
  lemma WorktreeRemoved(s: Sys, matching: seq<Id>, pick: Id)
    requires Integrity(s.d) && Left(s.d, matching, pick)
    ensures var r := Apply(s, DoRemoveWorktree(matching, pick)); OnlyRows(s, r) && WorkspacesGone(s.d, r.d, matching)
  {
    WorkspacesGo(s.d, matching, pick);
    CloseRows(s, DoRemoveWorktree(matching, pick), DropWorkspaces(s.d, matching), pick);
  }

  /** Tab t and its panes are gone, its workspace lists the others in the old order, the rest stays. */
  predicate TabGone(d: Data, r: Data, t: Id)
    requires t in d.tabs && d.tabs[t].ws in d.workspaces
  {
    var w := d.tabs[t].ws;
    var row := d.workspaces[w];
    && r.tabs == d.tabs - {t} && TermsMatch(r)
    && r.panes == (map p | p in d.panes && d.panes[p].tab != t :: d.panes[p])
    && r.workspaces.Keys == d.workspaces.Keys
    && (forall v :: v in d.workspaces && v != w ==> r.workspaces[v] == d.workspaces[v])
    && (forall i :: 0 <= i < |row.tabs| && row.tabs[i] == t ==>
          r.workspaces[w] == Workspace(row.title, row.cwd, row.tabs[..i] + row.tabs[i + 1..]))
  }

  lemma TabGoes(d: Data, t: Id)
    requires Integrity(d) && t in d.tabs
    ensures d.tabs[t].ws in d.workspaces && TabGone(d, CloseTabLocked(d, t), t)
    ensures CloseTabLocked(d, t).nextId == d.nextId
  {
    CloseTabExact(d, t);
    var ts := d.workspaces[d.tabs[t].ws].tabs;
    forall i | 0 <= i < |ts| && ts[i] == t ensures Without(ts, t) == ts[..i] + ts[i + 1..] { WithoutAt(ts, i); }
  }

  /** `tab.close` removes the tab and its panes. */
  lemma TabClosed(s: Sys, t: Id, pick: Id)
    requires Integrity(s.d) && t in s.d.tabs && pick in s.d.workspaces
    ensures var r := Apply(s, DoCloseTab(t, pick));
      OnlyRows(s, r) && s.d.tabs[t].ws in s.d.workspaces && TabGone(s.d, r.d, t)
  {
    TabGoes(s.d, t);
    CloseRows(s, DoCloseTab(t, pick), CloseTabLocked(s.d, t), pick);
  }

  /** `pane.close` removes the pane, and with a tab's last pane the tab. */
  lemma PaneClosed(s: Sys, p: Id, pick: Id)
    requires Integrity(s.d) && p in s.d.panes && pick in s.d.workspaces
    ensures var r := Apply(s, DoClosePane(p, pick)); var t := s.d.panes[p].tab;
      && OnlyRows(s, r) && t in s.d.tabs && s.d.tabs[t].ws in s.d.workspaces
      && (s.d.tabs[t].panes == [p] ==> TabGone(s.d, r.d, t))
      && (s.d.tabs[t].panes != [p] ==> PaneGone(s.d, r.d, p, t))
  {
    PaneGoes(s.d, p);
    CloseRows(s, DoClosePane(p, pick), DropPane(s.d, p), pick);
  }

  lemma PaneGoes(d: Data, p: Id)
    requires Integrity(d) && p in d.panes
    ensures var t := d.panes[p].tab; var r := DropPane(d, p);
      && t in d.tabs && d.tabs[t].ws in d.workspaces && r.nextId == d.nextId && r.workspaces.Keys == d.workspaces.Keys
      && (d.tabs[t].panes == [p] ==> TabGone(d, r, t))
      && (d.tabs[t].panes != [p] ==> PaneGone(d, r, p, t))
  {
    var t := d.panes[p].tab;
    TabGoes(d, t);
    if d.tabs[t].panes == [p] { LastPaneClosesTab(d, p); } else { PaneAlone(d, p, t); }
  }

  lemma PaneAlone(d: Data, p: Id, t: Id)
    requires Integrity(d) && p in d.panes && d.panes[p].tab == t && d.tabs[t].panes != [p]
    ensures DropPane(d, p).nextId == d.nextId && DropPane(d, p).workspaces == d.workspaces
    ensures PaneGone(d, DropPane(d, p), p, t)
  {
    ClosePaneExact(d, p);
    CloseTabSame(d, p);
  }

  lemma CloseTabSame(d: Data, p: Id)
    requires p in d.panes
    ensures DropPane(d, p).nextId == d.nextId
  {
    DropPaneShrinks(d, p);
  }

  /** Pane p is gone and its tab lists the others in the old order; the rest stays. */
  predicate PaneGone(d: Data, r: Data, p: Id, t: Id)
    requires t in d.tabs
  {
    var tab := d.tabs[t];
    && r.panes.Keys == d.panes.Keys - {p} && (forall q :: q in r.panes ==> r.panes[q] == d.panes[q])
    && TermsMatch(r) && r.workspaces == d.workspaces
    && r.tabs.Keys == d.tabs.Keys && (forall u :: u in d.tabs && u != t ==> r.tabs[u] == d.tabs[u])
    && (forall i :: 0 <= i < |tab.panes| && tab.panes[i] == p ==>
          r.tabs[t] == Tab(tab.ws, tab.title, tab.panes[..i] + tab.panes[i + 1..]))
  }

  /** A request for something that is not there changes nothing. */
  lemma MissingChangesNothing(s: Sys, id: Id, pick: Id)
    ensures id !in s.d.workspaces ==> Apply(s, DoCloseWorkspace(id, pick)) == s
    ensures id !in s.d.tabs ==> Apply(s, DoCloseTab(id, pick)) == s
    ensures id !in s.d.panes ==> Apply(s, DoClosePane(id, pick)) == s
    ensures id !in s.d.workspaces ==> forall title :: Apply(s, DoOpenExisting(id, title)) == s
    ensures id !in s.d.workspaces ==> forall name :: Apply(s, DoRenameWorkspace(id, name)) == s
    ensures id !in s.d.tabs ==> forall name :: Apply(s, DoRenameTab(id, name)) == s
  {
  }

  /** `promote_tab` from a workspace rooted elsewhere: the tab, its panes and the focus are at the workspace the
      lookup found, or at a new one. */
  lemma TabPromoted(s: Sys, t: Id, canon: Canon, live: string, title: string, dest: Option<Id>)
    requires Integrity(s.d) && t in s.d.tabs
    requires s.d.tabs[t].ws in s.d.workspaces && canon(s.d.workspaces[s.d.tabs[t].ws].cwd) != live
    requires if dest == None then forall w :: w in s.d.workspaces ==> canon(s.d.workspaces[w].cwd) != live
             else dest.value in s.d.workspaces && canon(s.d.workspaces[dest.value].cwd) == live
    ensures var r := Apply(s, DoPromote(t, canon, live, title, dest));
      var w := if dest == None then s.d.nextId else dest.value;
      && r.tickets == s.tickets && t in r.d.tabs && r.d.tabs[t].ws == w && w in r.d.workspaces
      && r.d.workspaces[w] == (if dest == None then Workspace(title, live, [t])
                               else s.d.workspaces[w].(tabs := s.d.workspaces[w].tabs + [t]))
      && (forall p :: p in s.d.panes && s.d.panes[p].tab == t ==>
            p in r.d.panes && r.d.panes[p] == Pane(s.d.panes[p].term, w, t, live))
      && s.d.tabs[t].panes != [] && r.d.focus == Focus(Some(w), Some(t), Some(s.d.tabs[t].panes[0]))
  {
    TargetIsOther(s.d, t, canon, live, dest);
    PromoteConserves(s.d, t, canon, live, title, dest);
    PromoteFocus(s.d, t, canon, live, title, dest);
    PromotedRow(s.d, t, live, title, dest);
    PromoteApplies(s, t, canon, live, title, dest);
  }

  lemma PromoteApplies(s: Sys, t: Id, canon: Canon, live: string, title: string, dest: Option<Id>)
    requires CanPromote(s.d, t, canon, live, dest) && Target(s.d, dest) != s.d.tabs[t].ws
    ensures Apply(s, DoPromote(t, canon, live, title, dest)) == Sys(Promote(s.d, t, live, title, dest), s.tickets)
  {
  }

  lemma PromotedRow(d: Data, t: Id, live: string, title: string, dest: Option<Id>)
    requires Integrity(d) && t in d.tabs && (dest.Some? ==> dest.value in d.workspaces)
    requires Target(d, dest) != d.tabs[t].ws
    ensures var r := Promote(d, t, live, title, dest); var w := Target(d, dest);
      && w in r.workspaces
      && r.workspaces[w] == (if dest == None then Workspace(title, live, [t])
                             else d.workspaces[w].(tabs := d.workspaces[w].tabs + [t]))
  {
    PromoteRows(d, t, live, title, dest);
    RowIs(d, Promote(d, t, live, title, dest), t, live, title, dest);
  }

  lemma RowIs(d: Data, r: Data, t: Id, live: string, title: string, dest: Option<Id>)
    requires t in d.tabs && (dest.Some? ==> dest.value in d.workspaces)
    requires RowsAfter(d.workspaces, r.workspaces, d.tabs[t].ws, t, Target(d, dest), TargetRow(d, live, title, dest))
    ensures var w := Target(d, dest);
      && w in r.workspaces
      && r.workspaces[w] == (if dest == None then Workspace(title, live, [t])
                             else d.workspaces[w].(tabs := d.workspaces[w].tabs + [t]))
  {
    assert [] + [t] == [t];
  }

  /** From a workspace already rooted there, nothing happens. */
  lemma PromoteRefused(s: Sys, t: Id, canon: Canon, live: string, title: string, dest: Option<Id>)
    requires t !in s.d.tabs || (s.d.tabs[t].ws in s.d.workspaces && canon(s.d.workspaces[s.d.tabs[t].ws].cwd) == live)
    ensures Apply(s, DoPromote(t, canon, live, title, dest)) == s
  {
  }

  /** `worktree_open` on an open checkout sets the title it was given and focuses the first pane there. */
  lemma CheckoutOpened(s: Sys, w: Id, title: Option<string>)
    requires Integrity(s.d) && w in s.d.workspaces
    ensures var r := Apply(s, DoOpenExisting(w, title)); var row := s.d.workspaces[w]; var ts := row.tabs;
      && OnlyRows(s, r) && r.d.tabs == s.d.tabs && r.d.panes == s.d.panes && r.d.terminals == s.d.terminals
      && r.d.workspaces ==
         s.d.workspaces[w := Workspace(if title == None then row.title else title.value, row.cwd, row.tabs)]
      && (ts == [] ==> r.d.focus == Focus(Some(w), None, None))
      && (ts != [] ==>
            && ts[0] in s.d.tabs && s.d.tabs[ts[0]].panes != []
            && r.d.focus == Focus(Some(w), Some(ts[0]), Some(s.d.tabs[ts[0]].panes[0])))
  {
    OpenExistingKeeps(s.d, w, title);
    OpenApplies(s, w, title);
  }

  lemma OpenApplies(s: Sys, w: Id, title: Option<string>)
    requires w in s.d.workspaces
    ensures Apply(s, DoOpenExisting(w, title)) == Sys(OpenExisting(s.d, w, title), s.tickets)
  {
  }

  /** A rename changes one title. */
  lemma Renamed(s: Sys, id: Id, name: string)
    ensures id in s.d.workspaces ==>
      var row := s.d.workspaces[id];
      Apply(s, DoRenameWorkspace(id, name)) ==
      s.(d := s.d.(workspaces := s.d.workspaces[id := Workspace(name, row.cwd, row.tabs)]))
    ensures id in s.d.tabs ==>
      var tab := s.d.tabs[id];
      Apply(s, DoRenameTab(id, name)) == s.(d := s.d.(tabs := s.d.tabs[id := Tab(tab.ws, name, tab.panes)]))
  {
  }
}

/** Promotion of a tab, and the focus triple. */
module RegistryMoves {
  import opened Prelude
  import opened RegistryModel
  import opened RegistryIntegrity

  // ------------------------------------------------------------------ promote

  /** What promotion may be asked to do: the guard refused nothing and the destination was looked up. */
  predicate CanPromote(d: Data, t: Id, canon: Canon, live: string, dest: Option<Id>) {
    t in d.tabs && !AlreadyThere(d, t, canon, live) && Destination(d, canon, live, dest)
  }

  function Target(d: Data, dest: Option<Id>): Id { if dest.Some? then dest.value else d.nextId }

  lemma TargetIsOther(d: Data, t: Id, canon: Canon, live: string, dest: Option<Id>)
    requires Integrity(d) && CanPromote(d, t, canon, live, dest)
    ensures d.tabs[t].ws in d.workspaces && Target(d, dest) != d.tabs[t].ws
    ensures dest.Some? ==> dest.value in d.workspaces
  {
  }

  function DropIfEmpty(ws: Workspaces, w: Id): Workspaces {
    if w in ws && ws[w].tabs == [] then ws - {w} else ws
  }

  function Moved(tab: Tab, w: Id): Tab { tab.(ws := w, title := if tab.title == "temp" then "Shell" else tab.title) }

  /** The workspace rows once tab t has moved from src to w. */
  function MovedRows(ws: Workspaces, src: Id, t: Id, w: Id): Workspaces
    requires w in ws
  {
    var u := Unlist(ws, src, t);
    DropIfEmpty(u[w := u[w].(tabs := u[w].tabs + [t])], src)
  }

  lemma MoveRows(ws: Workspaces, tabs: Tabs, t: Id, w: Id)
    requires TabLayer(ws, tabs, {}) && t in tabs && w in ws && w != tabs[t].ws
    ensures TabLayer(MovedRows(ws, tabs[t].ws, t, w), tabs[t := Moved(tabs[t], w)], {})
  {
    var u := Unlist(ws, tabs[t].ws, t);
    CloseTabTabs(ws, tabs, t, {});
    assert {} - {t} == {};
    AddTabRow(u, tabs - {t}, w, t, Moved(tabs[t], w));
    assert (tabs - {t})[t := Moved(tabs[t], w)] == tabs[t := Moved(tabs[t], w)];
    DropEmptyRow(u[w := u[w].(tabs := u[w].tabs + [t])], tabs[t := Moved(tabs[t], w)], tabs[t].ws);
  }

  lemma MovedRowsFacts(ws: Workspaces, src: Id, t: Id, w: Id)
    requires w in ws && src in ws && src != w
    ensures var r := MovedRows(ws, src, t, w);
      && w in r && r[w] == ws[w].(tabs := ws[w].tabs + [t])
      && (src in r <==> Without(ws[src].tabs, t) != [])
      && (src in r ==> r[src] == ws[src].(tabs := Without(ws[src].tabs, t)))
      && r.Keys - {src} == ws.Keys - {src}
      && (forall v :: v in ws && v != src && v != w ==> v in r && r[v] == ws[v])
  {
  }

  lemma DropEmptyRow(ws: Workspaces, tabs: Tabs, w: Id)
    requires TabLayer(ws, tabs, {})
    ensures TabLayer(DropIfEmpty(ws, w), tabs, {})
  {
  }

  lemma ReparentPanes(tabs: Tabs, panes: Panes, t: Id, w: Id, cwd: string)
    requires PaneLayer(tabs, panes) && t in tabs
    ensures PaneLayer(tabs[t := Moved(tabs[t], w)], Reparent(panes, tabs[t].panes, w, cwd))
  {
  }

  lemma ReparentTerms(panes: Panes, terminals: set<Id>, ps: seq<Id>, w: Id, cwd: string)
    requires TermLayer(panes, terminals)
    ensures TermLayer(Reparent(panes, ps, w, cwd), terminals)
  {
    var r := Reparent(panes, ps, w, cwd);
    assert forall p :: p in r ==> p in panes && r[p].term == panes[p].term;
    forall x ensures x in Terms(panes) <==> x in Terms(r) {
      if x in Terms(panes) { var p :| p in panes && panes[p].term == x; assert p in r; }
    }
  }

  lemma MoveTabIs(d: Data, t: Id, w: Id, live: string)
    requires t in d.tabs && w in d.workspaces && w != d.tabs[t].ws
    ensures MoveTab(d, t, w, live) ==
            d.(workspaces := MovedRows(d.workspaces, d.tabs[t].ws, t, w), tabs := d.tabs[t := Moved(d.tabs[t], w)],
               panes := Reparent(d.panes, d.tabs[t].panes, w, live))
  {
  }

  lemma MoveTabKeeps(d: Data, t: Id, w: Id, live: string)
    requires Integrity(d) && t in d.tabs && w in d.workspaces && w != d.tabs[t].ws
    ensures Integrity(MoveTab(d, t, w, live))
  {
    MoveTabIs(d, t, w, live);
    MoveRows(d.workspaces, d.tabs, t, w);
    ReparentPanes(d.tabs, d.panes, t, w, live);
    ReparentTerms(d.panes, d.terminals, d.tabs[t].panes, w, live);
    MovedBelow(d.workspaces, d.tabs[t].ws, t, w);
  }

  lemma MovedBelow(ws: Workspaces, src: Id, t: Id, w: Id)
    requires w in ws
    ensures MovedRows(ws, src, t, w).Keys <= ws.Keys
  {
  }

  /** The registry with the destination workspace in place. */
  function WithTarget(d: Data, live: string, title: string, dest: Option<Id>): Data {
    if dest.Some? then d
    else d.(nextId := d.nextId + 1, workspaces := d.workspaces[d.nextId := Workspace(title, live, [])])
  }

  /** Promotion is: make the destination, move the tab, focus it, repair focus; the repair has no choice left. */
  lemma PromoteSteps(d: Data, t: Id, live: string, title: string, dest: Option<Id>, moved: Data, pick: Id)
    requires t in d.tabs && (dest.Some? ==> dest.value in d.workspaces) && Target(d, dest) != d.tabs[t].ws
    requires moved == MoveTab(WithTarget(d, live, title, dest), t, Target(d, dest), live)
                        .(focus := Focus(Some(Target(d, dest)), Some(t), First(d.tabs[t].panes)))
    requires PickOk(moved, pick)
    ensures NormalizeFocus(moved, pick) == Promote(d, t, live, title, dest)
  {
    var base := WithTarget(d, live, title, dest);
    MoveTabIs(base, t, Target(d, dest), live);
    assert Target(d, dest) in moved.workspaces;
  }

  lemma WithTargetKeeps(d: Data, live: string, title: string, dest: Option<Id>)
    requires Integrity(d)
    ensures Integrity(WithTarget(d, live, title, dest))
  {
    if dest.None? { AddWorkspaceRow(d.workspaces, d.tabs, d.nextId, Workspace(title, live, [])); }
  }

  lemma PromoteKeeps(d: Data, t: Id, canon: Canon, live: string, title: string, dest: Option<Id>)
    requires Integrity(d) && CanPromote(d, t, canon, live, dest)
    ensures Target(d, dest) != d.tabs[t].ws && (dest.Some? ==> dest.value in d.workspaces)
    ensures Integrity(Promote(d, t, live, title, dest))
  {
    TargetIsOther(d, t, canon, live, dest);
    WithTargetKeeps(d, live, title, dest);
    var moved := MoveTab(WithTarget(d, live, title, dest), t, Target(d, dest), live);
    MoveTabKeeps(WithTarget(d, live, title, dest), t, Target(d, dest), live);
    RefocusKeeps(moved, Promote(d, t, live, title, dest).focus);
    PromoteRefocuses(d, t, live, title, dest);
  }

  lemma PromoteRefocuses(d: Data, t: Id, live: string, title: string, dest: Option<Id>)
    requires t in d.tabs && (dest.Some? ==> dest.value in d.workspaces) && Target(d, dest) != d.tabs[t].ws
    ensures var r := Promote(d, t, live, title, dest);
      r == MoveTab(WithTarget(d, live, title, dest), t, Target(d, dest), live).(focus := r.focus)
  {
  }

  lemma RefocusKeeps(d: Data, f: Focus)
    requires Integrity(d)
    ensures Integrity(d.(focus := f))
  {
  }

  /** Everything a promotion writes. */
  lemma PromoteIs(d: Data, t: Id, live: string, title: string, dest: Option<Id>)
    requires Integrity(d) && t in d.tabs && (dest.Some? ==> dest.value in d.workspaces)
    requires Target(d, dest) != d.tabs[t].ws
    ensures var d1 := WithTarget(d, live, title, dest);
      var r := Promote(d, t, live, title, dest);
      var w := Target(d, dest);
      && w in d1.workspaces && d.tabs[t].ws in d.workspaces && d.tabs[t].ws in d1.workspaces
      && r == d1.(workspaces := MovedRows(d1.workspaces, d.tabs[t].ws, t, w), tabs := d.tabs[t := Moved(d.tabs[t], w)],
                  panes := Reparent(d.panes, d.tabs[t].panes, w, live), focus := r.focus)
  {
    MoveTabIs(WithTarget(d, live, title, dest), t, Target(d, dest), live);
  }

  /** Row w, now or newly there as `row`, gains the tab; row src loses it and goes when that empties it;
      every other row is untouched. */
  predicate RowsAfter(ws: Workspaces, r: Workspaces, src: Id, t: Id, w: Id, row: Workspace) {
    && src in ws
    && w in r && r[w] == row.(tabs := row.tabs + [t])
    && (src in r <==> Without(ws[src].tabs, t) != [])
    && (src in r ==> r[src] == ws[src].(tabs := Without(ws[src].tabs, t)))
    && (forall v :: v in r ==> v in ws || v == w)
    && (forall v :: v in ws && v != src && v != w ==> v in r && r[v] == ws[v])
  }

  lemma RowsAfterMove(ws: Workspaces, src: Id, t: Id, w: Id, row: Workspace)
    requires src in ws && src != w && (w in ws ==> ws[w] == row)
    ensures RowsAfter(ws, MovedRows(ws[w := row], src, t, w), src, t, w, row)
  {
    MovedRowsFacts(ws[w := row], src, t, w);
    MovedBelow(ws[w := row], src, t, w);
  }

  /** The destination's row before the tab arrives. */
  function TargetRow(d: Data, live: string, title: string, dest: Option<Id>): Workspace
    requires dest.Some? ==> dest.value in d.workspaces
  {
    if dest.Some? then d.workspaces[dest.value] else Workspace(title, live, [])
  }

  lemma PromoteRows(d: Data, t: Id, live: string, title: string, dest: Option<Id>)
    requires Integrity(d) && t in d.tabs && (dest.Some? ==> dest.value in d.workspaces)
    requires Target(d, dest) != d.tabs[t].ws
    ensures RowsAfter(d.workspaces, Promote(d, t, live, title, dest).workspaces,
                      d.tabs[t].ws, t, Target(d, dest), TargetRow(d, live, title, dest))
  {
    PromoteIs(d, t, live, title, dest);
    var row := TargetRow(d, live, title, dest);
    RowsAfterMove(d.workspaces, d.tabs[t].ws, t, Target(d, dest), row);
    assert dest.Some? ==> d.workspaces[dest.value := row] == d.workspaces;
  }

  /** Promotion re-parents and nothing else: no terminal, pane or tab appears or disappears, every pane
      keeps its terminal and its tab, and only the moved tab's panes change at all. */
  lemma PromoteConserves(d: Data, t: Id, canon: Canon, live: string, title: string, dest: Option<Id>)
    requires Integrity(d) && CanPromote(d, t, canon, live, dest)
    ensures Target(d, dest) != d.tabs[t].ws && (dest.Some? ==> dest.value in d.workspaces)
    ensures var r := Promote(d, t, live, title, dest); var w := Target(d, dest);
      && r.terminals == d.terminals && r.panes.Keys == d.panes.Keys && r.tabs.Keys == d.tabs.Keys
      && (forall p :: p in d.panes ==>
            r.panes[p] == if d.panes[p].tab == t then d.panes[p].(ws := w, cwd := live) else d.panes[p])
      && (forall u :: u in d.tabs && u != t ==> r.tabs[u] == d.tabs[u])
      && r.tabs[t] == Tab(w, if d.tabs[t].title == "temp" then "Shell" else d.tabs[t].title, d.tabs[t].panes)
      && r.nextId == (if dest == None then d.nextId + 1 else d.nextId)
  {
    TargetIsOther(d, t, canon, live, dest);
    PromoteIs(d, t, live, title, dest);
    TabPanes(d.tabs, d.panes, t);
    ReparentIs(d.panes, d.tabs[t].panes, t, Target(d, dest), live);
  }

  lemma ReparentIs(panes: Panes, moved: seq<Id>, t: Id, w: Id, cwd: string)
    requires forall p :: p in panes ==> (p in moved <==> panes[p].tab == t)
    ensures var r := Reparent(panes, moved, w, cwd);
      && r.Keys == panes.Keys
      && forall p :: p in panes ==> r[p] == if panes[p].tab == t then panes[p].(ws := w, cwd := cwd) else panes[p]
  {
  }

  lemma TabPanes(tabs: Tabs, panes: Panes, t: Id)
    requires PaneLayer(tabs, panes) && t in tabs
    ensures forall p :: p in panes ==> (p in tabs[t].panes <==> panes[p].tab == t)
  {
  }

  /** The tab is on exactly one list before and on exactly one, other, list afterwards; at most one
      workspace appears, and only the emptied source disappears. */
  lemma PromoteMovesOnce(d: Data, t: Id, canon: Canon, live: string, title: string, dest: Option<Id>)
    requires Integrity(d) && CanPromote(d, t, canon, live, dest)
    ensures Target(d, dest) != d.tabs[t].ws && (dest.Some? ==> dest.value in d.workspaces)
    ensures var r := Promote(d, t, live, title, dest); var src := d.tabs[t].ws; var w := Target(d, dest);
      && (forall v :: v in d.workspaces ==> (t in d.workspaces[v].tabs <==> v == src))
      && (forall v :: v in r.workspaces ==> (t in r.workspaces[v].tabs <==> v == w))
      && RowsAfter(d.workspaces, r.workspaces, src, t, w, TargetRow(d, live, title, dest))
      && (dest.None? ==> w !in d.workspaces)
      && (src !in r.workspaces <==> forall u :: u in d.workspaces[src].tabs ==> u == t)
  {
    TargetIsOther(d, t, canon, live, dest);
    PromoteKeeps(d, t, canon, live, title, dest);
    PromoteRows(d, t, live, title, dest);
    PromoteLists(d, t, canon, live, title, dest);
    EmptiedIff(d.workspaces[d.tabs[t].ws].tabs, t);
  }

  lemma PromoteLists(d: Data, t: Id, canon: Canon, live: string, title: string, dest: Option<Id>)
    requires Integrity(d) && CanPromote(d, t, canon, live, dest)
    ensures Target(d, dest) != d.tabs[t].ws && (dest.Some? ==> dest.value in d.workspaces)
    ensures var r := Promote(d, t, live, title, dest);
      && (forall v :: v in d.workspaces ==> (t in d.workspaces[v].tabs <==> v == d.tabs[t].ws))
      && (forall v :: v in r.workspaces ==> (t in r.workspaces[v].tabs <==> v == Target(d, dest)))
  {
    PromoteKeeps(d, t, canon, live, title, dest);
    PromoteIs(d, t, live, title, dest);
    OneList(d, t);
    OneList(Promote(d, t, live, title, dest), t);
  }

  lemma OneList(d: Data, t: Id)
    requires Integrity(d) && t in d.tabs
    ensures forall v :: v in d.workspaces ==> (t in d.workspaces[v].tabs <==> v == d.tabs[t].ws)
  {
  }

  lemma EmptiedIff(ts: seq<Id>, t: Id)
    ensures Without(ts, t) == [] <==> forall u :: u in ts ==> u == t
  {
    if u :| u in ts && u != t { assert u in Without(ts, t); }
    if Without(ts, t) != [] { assert Without(ts, t)[0] in Without(ts, t); }
  }

  // ------------------------------------------------------------------ focus

  /** The focus triple never dangles: the pane is in the tab, the tab in the workspace, and no tab is
      focused only if the focused workspace has none. */
  predicate FocusOk(d: Data) {
    var f := d.focus;
    && (f.ws.Some? ==> f.ws.value in d.workspaces)
    && (f.tab.Some? ==> f.ws.Some? && f.tab.value in d.tabs && d.tabs[f.tab.value].ws == f.ws.value)
    && (f.pane.Some? ==> f.tab.Some? && f.pane.value in d.panes && d.panes[f.pane.value].tab == f.tab.value)
    && (f.tab.Some? ==> f.pane.Some?)
    && (f.ws.Some? && f.tab.None? ==> d.workspaces[f.ws.value].tabs == [])
  }

  predicate FocusPresent(d: Data) { d.workspaces != map[] ==> d.focus.ws.Some? }

  lemma NormalizeRepairs(d: Data, pick: Id)
    requires Integrity(d) && PickOk(d, pick)
    ensures FocusOk(NormalizeFocus(d, pick)) && FocusPresent(NormalizeFocus(d, pick))
    ensures Integrity(NormalizeFocus(d, pick))
  {
    if d.workspaces != map[] {
      var w := if d.focus.ws.Some? && d.focus.ws.value in d.workspaces then d.focus.ws.value else pick;
      var tab := KeptTab(d, w);
      if tab.Some? {
        assert tab.value in d.tabs && d.tabs[tab.value].ws == w;
        assert d.tabs[tab.value].panes != [];
      }
    }
  }

  /** What repair keeps and what it falls back to: the focused workspace if it is still there, else any; the
      focused tab if it is in that workspace, else its first; the focused pane if it is in that tab, else its
      first.  Nothing but the triple changes. */
  lemma NormalizeChooses(d: Data, pick: Id)
    requires Integrity(d) && d.workspaces != map[] && pick in d.workspaces
    ensures NormalizeFocus(d, pick) == d.(focus := NormalizeFocus(d, pick).focus)
    ensures var was := d.focus; var f := NormalizeFocus(d, pick).focus;
      && f.ws == (if was.ws != None && was.ws.value in d.workspaces then was.ws else Some(pick))
      && var ts := d.workspaces[f.ws.value].tabs;
      && f.tab == (if was.tab != None && was.tab.value in ts then was.tab else if ts == [] then None else Some(ts[0]))
      && (f.tab == None ==> f.pane == None)
      && (f.tab != None ==>
            && f.tab.value in d.tabs && d.tabs[f.tab.value].panes != []
            && var ps := d.tabs[f.tab.value].panes;
               f.pane == if was.pane != None && was.pane.value in ps then was.pane else Some(ps[0]))
  {
    var was := d.focus;
    var w := if was.ws.Some? && was.ws.value in d.workspaces then was.ws.value else pick;
    ChoosesTab(d, w);
    var tab := KeptTab(d, w);
    if tab.Some? { ChoosesPane(d, tab.value); }
  }

  lemma ChoosesTab(d: Data, w: Id)
    requires TabLayer(d.workspaces, d.tabs, {}) && w in d.workspaces
    ensures var ts := d.workspaces[w].tabs; var was := d.focus.tab;
      && KeptTab(d, w) == (if was != None && was.value in ts then was else if ts == [] then None else Some(ts[0]))
      && (KeptTab(d, w) != None ==> KeptTab(d, w).value in d.tabs)
  {
    var ts := d.workspaces[w].tabs;
    assert ts != [] ==> ts[0] in ts;
  }

  lemma ChoosesPane(d: Data, t: Id)
    requires PaneLayer(d.tabs, d.panes) && t in d.tabs
    ensures var ps := d.tabs[t].panes; var was := d.focus.pane;
      ps != [] && KeptPane(d, Some(t)) == if was != None && was.value in ps then was else Some(ps[0])
  {
    TabPanes(d.tabs, d.panes, t);
  }

  lemma NormalizeEmpty(d: Data, pick: Id)
    requires d.workspaces == map[]
    ensures NormalizeFocus(d, pick) == d.(focus := Focus(None, None, None))
  {
  }

  lemma NormalizeIdempotent(d: Data, pick: Id, again: Id)
    requires PickOk(d, pick) && PickOk(d, again)
    ensures NormalizeFocus(NormalizeFocus(d, pick), again) == NormalizeFocus(d, pick)
  {
  }

  /** A valid triple is left alone whenever there is nothing to repair. */
  lemma NormalizeKeepsValid(d: Data, pick: Id)
    requires FocusOk(d) && FocusPresent(d) && PickOk(d, pick)
    ensures NormalizeFocus(d, pick) == d
  {
  }

  lemma InsertFocus(d: Data, t: Ticket)
    requires TabLayer(d.workspaces, d.tabs, {}) && FocusOk(d) && Fresh(d, t)
    ensures FocusOk(Insert(d, t))
  {
  }

  lemma PromoteFocus(d: Data, t: Id, canon: Canon, live: string, title: string, dest: Option<Id>)
    requires Integrity(d) && CanPromote(d, t, canon, live, dest)
    ensures Target(d, dest) != d.tabs[t].ws && (dest.Some? ==> dest.value in d.workspaces)
    ensures var r := Promote(d, t, live, title, dest);
      && FocusOk(r) && FocusPresent(r)
      && d.tabs[t].panes != []
      && r.focus == Focus(Some(if dest == None then d.nextId else dest.value), Some(t), Some(d.tabs[t].panes[0]))
  {
    TargetIsOther(d, t, canon, live, dest);
    PromoteIs(d, t, live, title, dest);
    var w := Target(d, dest);
    var d3 := Promote(d, t, live, title, dest).(focus := Focus(Some(w), Some(t), First(d.tabs[t].panes)));
    MovedRowsFacts(WithTarget(d, live, title, dest).workspaces, d.tabs[t].ws, t, w);
    FirstPane(d, t);
    assert FocusOk(d3);
    NormalizeKeepsValid(d3, w);
    MoveTabIs(WithTarget(d, live, title, dest), t, w, live);
  }

  lemma FirstPane(d: Data, t: Id)
    requires Integrity(d) && t in d.tabs
    ensures d.tabs[t].panes != [] && d.tabs[t].panes[0] in d.panes && d.panes[d.tabs[t].panes[0]].tab == t
  {
    assert d.tabs[t].panes[0] in d.tabs[t].panes;
  }

  lemma OpenExistingKeeps(d: Data, w: Id, title: Option<string>)
    requires Integrity(d) && w in d.workspaces
    ensures var r := OpenExisting(d, w, title); Integrity(r) && FocusOk(r) && FocusPresent(r)
    ensures var r := OpenExisting(d, w, title); var row := d.workspaces[w]; var ts := row.tabs;
      && r.workspaces ==
         d.workspaces[w := Workspace(if title == None then row.title else title.value, row.cwd, row.tabs)]
      && r.tabs == d.tabs && r.panes == d.panes && r.terminals == d.terminals && r.nextId == d.nextId
      && (ts == [] ==> r.focus == Focus(Some(w), None, None))
      && (ts != [] ==>
            && ts[0] in d.tabs && d.tabs[ts[0]].panes != []
            && r.focus == Focus(Some(w), Some(ts[0]), Some(d.tabs[ts[0]].panes[0])))
  {
    var r := OpenExisting(d, w, title);
    SameRow(d.workspaces, d.tabs, w, r.workspaces[w]);
    assert d.workspaces[w].tabs != [] ==> d.workspaces[w].tabs[0] in d.workspaces[w].tabs;
    OpenExistingFocus(d, w, title);
  }

  lemma OpenExistingFocus(d: Data, w: Id, title: Option<string>)
    requires TabLayer(d.workspaces, d.tabs, {}) && PaneLayer(d.tabs, d.panes) && w in d.workspaces
    ensures FocusOk(OpenExisting(d, w, title)) && FocusPresent(OpenExisting(d, w, title))
  {
    if d.workspaces[w].tabs != [] {
      var t := d.workspaces[w].tabs[0];
      assert t in d.tabs && d.tabs[t].panes != [] && d.tabs[t].panes[0] in d.panes;
    }
  }

  /** A rename changes a title and nothing that anything refers to. */
  lemma RenameWorkspaceKeeps(d: Data, w: Id, title: string)
    requires Integrity(d) && FocusOk(d) && w in d.workspaces
    ensures Integrity(RenameWorkspace(d, w, title)) && FocusOk(RenameWorkspace(d, w, title))
    ensures var row := d.workspaces[w];
      RenameWorkspace(d, w, title) == d.(workspaces := d.workspaces[w := Workspace(title, row.cwd, row.tabs)])
  {
    SameRow(d.workspaces, d.tabs, w, d.workspaces[w].(title := title));
  }

  lemma RenameTabKeeps(d: Data, t: Id, title: string)
    requires Integrity(d) && FocusOk(d) && t in d.tabs
    ensures Integrity(RenameTab(d, t, title)) && FocusOk(RenameTab(d, t, title))
    ensures var tab := d.tabs[t]; RenameTab(d, t, title) == d.(tabs := d.tabs[t := Tab(tab.ws, title, tab.panes)])
  {
    SameTabs(d.workspaces, d.tabs, t, d.tabs[t].(title := title));
    SameTabPanes(d.tabs, d.panes, t, d.tabs[t].(title := title));
  }

  lemma SameTabPanes(tabs: Tabs, panes: Panes, t: Id, tab: Tab)
    requires PaneLayer(tabs, panes) && t in tabs && tab.panes == tabs[t].panes && tab.ws == tabs[t].ws
    ensures PaneLayer(tabs[t := tab], panes)
  {
  }

  lemma SameRow(ws: Workspaces, tabs: Tabs, w: Id, row: Workspace)
    requires TabLayer(ws, tabs, {}) && w in ws && row.tabs == ws[w].tabs
    ensures TabLayer(ws[w := row], tabs, {})
  {
  }
}

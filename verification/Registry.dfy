/** The registry as the code keeps it: maps and focus fields updated in place under one mutex.
    Every method is one mutex section and does to the fields exactly what the model function does. */
module Registry {
  import opened Prelude
  import opened RegistryModel
  import RegistryIntegrity
  import RegistryMoves
  import RegistryRuns
  import RegistryListing

  datatype Place = NoWorkspace | Missing(w: Id) | At(w: Id, cwd: string)
  datatype Outcome = Done | NotFound | AlreadyThere

  class BuiltinState {
    var nextId: Id
    var workspaces: map<Id, Workspace>
    var tabs: map<Id, Tab>
    var panes: map<Id, Pane>
    var terminals: set<Id>
    var focusedWorkspace: Option<Id>
    var focusedTab: Option<Id>
    var focusedPane: Option<Id>

    function View(): Data
      reads this
    {
      Data(nextId, workspaces, tabs, panes, terminals, Focus(focusedWorkspace, focusedTab, focusedPane))
    }

    constructor ()
      ensures View() == Empty
    {
      nextId, workspaces, tabs, panes, terminals := 1, map[], map[], map[], {};
      focusedWorkspace, focusedTab, focusedPane := None, None, None;
    }

    method NextId() returns (id: Id)
      modifies this`nextId
      ensures id == old(nextId) && nextId == old(nextId) + 1
    {
      id := nextId;
      nextId := nextId + 1;
    }

    method SetFocus(w: Option<Id>, t: Option<Id>, p: Option<Id>)
      modifies this
      ensures View() == old(View()).(focus := Focus(w, t, p))
    {
      focusedWorkspace, focusedTab, focusedPane := w, t, p;
    }

    /** First section of `create_workspace` with a terminal. */
    method BeginWorkspace(cwd: string, title: string, focus: bool) returns (t: Ticket)
      modifies this
      ensures t == RegistryRuns.TicketFor(old(View()), RegistryRuns.BeginWorkspace(cwd, title, focus))
      ensures var n := old(nextId);
        t == NewWorkspace(n, n + 1, n + 2, n + 3, focus || old(focusedWorkspace) == None, cwd, title, "Shell")
      ensures View() == old(View()).(nextId := old(nextId) + 4)
    {
      var ws := NextId();
      var tab := NextId();
      var pane := NextId();
      var term := NextId();
      t := NewWorkspace(ws, tab, pane, term, focus || focusedWorkspace.None?, cwd, title, "Shell");
    }

    /** The same section when no terminal is wanted: the other three ids are taken and dropped. */
    method BeginBare(cwd: string, title: string, focus: bool) returns (t: Ticket)
      modifies this
      ensures t == RegistryRuns.TicketFor(old(View()), RegistryRuns.BeginBare(cwd, title, focus))
      ensures t == BareWorkspace(old(nextId), focus, cwd, title)
      ensures View() == old(View()).(nextId := old(nextId) + 4)
    {
      var ws := NextId();
      var _ := NextId();
      var _ := NextId();
      var _ := NextId();
      t := BareWorkspace(ws, focus, cwd, title);
    }

    /** First section of `start_agent`. */
    method BeginAgent(cwd: string, name: string) returns (t: Ticket)
      modifies this
      ensures t == RegistryRuns.TicketFor(old(View()), RegistryRuns.BeginAgent(cwd, name))
      ensures var n := old(nextId); t == NewWorkspace(n, n + 1, n + 2, n + 3, true, cwd, name, name)
      ensures View() == old(View()).(nextId := old(nextId) + 4)
    {
      var ws := NextId();
      var tab := NextId();
      var pane := NextId();
      var term := NextId();
      t := NewWorkspace(ws, tab, pane, term, true, cwd, name, name);
    }

    /** First section of `create_tab`: the workspace asked for, or the focused one, and its directory. */
    method TabPlace(asked: Option<Id>) returns (place: Place)
      ensures var w := if asked != None then asked else focusedWorkspace;
        place == if w == None then NoWorkspace
                 else if w.value !in workspaces then Missing(w.value)
                 else At(w.value, workspaces[w.value].cwd)
    {
      var w := if asked.Some? then asked else focusedWorkspace;
      if w.None? { return NoWorkspace; }
      if w.value !in workspaces { return Missing(w.value); }
      place := At(w.value, workspaces[w.value].cwd);
    }

    /** Second section of `create_tab`, after which its process is spawned. */
    method BeginTab(target: Id, cwd: string, title: string, focus: bool) returns (t: Ticket)
      modifies this
      ensures t == RegistryRuns.TicketFor(old(View()), RegistryRuns.BeginTab(target, cwd, title, focus))
      ensures var n := old(nextId); t == NewTab(target, n, n + 1, n + 2, focus, cwd, title)
      ensures View() == old(View()).(nextId := old(nextId) + 3)
    {
      var tab := NextId();
      var pane := NextId();
      var term := NextId();
      t := NewTab(target, tab, pane, term, focus, cwd, title);
    }

    /** Last section of the creates: the insert pass after the spawn. */
    method FinishCreate(t: Ticket) returns (inserted: bool)
      modifies this
      ensures View() == Insert(old(View()), t)
      ensures !inserted <==> t.NewTab? && t.target !in old(workspaces)
      ensures !inserted ==> View() == old(View())
      ensures inserted && TakesFocus(old(View()), t) ==>
        && focusedWorkspace == Some(if t.NewTab? then t.target else t.ws)
        && focusedTab == (if t.BareWorkspace? then None else Some(t.tab))
        && focusedPane == (if t.BareWorkspace? then None else Some(t.pane))
      ensures !TakesFocus(old(View()), t) ==> View().focus == old(View()).focus
    {
      match t {
        case NewWorkspace(ws, tab, pane, term, takesFocus, cwd, title, tabTitle) =>
          workspaces := workspaces[ws := Workspace(title, cwd, [tab])];
          AddPaneRows(ws, tab, pane, term, cwd, tabTitle);
          if takesFocus { SetFocus(Some(ws), Some(tab), Some(pane)); }
        case BareWorkspace(ws, focus, cwd, title) =>
          workspaces := workspaces[ws := Workspace(title, cwd, [])];
          if focus || focusedWorkspace.None? { SetFocus(Some(ws), None, None); }
        case NewTab(target, tab, pane, term, focus, cwd, tabTitle) =>
          if target !in workspaces { return false; }
          var w := workspaces[target];
          workspaces := workspaces[target := w.(tabs := w.tabs + [tab])];
          AddPaneRows(target, tab, pane, term, cwd, tabTitle);
          if focus || focusedWorkspace.None? || focusedTab.None? || focusedPane.None? {
            SetFocus(Some(target), Some(tab), Some(pane));
          }
      }
      inserted := true;
    }

    /** Who decided about focus, and when: a workspace with a terminal before its spawn, the others now. */
    static predicate TakesFocus(d: Data, t: Ticket) {
      match t
      case NewWorkspace(_, _, _, _, takesFocus, _, _, _) => takesFocus
      case BareWorkspace(_, focus, _, _) => focus || d.focus.ws == None
      case NewTab(_, _, _, _, focus, _, _) =>
        focus || d.focus.ws == None || d.focus.tab == None || d.focus.pane == None
    }

    method AddPaneRows(ws: Id, tab: Id, pane: Id, term: Id, cwd: string, tabTitle: string)
      modifies this
      ensures View() == AddPane(old(View()), ws, tab, pane, term, cwd, tabTitle)
    {
      tabs := tabs[tab := Tab(ws, tabTitle, [pane])];
      panes := panes[pane := Pane(term, ws, tab, cwd)];
      terminals := terminals + {term};
    }

    // ---------------------------------------------------------------- closing

    method ClosePaneLocked(p: Id)
      modifies this
      ensures View() == RegistryModel.ClosePaneLocked(old(View()), p)
    {
      if p in panes {
        var pane := panes[p];
        panes := panes - {p};
        terminals := terminals - {pane.term};
        if pane.tab in tabs {
          tabs := tabs[pane.tab := tabs[pane.tab].(panes := Without(tabs[pane.tab].panes, p))];
        }
      }
    }

    method CloseTabLocked(t: Id)
      modifies this
      ensures View() == RegistryModel.CloseTabLocked(old(View()), t)
    {
      if t in tabs {
        var tab := tabs[t];
        tabs := tabs - {t};
        ghost var start := View();
        for i := 0 to |tab.panes|
          invariant View() == ClosePanesLocked(start, tab.panes[..i])
        {
          ClosePaneLocked(tab.panes[i]);
          assert tab.panes[..i + 1][..i] == tab.panes[..i];
        }
        assert tab.panes[..|tab.panes|] == tab.panes;
        if tab.ws in workspaces {
          workspaces := workspaces[tab.ws := workspaces[tab.ws].(tabs := Without(workspaces[tab.ws].tabs, t))];
        }
      }
    }

    /** Drop the row, then close its tabs one after the other. */
    method DropWorkspace(w: Id) returns (dropped: bool)
      modifies this
      ensures View() == RegistryModel.DropWorkspace(old(View()), w)
      ensures dropped <==> w in old(workspaces)
    {
      dropped := w in workspaces;
      if dropped {
        var ts := workspaces[w].tabs;
        workspaces := workspaces - {w};
        ghost var start := View();
        for i := 0 to |ts|
          invariant View() == CloseTabsLocked(start, ts[..i])
        {
          CloseTabLocked(ts[i]);
          assert ts[..i + 1][..i] == ts[..i];
        }
        assert ts[..|ts|] == ts;
      }
    }

    method NormalizeFocus() returns (ghost pick: Id)
      modifies this
      ensures PickOk(old(View()), pick) && View() == RegistryModel.NormalizeFocus(old(View()), pick)
    {
      pick := 0;
      if workspaces == map[] {
        SetFocus(None, None, None);
      } else {
        var w: Id;
        if focusedWorkspace.Some? && focusedWorkspace.value in workspaces {
          w := focusedWorkspace.value;
        } else {
          assert workspaces.Keys != {};
          w :| w in workspaces;
        }
        pick := w;
        var tab := KeptTab(View(), w);
        var pane := KeptPane(View(), tab);
        SetFocus(Some(w), tab, pane);
      }
    }

    method CloseWorkspace(w: Id) returns (r: Outcome, ghost pick: Id)
      modifies this
      ensures r == if w in old(workspaces) then Done else NotFound
      ensures r == Done ==> PickOk(RegistryModel.DropWorkspace(old(View()), w), pick)
      ensures View() == if r == Done then RegistryModel.CloseWorkspace(old(View()), w, pick) else old(View())
    {
      pick := 0;
      var dropped := DropWorkspace(w);
      if !dropped { return NotFound, 0; }
      pick := NormalizeFocus();
      r := Done;
    }

    method CloseTab(t: Id) returns (r: Outcome, ghost pick: Id)
      modifies this
      ensures r == if t in old(tabs) then Done else NotFound
      ensures r == Done ==> PickOk(RegistryModel.CloseTabLocked(old(View()), t), pick)
      ensures View() == if r == Done then RegistryModel.CloseTab(old(View()), t, pick) else old(View())
    {
      if t !in tabs { return NotFound, 0; }
      CloseTabLocked(t);
      pick := NormalizeFocus();
      r := Done;
    }

    /** The cascade repairs focus after closing the tab and once more at the end. */
    method ClosePane(p: Id) returns (r: Outcome, ghost pick: Id)
      modifies this
      ensures r == if p in old(panes) then Done else NotFound
      ensures r == Done ==> PickOk(DropPane(old(View()), p), pick)
      ensures View() == if r == Done then RegistryModel.ClosePane(old(View()), p, pick) else old(View())
    {
      if p !in panes { return NotFound, 0; }
      var t := panes[p].tab;
      ClosePaneLocked(p);
      if t !in tabs || tabs[t].panes == [] {
        CloseTabLocked(t);
        ghost var d := View();
        pick := NormalizeFocus();
        ghost var again := NormalizeFocus();
        RegistryMoves.NormalizeIdempotent(d, pick, again);
      } else {
        pick := NormalizeFocus();
      }
      r := Done;
    }

    /** First section of `worktree_remove`: the workspaces rooted at the checkout, before git removes it. */
    method Matching(canon: Canon, path: string) returns (ids: seq<Id>)
      ensures forall w :: w in ids <==> w in workspaces && canon(workspaces[w].cwd) == path
      ensures NoDup(ids)
    {
      ids := [];
      var left := workspaces.Keys;
      while left != {}
        invariant left <= workspaces.Keys && NoDup(ids) && forall w :: w in ids ==> w !in left
        invariant forall w :: w in ids <==> w in workspaces && w !in left && canon(workspaces[w].cwd) == path
        decreases left
      {
        var w :| w in left;
        left := left - {w};
        if canon(workspaces[w].cwd) == path { ids := ids + [w]; }
      }
    }

    /** Second section of `worktree_remove`: close every workspace matched before the removal. */
    method RemoveWorktree(matching: seq<Id>) returns (ghost pick: Id)
      modifies this
      ensures PickOk(DropWorkspaces(old(View()), matching), pick)
      ensures View() == RegistryModel.RemoveWorktree(old(View()), matching, pick)
    {
      ghost var start := View();
      for i := 0 to |matching|
        invariant View() == DropWorkspaces(start, matching[..i])
      {
        var _ := DropWorkspace(matching[i]);
        assert matching[..i + 1][..i] == matching[..i];
      }
      assert matching[..|matching|] == matching;
      pick := NormalizeFocus();
    }

    // ---------------------------------------------------------------- open and promote

    /** `values().find(..)`: some workspace rooted at the path, in no particular order. */
    method Find(canon: Canon, path: string) returns (dest: Option<Id>)
      ensures Destination(View(), canon, path, dest)
      ensures dest != None ==> dest.value in workspaces && canon(workspaces[dest.value].cwd) == path
      ensures dest == None ==> forall w :: w in workspaces ==> canon(workspaces[w].cwd) != path
    {
      var left := workspaces.Keys;
      while left != {}
        invariant left <= workspaces.Keys
        invariant forall w :: w in workspaces && w !in left ==> canon(workspaces[w].cwd) != path
        decreases left
      {
        var w :| w in left;
        if canon(workspaces[w].cwd) == path { return Some(w); }
        left := left - {w};
      }
      dest := None;
    }

    /** The locked part of `worktree_open`: focus a workspace that is already open at the path. */
    method OpenExisting(canon: Canon, path: string, title: Option<string>) returns (found: Option<Id>)
      modifies this
      ensures Destination(old(View()), canon, path, found)
      ensures found != None ==> found.value in old(workspaces) && canon(old(workspaces)[found.value].cwd) == path
      ensures found == None ==> forall w :: w in old(workspaces) ==> canon(old(workspaces)[w].cwd) != path
      ensures View() == if found.Some? then RegistryModel.OpenExisting(old(View()), found.value, title) else old(View())
    {
      found := Find(canon, path);
      if found.Some? {
        var w := found.value;
        if title.Some? { workspaces := workspaces[w := workspaces[w].(title := title.value)]; }
        var tab := First(workspaces[w].tabs);
        var pane := if tab.Some? && tab.value in tabs then First(tabs[tab.value].panes) else None;
        SetFocus(Some(w), tab, pane);
      }
    }

    /** The locked part of `promote_tab`; `live` is the terminal's canonical working directory. */
    method PromoteTab(t: Id, canon: Canon, live: string, title: string) returns (r: Outcome, ghost dest: Option<Id>)
      requires RegistryIntegrity.Integrity(View())
      modifies this
      ensures r == if t !in old(tabs) then NotFound
                   else if RegistryModel.AlreadyThere(old(View()), t, canon, live) then Outcome.AlreadyThere else Done
      ensures t in old(tabs) ==> old(tabs)[t].ws in old(workspaces)
      ensures t in old(tabs) ==>
        (r == Outcome.AlreadyThere <==> canon(old(workspaces)[old(tabs)[t].ws].cwd) == live)
      ensures r == Done && dest != None ==>
        dest.value in old(workspaces) && canon(old(workspaces)[dest.value].cwd) == live
      ensures r == Done && dest == None ==> forall w :: w in old(workspaces) ==> canon(old(workspaces)[w].cwd) != live
      ensures r == Done ==> RegistryMoves.CanPromote(old(View()), t, canon, live, dest)
      ensures View() == if r == Done then RegistryRuns.PromoteOrRefuse(old(View()), t, canon, live, title, dest)
                        else old(View())
    {
      if t !in tabs { return NotFound, None; }
      var src := tabs[t].ws;
      if (if src in workspaces then canon(workspaces[src].cwd) else "") == live { return Outcome.AlreadyThere, None; }
      var existing := Find(canon, live);
      RegistryMoves.TargetIsOther(View(), t, canon, live, existing);
      PromoteInto(t, existing, live, title);
      return Done, existing;
    }

    method PromoteInto(t: Id, existing: Option<Id>, live: string, title: string)
      requires t in tabs && (existing.Some? ==> existing.value in workspaces)
      requires RegistryMoves.Target(View(), existing) != tabs[t].ws
      modifies this
      ensures View() == Promote(old(View()), t, live, title, existing)
    {
      ghost var d := View();
      var first := First(tabs[t].panes);
      var w := MakeTarget(existing, live, title);
      MoveTabTo(t, w, live);
      SetFocus(Some(w), Some(t), first);
      ghost var moved := View();
      ghost var pick := NormalizeFocus();
      RegistryMoves.PromoteSteps(d, t, live, title, existing, moved, pick);
    }

    method MakeTarget(existing: Option<Id>, live: string, title: string) returns (w: Id)
      modifies this
      ensures w == RegistryMoves.Target(old(View()), existing)
      ensures View() == RegistryMoves.WithTarget(old(View()), live, title, existing)
    {
      if existing.Some? {
        w := existing.value;
      } else {
        w := NextId();
        workspaces := workspaces[w := Workspace(title, live, [])];
      }
    }

    /** Rewrite the records, move the id between the lists, drop the source if that emptied it. */
    method MoveTabTo(t: Id, w: Id, live: string)
      requires t in tabs
      modifies this
      ensures View() == MoveTab(old(View()), t, w, live)
    {
      var tab := tabs[t];
      var src := tab.ws;
      tabs := tabs[t := tab.(ws := w, title := if tab.title == "temp" then "Shell" else tab.title)];
      panes := Reparent(panes, tab.panes, w, live);
      if src in workspaces {
        workspaces := workspaces[src := workspaces[src].(tabs := Without(workspaces[src].tabs, t))];
      }
      if w in workspaces { workspaces := workspaces[w := workspaces[w].(tabs := workspaces[w].tabs + [t])]; }
      if src in workspaces && workspaces[src].tabs == [] { workspaces := workspaces - {src}; }
    }

    // ---------------------------------------------------------------- listing

    /** `ordered_workspaces`: the rows by ascending id; sorting is insertion, as any sort will do. */
    method OrderedWorkspaces() returns (order: seq<Id>)
      ensures order == RegistryListing.Sorted(workspaces.Keys)
    {
      order := [];
      var left := workspaces.Keys;
      while left != {}
        invariant left <= workspaces.Keys && RegistryListing.Ascending(order)
        invariant forall w :: w in order <==> w in workspaces && w !in left
        decreases left
      {
        var w :| w in left;
        order := InsertSorted(order, w);
        left := left - {w};
      }
      RegistryListing.SortedUnique(workspaces.Keys, order);
    }

    static method InsertSorted(order: seq<Id>, w: Id) returns (r: seq<Id>)
      requires RegistryListing.Ascending(order) && w !in order
      ensures RegistryListing.Ascending(r) && forall x :: x in r <==> x in order || x == w
    {
      var i := 0;
      while i < |order| && order[i] < w
        invariant i <= |order| && forall k :: 0 <= k < i ==> order[k] < w
      {
        i := i + 1;
      }
      r := order[..i] + [w] + order[i..];
      assert order == order[..i] + order[i..];
      assert i < |order| ==> order[i] in order;
      RegistryListing.Inserted(order[..i], w, order[i..]);
    }

    /** `ordered_tabs`: the tabs of every workspace, or of the one asked for, in list order. */
    method OrderedTabs(only: Option<Id>) returns (ids: seq<Id>)
      ensures ids == RegistryListing.ListedTabs(View(), only)
    {
      var order := OrderedWorkspaces();
      RegistryListing.SortedIs(workspaces.Keys);
      ghost var d := View();
      ids := [];
      for i := 0 to |order|
        invariant ids == RegistryListing.TabsOf(d, RegistryListing.Chosen(order[..i], only))
      {
        RegistryListing.ListStep(d, order, i, only);
        if only.Some? && order[i] != only.value { continue; }
        ids := ids + RegistryListing.Present(workspaces[order[i]].tabs, tabs.Keys);
      }
      assert order[..|order|] == order;
    }

    /** `ordered_panes`: the panes of those tabs, in list order. */
    method OrderedPanes(only: Option<Id>) returns (ids: seq<Id>)
      ensures ids == RegistryListing.ListedPanes(View(), only)
    {
      var ts := OrderedTabs(only);
      RegistryListing.SortedIs(workspaces.Keys);
      RegistryListing.TabsAreThere(View(), RegistryListing.Chosen(RegistryListing.Sorted(workspaces.Keys), only));
      ids := [];
      for i := 0 to |ts|
        invariant ids == RegistryListing.PanesOf(View(), ts[..i])
      {
        assert ts[..i + 1][..i] == ts[..i];
        ids := ids + RegistryListing.Present(tabs[ts[i]].panes, panes.Keys);
      }
      assert ts[..|ts|] == ts;
    }

    // ---------------------------------------------------------------- renames

    method RenameWorkspace(w: Id, title: string) returns (r: Outcome)
      modifies this
      ensures r == if w in old(workspaces) then Done else NotFound
      ensures View() == if r == Done then RegistryModel.RenameWorkspace(old(View()), w, title) else old(View())
    {
      if w !in workspaces { return NotFound; }
      workspaces := workspaces[w := workspaces[w].(title := title)];
      r := Done;
    }

    method RenameTab(t: Id, title: string) returns (r: Outcome)
      modifies this
      ensures r == if t in old(tabs) then Done else NotFound
      ensures View() == if r == Done then RegistryModel.RenameTab(old(View()), t, title) else old(View())
    {
      if t !in tabs { return NotFound; }
      tabs := tabs[t := tabs[t].(title := title)];
      r := Done;
    }
  }
}

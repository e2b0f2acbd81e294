/** What a create leaves behind, whatever other requests do between its two sections. */
module RegistryCreates {
  import opened Prelude
  import opened RegistryModel
  import opened RegistryIntegrity
  import opened RegistryMoves
  import opened RegistryRuns

  /** The create is neither finished nor given up in these sections. */
  ghost predicate Waits(steps: seq<Step>, t: Ticket) { Finish(t) !in steps && SpawnFailed(t) !in steps }

  lemma {:induction false} TicketWaits(s: Sys, steps: seq<Step>, t: Ticket)
    requires t in s.tickets && Waits(steps, t)
    ensures t in Run(s, steps).tickets
    decreases |steps|
  {
    if steps != [] { TicketWaits(Apply(s, steps[0]), steps[1..], t); }
  }

  /** The create can finish, with ids that nobody has used. */
  lemma StillFresh(before: seq<Step>, begin: Step, t: Ticket, between: seq<Step>)
    requires t in Apply(Run(Boot, before), begin).tickets && Waits(between, t)
    ensures var s1 := Run(Apply(Run(Boot, before), begin), between);
      t in s1.tickets && Fresh(s1.d, t) && Good(s1)
  {
    RunKeeps(Boot, before);
    StepKeeps(Run(Boot, before), begin);
    RunKeeps(Apply(Run(Boot, before), begin), between);
    TicketWaits(Apply(Run(Boot, before), begin), between, t);
    TicketFresh(Run(Apply(Run(Boot, before), begin), between), t);
  }

  /** Everything a finished create has written: one tab with one pane, hooked to workspace w. */
  predicate Opened(d: Data, r: Data, w: Id, tab: Id, title: string, pane: Id, term: Id, cwd: string) {
    && tab !in d.tabs && r.tabs == d.tabs[tab := Tab(w, title, [pane])]
    && pane !in d.panes && r.panes == d.panes[pane := Pane(term, w, tab, cwd)]
    && term !in d.terminals && r.terminals == d.terminals + {term}
    && r.nextId == d.nextId
  }

  lemma FinishedWorkspace(s: Sys, t: Ticket)
    requires t in s.tickets && Fresh(s.d, t) && t.NewWorkspace?
    ensures var r := Apply(s, Finish(t)).d;
      && r.workspaces == s.d.workspaces[t.ws := Workspace(t.title, t.cwd, [t.tab])]
      && Opened(s.d, r, t.ws, t.tab, t.tabTitle, t.pane, t.term, t.cwd)
      && r.focus == if t.takesFocus then Focus(Some(t.ws), Some(t.tab), Some(t.pane)) else s.d.focus
  {
  }

  lemma FinishedBare(s: Sys, t: Ticket)
    requires t in s.tickets && Fresh(s.d, t) && t.BareWorkspace?
    ensures var r := Apply(s, Finish(t)).d; var d := s.d;
      && r.workspaces == d.workspaces[t.ws := Workspace(t.title, t.cwd, [])]
      && r.tabs == d.tabs && r.panes == d.panes && r.terminals == d.terminals && r.nextId == d.nextId
      && r.focus == if t.focus || d.focus.ws == None then Focus(Some(t.ws), None, None) else d.focus
  {
  }

  lemma FinishedTab(s: Sys, t: Ticket)
    requires t in s.tickets && Fresh(s.d, t) && t.NewTab?
    ensures var r := Apply(s, Finish(t)).d; var f := s.d.focus;
      if t.target !in s.d.workspaces then r == s.d
      else
        && (var row := s.d.workspaces[t.target];
            r.workspaces == s.d.workspaces[t.target := Workspace(row.title, row.cwd, row.tabs + [t.tab])])
        && Opened(s.d, r, t.target, t.tab, t.tabTitle, t.pane, t.term, t.cwd)
        && r.focus == if t.focus || f.ws == None || f.tab == None || f.pane == None
                      then Focus(Some(t.target), Some(t.tab), Some(t.pane)) else f
  {
  }

  /** `create_workspace` with a terminal takes four ids and decides about focus at once: it will focus what it
      creates iff it was asked to or no workspace was focused then.  Otherwise focus stays what it is when the
      create finishes, whatever that is by then. */
  lemma WorkspaceCreated(before: seq<Step>, cwd: string, title: string, focus: bool, between: seq<Step>)
    requires var s := Run(Boot, before); var n := s.d.nextId;
      Waits(between, NewWorkspace(n, n + 1, n + 2, n + 3, focus || s.d.focus.ws == None, cwd, title, "Shell"))
    ensures var s := Run(Boot, before); var n := s.d.nextId;
      var t := NewWorkspace(n, n + 1, n + 2, n + 3, focus || s.d.focus.ws == None, cwd, title, "Shell");
      var s1 := Run(Apply(s, BeginWorkspace(cwd, title, focus)), between);
      var r := Apply(s1, Finish(t)).d;
      && t in s1.tickets
      && n !in s1.d.workspaces && r.workspaces == s1.d.workspaces[n := Workspace(title, cwd, [n + 1])]
      && Opened(s1.d, r, n, n + 1, "Shell", n + 2, n + 3, cwd)
      && (focus || s.d.focus.ws == None ==> r.focus == Focus(Some(n), Some(n + 1), Some(n + 2)))
      && (!focus && s.d.focus.ws != None ==> r.focus == s1.d.focus)
  {
    var n := Run(Boot, before).d.nextId;
    var takes := focus || Run(Boot, before).d.focus.ws == None;
    var t := NewWorkspace(n, n + 1, n + 2, n + 3, takes, cwd, title, "Shell");
    StillFresh(before, BeginWorkspace(cwd, title, focus), t, between);
    FinishedWorkspace(Run(Apply(Run(Boot, before), BeginWorkspace(cwd, title, focus)), between), t);
  }

  /** `start_agent` always focuses what it creates, and names both rows after the agent. */
  lemma AgentStarted(before: seq<Step>, cwd: string, name: string, between: seq<Step>)
    requires var n := Run(Boot, before).d.nextId;
      Waits(between, NewWorkspace(n, n + 1, n + 2, n + 3, true, cwd, name, name))
    ensures var s := Run(Boot, before); var n := s.d.nextId;
      var t := NewWorkspace(n, n + 1, n + 2, n + 3, true, cwd, name, name);
      var s1 := Run(Apply(s, BeginAgent(cwd, name)), between);
      var r := Apply(s1, Finish(t)).d;
      && t in s1.tickets
      && n !in s1.d.workspaces && r.workspaces == s1.d.workspaces[n := Workspace(name, cwd, [n + 1])]
      && Opened(s1.d, r, n, n + 1, name, n + 2, n + 3, cwd)
      && r.focus == Focus(Some(n), Some(n + 1), Some(n + 2))
  {
    var n := Run(Boot, before).d.nextId;
    var t := NewWorkspace(n, n + 1, n + 2, n + 3, true, cwd, name, name);
    StillFresh(before, BeginAgent(cwd, name), t, between);
    FinishedWorkspace(Run(Apply(Run(Boot, before), BeginAgent(cwd, name)), between), t);
  }

  /** `create_workspace` without a terminal looks at the focus when it inserts: the new workspace is focused
      alone iff that was asked for or no workspace is focused then. */
  lemma BareCreated(before: seq<Step>, cwd: string, title: string, focus: bool, between: seq<Step>)
    requires Waits(between, BareWorkspace(Run(Boot, before).d.nextId, focus, cwd, title))
    ensures var s := Run(Boot, before); var n := s.d.nextId; var t := BareWorkspace(n, focus, cwd, title);
      var s1 := Run(Apply(s, BeginBare(cwd, title, focus)), between);
      var r := Apply(s1, Finish(t)).d;
      && t in s1.tickets
      && n !in s1.d.workspaces && r.workspaces == s1.d.workspaces[n := Workspace(title, cwd, [])]
      && r.tabs == s1.d.tabs && r.panes == s1.d.panes && r.terminals == s1.d.terminals && r.nextId == s1.d.nextId
      && (focus || s1.d.focus.ws == None ==> r.focus == Focus(Some(n), None, None))
      && (!focus && s1.d.focus.ws != None ==> r.focus == s1.d.focus)
  {
    var t := BareWorkspace(Run(Boot, before).d.nextId, focus, cwd, title);
    StillFresh(before, BeginBare(cwd, title, focus), t, between);
    FinishedBare(Run(Apply(Run(Boot, before), BeginBare(cwd, title, focus)), between), t);
  }

  /** `create_tab` also looks at the focus when it inserts: the new tab and pane are focused iff that was asked
      for or some part of the focus triple is empty then.  A tab whose workspace was closed meanwhile is refused
      and changes nothing. */
  lemma TabCreated(before: seq<Step>, target: Id, cwd: string, title: string, focus: bool, between: seq<Step>)
    requires var n := Run(Boot, before).d.nextId;
      Waits(between, NewTab(target, n, n + 1, n + 2, focus, cwd, title))
    ensures var s := Run(Boot, before); var n := s.d.nextId;
      var t := NewTab(target, n, n + 1, n + 2, focus, cwd, title);
      var s1 := Run(Apply(s, BeginTab(target, cwd, title, focus)), between);
      var r := Apply(s1, Finish(t)).d;
      var f := s1.d.focus;
      && t in s1.tickets
      && (target !in s1.d.workspaces ==> r == s1.d)
      && (target in s1.d.workspaces ==>
            && (var row := s1.d.workspaces[target];
                r.workspaces == s1.d.workspaces[target := Workspace(row.title, row.cwd, row.tabs + [n])])
            && Opened(s1.d, r, target, n, title, n + 1, n + 2, cwd)
            && (focus || f.ws == None || f.tab == None || f.pane == None ==>
                  r.focus == Focus(Some(target), Some(n), Some(n + 1)))
            && (!focus && f.ws != None && f.tab != None && f.pane != None ==> r.focus == f))
  {
    var n := Run(Boot, before).d.nextId;
    var t := NewTab(target, n, n + 1, n + 2, focus, cwd, title);
    StillFresh(before, BeginTab(target, cwd, title, focus), t, between);
    FinishedTab(Run(Apply(Run(Boot, before), BeginTab(target, cwd, title, focus)), between), t);
  }
}

/**
 `worktree_open` looks for a workspace at the directory in one section and, finding none, creates one in
 later sections.  Its promise, that opening a checkout does not duplicate it, can fail against another
 create for the same directory, and against nothing else.
 */
module RegistryOpen {
  import opened Prelude
  import opened RegistryModel
  import opened RegistryIntegrity
  import opened RegistryMoves
  import opened RegistryRuns

  /** The workspaces rooted at a directory. */
  function RootedAt(d: Data, canon: Canon, path: string): set<Id> {
    set w | w in d.workspaces && canon(d.workspaces[w].cwd) == path
  }

  /** A create in flight that will root a workspace there. */
  predicate Opens(t: Ticket, canon: Canon, path: string) { !t.NewTab? && canon(t.cwd) == path }

  /** A section that starts such a create, or promotes a tab to that directory. */
  predicate Targets(step: Step, canon: Canon, path: string) {
    match step
    case BeginWorkspace(cwd, _, _) => canon(cwd) == path
    case BeginBare(cwd, _, _) => canon(cwd) == path
    case BeginAgent(cwd, _) => canon(cwd) == path
    case DoPromote(_, _, live, _, _) => canon(live) == path
    case _ => false
  }

  /** At most this one create can still root a workspace at the directory, and no other has. */
  ghost predicate OnlyOne(s: Sys, canon: Canon, path: string, t: Ticket)
    requires !t.NewTab?
  {
    && RootedAt(s.d, canon, path) <= {t.ws}
    && forall u :: u in s.tickets && Opens(u, canon, path) ==> u == t
  }

  lemma SameRoots(d: Data, r: Data, canon: Canon, path: string)
    requires SameCwds(d.workspaces, r.workspaces)
    ensures RootedAt(r, canon, path) <= RootedAt(d, canon, path)
  {
  }

  lemma CloseRoots(d: Data, step: Step)
    requires IsClose(step)
    ensures SameCwds(d.workspaces, Close(d, step).workspaces)
  {
    match step
    case DoCloseWorkspace(w, _) => DropWorkspaceShrinks(d, w);
    case DoCloseTab(tab, _) => CloseTabShrinks(d, tab);
    case DoClosePane(p, _) => if p in d.panes { DropPaneShrinks(d, p); }
    case DoRemoveWorktree(matching, _) => DropWorkspacesShrink(d, matching);
  }

  lemma PromoteRoots(d: Data, step: Step, canon: Canon, path: string)
    requires Integrity(d) && step.DoPromote? && !Targets(step, canon, path)
    ensures RootedAt(PromoteOrRefuse(d, step.tab, step.canon, step.live, step.title, step.dest), canon, path)
            <= RootedAt(d, canon, path)
  {
    if CanPromote(d, step.tab, step.canon, step.live, step.dest) {
      TargetIsOther(d, step.tab, step.canon, step.live, step.dest);
      PromotedRoots(d, step.tab, step.live, step.title, step.dest, canon, path);
    }
  }

  lemma PromotedRoots(d: Data, t: Id, live: string, title: string, dest: Option<Id>, canon: Canon, path: string)
    requires Integrity(d) && t in d.tabs && (dest.Some? ==> dest.value in d.workspaces)
    requires Target(d, dest) != d.tabs[t].ws
    requires canon(live) != path
    ensures RootedAt(Promote(d, t, live, title, dest), canon, path) <= RootedAt(d, canon, path)
  {
    PromoteRows(d, t, live, title, dest);
    RowRoots(d.workspaces, Promote(d, t, live, title, dest).workspaces, d.tabs[t].ws,
             t, Target(d, dest), TargetRow(d, live, title, dest), canon, path);
  }

  lemma RowRoots(ws: Workspaces, r: Workspaces, src: Id, t: Id, w: Id, row: Workspace, canon: Canon, path: string)
    requires RowsAfter(ws, r, src, t, w, row) && (canon(row.cwd) == path ==> w in ws && ws[w] == row)
    ensures forall v :: v in r && canon(r[v].cwd) == path ==> v in ws && canon(ws[v].cwd) == path
  {
  }

  lemma InsertRoots(d: Data, t: Ticket, canon: Canon, path: string)
    ensures RootedAt(Insert(d, t), canon, path) <=
            RootedAt(d, canon, path) + if Opens(t, canon, path) then {t.ws} else {}
  {
    if t.NewTab? && t.target in d.workspaces {
      var r := Insert(d, t).workspaces;
      assert forall w :: w in r ==> w in d.workspaces && r[w].cwd == d.workspaces[w].cwd;
    }
  }

  lemma BeginOpens(d: Data, step: Step, canon: Canon, path: string)
    requires IsBegin(step)
    ensures Opens(TicketFor(d, step), canon, path) ==> Targets(step, canon, path)
  {
  }

  lemma OnlyOneStep(s: Sys, step: Step, canon: Canon, path: string, t: Ticket)
    requires Good(s) && !t.NewTab? && OnlyOne(s, canon, path, t) && !Targets(step, canon, path)
    ensures OnlyOne(Apply(s, step), canon, path, t)
  {
    if IsBegin(step) { BeginOpens(s.d, step, canon, path); SameRoots(s.d, Apply(s, step).d, canon, path); }
    else if IsClose(step) { CloseRoots(s.d, step); SameRoots(s.d, Close(s.d, step), canon, path); }
    else {
      match step
      case Finish(u) => if u in s.tickets { InsertRoots(s.d, u, canon, path); }
      case DoPromote(_, _, _, _, _) => PromoteRoots(s.d, step, canon, path);
      case DoOpenExisting(w, title) => if w in s.d.workspaces { OpenRoots(s.d, w, title, canon, path); }
      case DoRenameWorkspace(w, name) => if w in s.d.workspaces { RenameRoots(s.d, w, name, canon, path); }
      case _ =>
    }
  }

  lemma OpenRoots(d: Data, w: Id, title: Option<string>, canon: Canon, path: string)
    requires w in d.workspaces
    ensures RootedAt(OpenExisting(d, w, title), canon, path) <= RootedAt(d, canon, path)
  {
    SameRoots(d, OpenExisting(d, w, title), canon, path);
  }

  lemma RenameRoots(d: Data, w: Id, name: string, canon: Canon, path: string)
    requires w in d.workspaces
    ensures RootedAt(RenameWorkspace(d, w, name), canon, path) <= RootedAt(d, canon, path)
  {
    SameRoots(d, RenameWorkspace(d, w, name), canon, path);
  }

  predicate NoneTargets(steps: seq<Step>, canon: Canon, path: string) {
    forall i :: 0 <= i < |steps| ==> !Targets(steps[i], canon, path)
  }

  lemma {:induction false} OnlyOneAlong(s: Sys, steps: seq<Step>, canon: Canon, path: string, t: Ticket)
    requires Good(s) && !t.NewTab? && OnlyOne(s, canon, path, t) && NoneTargets(steps, canon, path)
    ensures OnlyOne(Run(s, steps), canon, path, t)
    decreases |steps|
  {
    if steps != [] {
      assert !Targets(steps[0], canon, path);
      OnlyOneStep(s, steps[0], canon, path, t);
      StepKeeps(s, steps[0]);
      OnlyOneAlong(Apply(s, steps[0]), steps[1..], canon, path, t);
    }
  }

  /** Two creates for one directory in flight end as two workspaces if both finish. */
  lemma BothFinish(s: Sys, t: Ticket, u: Ticket, canon: Canon, path: string)
    requires TicketsOk(s) && t in s.tickets && u in s.tickets && t != u
    requires Opens(t, canon, path) && Opens(u, canon, path)
    ensures t.ws != u.ws
    ensures {t.ws, u.ws} <= RootedAt(Run(s, [Finish(u), Finish(t)]).d, canon, path)
  {
    DistinctRows(s, t, u);
    FinishTwo(s, t, u);
    InsertAdds(s.d, u, canon, path);
    InsertAdds(Insert(s.d, u), t, canon, path);
  }

  lemma FinishTwo(s: Sys, t: Ticket, u: Ticket)
    requires t in s.tickets && u in s.tickets && t != u
    ensures Run(s, [Finish(u), Finish(t)]).d == Insert(Insert(s.d, u), t)
  {
    RunTwo(s, Finish(u), Finish(t));
  }

  lemma DistinctRows(s: Sys, t: Ticket, u: Ticket)
    requires TicketsOk(s) && t in s.tickets && u in s.tickets && t != u && !t.NewTab? && !u.NewTab?
    ensures t.ws != u.ws
  {
    assert NewIds(t) !! NewIds(u) && t.ws in NewIds(t) && u.ws in NewIds(u);
  }

  lemma RunTwo(s: Sys, a: Step, b: Step)
    ensures Run(s, [a, b]) == Apply(Apply(s, a), b)
  {
    assert [a, b][1..] == [b] && [b][1..] == [];
    assert Run(Apply(s, a), [b]) == Run(Apply(Apply(s, a), b), []);
  }

  lemma InsertAdds(d: Data, t: Ticket, canon: Canon, path: string)
    requires Opens(t, canon, path)
    ensures RootedAt(Insert(d, t), canon, path) == RootedAt(d, canon, path) + {t.ws}
  {
    var r := Insert(d, t).workspaces;
    assert t.ws in r && r[t.ws].cwd == t.cwd && r.Keys == d.workspaces.Keys + {t.ws};
    assert forall w :: w in r && w != t.ws ==> r[w] == d.workspaces[w];
  }

  /** A create that found nothing at its directory ends as the only workspace there, whatever else runs
      (short of new creates and promotions for that directory), iff it is the only such create in flight. */
  lemma OpenUniqueIff(s: Sys, t: Ticket, canon: Canon, path: string)
    requires Good(s) && t in s.tickets && Opens(t, canon, path) && RootedAt(s.d, canon, path) == {}
    ensures (forall u :: u in s.tickets && Opens(u, canon, path) ==> u == t) <==>
            (forall steps :: NoneTargets(steps, canon, path) ==> RootedAt(Run(s, steps).d, canon, path) <= {t.ws})
  {
    if forall u :: u in s.tickets && Opens(u, canon, path) ==> u == t {
      forall steps | NoneTargets(steps, canon, path) ensures RootedAt(Run(s, steps).d, canon, path) <= {t.ws} {
        OnlyOneAlong(s, steps, canon, path, t);
      }
    } else {
      var u :| u in s.tickets && Opens(u, canon, path) && u != t;
      RivalDuplicates(s, t, u, canon, path);
    }
  }

  lemma RivalDuplicates(s: Sys, t: Ticket, u: Ticket, canon: Canon, path: string)
    requires TicketsOk(s) && t in s.tickets && u in s.tickets && t != u
    requires Opens(t, canon, path) && Opens(u, canon, path)
    ensures exists steps :: NoneTargets(steps, canon, path) && !(RootedAt(Run(s, steps).d, canon, path) <= {t.ws})
  {
    BothFinish(s, t, u, canon, path);
    var steps := [Finish(u), Finish(t)];
    assert NoneTargets(steps, canon, path);
    assert u.ws in RootedAt(Run(s, steps).d, canon, path);
  }

  const First: Ticket := NewWorkspace(1, 2, 3, 4, true, "/repo", "repo", "Shell")
  const Second: Ticket := NewWorkspace(5, 6, 7, 8, true, "/repo", "repo", "Shell")

  /** Two opens that both looked before either inserted. */
  const RacingOpens: seq<Step> := [BeginWorkspace("/repo", "repo", true), BeginWorkspace("/repo", "repo", true)]

  lemma OpensCanDuplicate()
    ensures {1, 5} <= RootedAt(Run(Boot, RacingOpens + [Finish(Second), Finish(First)]).d, x => x, "/repo")
  {
    var canon: Canon := x => x;
    var s1 := Apply(Boot, RacingOpens[0]);
    assert s1 == Sys(Empty.(nextId := 5), {First});
    var s2 := Apply(s1, RacingOpens[1]);
    assert Second in s2.tickets && First in s2.tickets;
    StepKeeps(Boot, RacingOpens[0]);
    StepKeeps(s1, RacingOpens[1]);
    BothFinish(s2, First, Second, canon, "/repo");
    var all := RacingOpens + [Finish(Second), Finish(First)];
    assert all[0..] == all && all[2..] == [Finish(Second), Finish(First)];
    RunOne(Boot, all, 0);
    RunOne(s1, all, 1);
  }
}

/** Every interleaving of the registry's requests: creates in two sections, everything else in one. */
module RegistryRuns {
  import opened Prelude
  import opened RegistryModel
  import opened RegistryIntegrity
  import opened RegistryMoves

  /** The registry and the creates whose process is being spawned. */
  datatype Sys = Sys(d: Data, tickets: set<Ticket>)

  const Boot: Sys := Sys(Empty, {})

  datatype Step =
    | BeginWorkspace(cwd: string, title: string, focus: bool)
    | BeginBare(cwd: string, title: string, focus: bool)
    | BeginAgent(cwd: string, name: string)
    | BeginTab(target: Id, cwd: string, title: string, focus: bool)
    | Finish(t: Ticket)
    | SpawnFailed(t: Ticket)
    | DoCloseWorkspace(w: Id, pick: Id)
    | DoCloseTab(tab: Id, pick: Id)
    | DoClosePane(p: Id, pick: Id)
    | DoPromote(tab: Id, canon: Canon, live: string, title: string, dest: Option<Id>)
    | DoOpenExisting(w: Id, newTitle: Option<string>)
    | DoRemoveWorktree(matching: seq<Id>, pick: Id)
    | DoRenameWorkspace(w: Id, name: string)
    | DoRenameTab(tab: Id, name: string)

  predicate IsBegin(step: Step) { step.BeginWorkspace? || step.BeginBare? || step.BeginAgent? || step.BeginTab? }

  /** The ids a create takes; whether a workspace will take focus is decided here, before the spawn. */
  function TicketFor(d: Data, step: Step): Ticket
    requires IsBegin(step)
  {
    var n := d.nextId;
    match step
    case BeginWorkspace(cwd, title, focus) =>
      NewWorkspace(n, n + 1, n + 2, n + 3, focus || d.focus.ws.None?, cwd, title, "Shell")
    case BeginBare(cwd, title, focus) => BareWorkspace(n, focus, cwd, title)
    case BeginAgent(cwd, name) => NewWorkspace(n, n + 1, n + 2, n + 3, true, cwd, name, name)
    case BeginTab(target, cwd, title, focus) => NewTab(target, n, n + 1, n + 2, focus, cwd, title)
  }

  function Allocate(s: Sys, n: nat, t: Ticket): Sys {
    Sys(s.d.(nextId := s.d.nextId + n), s.tickets + {t})
  }

  predicate IsClose(step: Step) {
    step.DoCloseWorkspace? || step.DoCloseTab? || step.DoClosePane? || step.DoRemoveWorktree?
  }

  /** A close request; one that finds its target gone answers with an error and changes nothing. */
  function Close(d: Data, step: Step): Data
    requires IsClose(step)
  {
    match step
    case DoCloseWorkspace(w, pick) =>
      if w in d.workspaces && PickOk(DropWorkspace(d, w), pick) then CloseWorkspace(d, w, pick) else d
    case DoCloseTab(tab, pick) =>
      if tab in d.tabs && PickOk(CloseTabLocked(d, tab), pick) then CloseTab(d, tab, pick) else d
    case DoClosePane(p, pick) =>
      if p in d.panes && PickOk(DropPane(d, p), pick) then ClosePane(d, p, pick) else d
    case DoRemoveWorktree(matching, pick) =>
      if PickOk(DropWorkspaces(d, matching), pick) then RemoveWorktree(d, matching, pick) else d
  }

  function PromoteOrRefuse(d: Data, t: Id, canon: Canon, live: string, title: string, dest: Option<Id>): Data {
    if CanPromote(d, t, canon, live, dest) && Target(d, dest) != d.tabs[t].ws
    then Promote(d, t, live, title, dest) else d
  }

  predicate IsRowStep(step: Step) { step.DoOpenExisting? || step.DoRenameWorkspace? || step.DoRenameTab? }

  /** A change to one row, and to focus; nothing if the row is gone. */
  function RowStep(d: Data, step: Step): Data
    requires IsRowStep(step)
  {
    match step
    case DoOpenExisting(w, title) => if w in d.workspaces then OpenExisting(d, w, title) else d
    case DoRenameWorkspace(w, name) => if w in d.workspaces then RenameWorkspace(d, w, name) else d
    case DoRenameTab(tab, name) => if tab in d.tabs then RenameTab(d, tab, name) else d
  }

  /** One mutex section.  A pick or destination that the section could not have chosen is not a step. */
  function Apply(s: Sys, step: Step): Sys {
    if IsBegin(step) then Allocate(s, if step.BeginTab? then 3 else 4, TicketFor(s.d, step))
    else if IsClose(step) then s.(d := Close(s.d, step))
    else if IsRowStep(step) then s.(d := RowStep(s.d, step))
    else match step
      case Finish(t) => if t in s.tickets then Sys(Insert(s.d, t), s.tickets - {t}) else s
      case SpawnFailed(t) => s.(tickets := s.tickets - {t})
      case DoPromote(tab, canon, live, title, dest) => s.(d := PromoteOrRefuse(s.d, tab, canon, live, title, dest))
      case _ => s
  }

  function Run(s: Sys, steps: seq<Step>): Sys
    decreases |steps|
  {
    if steps == [] then s else Run(Apply(s, steps[0]), steps[1..])
  }

  // --------------------------------------------------------------- pending creates

  function NewIds(t: Ticket): set<Id> {
    match t
    case NewWorkspace(ws, tab, pane, term, _, _, _, _) => {ws, tab, pane, term}
    case BareWorkspace(ws, _, _, _) => {ws}
    case NewTab(_, tab, pane, term, _, _, _) => {tab, pane, term}
  }

  function UsedIds(d: Data): set<Id> { d.workspaces.Keys + d.tabs.Keys + d.panes.Keys + d.terminals }

  predicate IdsOk(ids: set<Id>, used: set<Id>, next: Id) { ids !! used && forall x :: x in ids ==> x < next }

  /** Ids in flight are below the counter, unused, and used by one create only. */
  ghost predicate TicketsOver(tickets: set<Ticket>, used: set<Id>, next: Id) {
    && (forall t :: t in tickets ==> IdsOk(NewIds(t), used, next))
    && (forall t, u :: t in tickets && u in tickets && t != u ==> NewIds(t) !! NewIds(u))
  }

  ghost predicate TicketsOk(s: Sys) { TicketsOver(s.tickets, UsedIds(s.d), s.d.nextId) }

  ghost predicate Good(s: Sys) { Integrity(s.d) && TicketsOk(s) && FocusOk(s.d) }

  lemma TicketFresh(s: Sys, t: Ticket)
    requires TicketsOk(s) && t in s.tickets
    ensures Fresh(s.d, t)
  {
    assert IdsOk(NewIds(t), UsedIds(s.d), s.d.nextId);
    match t
    case NewWorkspace(ws, tab, pane, term, _, _, _, _) =>
      assert ws in NewIds(t) && tab in NewIds(t) && pane in NewIds(t) && term in NewIds(t);
    case BareWorkspace(ws, _, _, _) => assert ws in NewIds(t);
    case NewTab(_, tab, pane, term, _, _, _) =>
      assert tab in NewIds(t) && pane in NewIds(t) && term in NewIds(t);
  }

  lemma AddTicket(tickets: set<Ticket>, used: set<Id>, next: Id, n: nat, t: Ticket)
    requires TicketsOver(tickets, used, next)
    requires forall x :: x in NewIds(t) ==> next <= x < next + n
    requires forall x :: x in used ==> x < next
    ensures TicketsOver(tickets + {t}, used, next + n)
  {
    assert NewIds(t) !! used;
    forall u | u in tickets ensures NewIds(u) !! NewIds(t) && IdsOk(NewIds(u), used, next + n) {
      assert IdsOk(NewIds(u), used, next);
    }
  }

  lemma AllocateKeeps(s: Sys, n: nat, t: Ticket)
    requires Good(s) && forall x :: x in NewIds(t) ==> s.d.nextId <= x < s.d.nextId + n
    ensures Good(Allocate(s, n, t))
  {
    UsedBelow(s.d);
    AddTicket(s.tickets, UsedIds(s.d), s.d.nextId, n, t);
    assert UsedIds(Allocate(s, n, t).d) == UsedIds(s.d);
  }

  lemma UsedBelow(d: Data)
    requires Below(d)
    ensures forall x :: x in UsedIds(d) ==> x < d.nextId
  {
  }

  /** A section that uses no new ids leaves the creates in flight alone. */
  lemma TicketsKept(s: Sys, s': Sys)
    requires TicketsOk(s) && s'.tickets <= s.tickets && s'.d.nextId >= s.d.nextId
    requires forall x :: x in UsedIds(s'.d) ==> x in UsedIds(s.d) || x >= s.d.nextId
    ensures TicketsOk(s')
  {
    KeepTickets(s.tickets, UsedIds(s.d), s.d.nextId, s'.tickets, UsedIds(s'.d), s'.d.nextId);
  }

  lemma KeepTickets(tickets: set<Ticket>, used: set<Id>, next: Id, tickets': set<Ticket>, used': set<Id>, next': Id)
    requires TicketsOver(tickets, used, next) && tickets' <= tickets && next' >= next
    requires forall x :: x in used' ==> x in used || x >= next
    ensures TicketsOver(tickets', used', next')
  {
    forall t | t in tickets' ensures IdsOk(NewIds(t), used', next') {
      assert IdsOk(NewIds(t), used, next);
    }
  }

  lemma UseTicket(tickets: set<Ticket>, used: set<Id>, next: Id, t: Ticket, used': set<Id>)
    requires TicketsOver(tickets, used, next) && t in tickets && used' <= used + NewIds(t)
    ensures TicketsOver(tickets - {t}, used', next)
  {
    forall u | u in tickets - {t} ensures IdsOk(NewIds(u), used', next) {
      assert IdsOk(NewIds(u), used, next) && NewIds(u) !! NewIds(t);
    }
  }

  lemma InsertUses(d: Data, t: Ticket)
    ensures UsedIds(Insert(d, t)) <= UsedIds(d) + NewIds(t)
    ensures Insert(d, t).nextId == d.nextId
  {
    if t.NewTab? && t.target in d.workspaces {
      assert Insert(d, t).workspaces.Keys == d.workspaces.Keys;
    }
  }

  lemma FinishTickets(s: Sys, t: Ticket)
    requires TicketsOk(s) && t in s.tickets
    ensures TicketsOk(Sys(Insert(s.d, t), s.tickets - {t}))
  {
    InsertUses(s.d, t);
    UseTicket(s.tickets, UsedIds(s.d), s.d.nextId, t, UsedIds(Insert(s.d, t)));
  }

  lemma FinishKeeps(s: Sys, t: Ticket)
    requires Good(s) && t in s.tickets
    ensures Good(Sys(Insert(s.d, t), s.tickets - {t}))
  {
    TicketFresh(s, t);
    InsertKeeps(s.d, t);
    InsertFocus(s.d, t);
    FinishTickets(s, t);
  }

  // --------------------------------------------------------------- closing

  /** Nothing but rows that were there, each still rooted where it was. */
  predicate SameCwds(ws: Workspaces, r: Workspaces) { forall w :: w in r ==> w in ws && r[w].cwd == ws[w].cwd }

  predicate Shrinks(d: Data, r: Data) {
    && r.nextId == d.nextId && r.focus == d.focus
    && SameCwds(d.workspaces, r.workspaces) && r.tabs.Keys <= d.tabs.Keys
    && r.panes.Keys <= d.panes.Keys && r.terminals <= d.terminals
  }

  lemma {:induction false} ClosePanesShrink(d: Data, ps: seq<Id>)
    ensures Shrinks(d, ClosePanesLocked(d, ps))
    decreases |ps|
  {
    if ps != [] { ClosePanesShrink(d, ps[..|ps| - 1]); }
  }

  lemma CloseTabShrinks(d: Data, t: Id)
    ensures Shrinks(d, CloseTabLocked(d, t))
  {
    if t in d.tabs { ClosePanesShrink(d.(tabs := d.tabs - {t}), d.tabs[t].panes); }
  }

  lemma {:induction false} CloseTabsShrink(d: Data, ts: seq<Id>)
    ensures Shrinks(d, CloseTabsLocked(d, ts))
    decreases |ts|
  {
    if ts != [] {
      CloseTabsShrink(d, ts[..|ts| - 1]);
      CloseTabShrinks(CloseTabsLocked(d, ts[..|ts| - 1]), ts[|ts| - 1]);
    }
  }

  lemma DropWorkspaceShrinks(d: Data, w: Id)
    ensures Shrinks(d, DropWorkspace(d, w))
  {
    if w in d.workspaces { CloseTabsShrink(d.(workspaces := d.workspaces - {w}), d.workspaces[w].tabs); }
  }

  lemma {:induction false} DropWorkspacesShrink(d: Data, ws: seq<Id>)
    ensures Shrinks(d, DropWorkspaces(d, ws))
    decreases |ws|
  {
    if ws != [] {
      DropWorkspacesShrink(d, ws[..|ws| - 1]);
      DropWorkspaceShrinks(DropWorkspaces(d, ws[..|ws| - 1]), ws[|ws| - 1]);
    }
  }

  lemma DropPaneShrinks(d: Data, p: Id)
    requires p in d.panes
    ensures Shrinks(d, DropPane(d, p))
  {
    CloseTabShrinks(ClosePaneLocked(d, p), d.panes[p].tab);
  }

  ghost predicate Sound(d: Data) { Integrity(d) && FocusOk(d) }

  /** The ids in use stay in use at most, and the counter stands still. */
  predicate UsesNoNew(d: Data, r: Data) { UsedIds(r) <= UsedIds(d) && r.nextId == d.nextId }

  /** Anything that only removes, followed by focus repair. */
  lemma RemovalKeeps(d: Data, r: Data, pick: Id)
    requires Shrinks(d, r) && Integrity(r) && PickOk(r, pick)
    ensures var n := NormalizeFocus(r, pick); Sound(n) && FocusPresent(n) && UsesNoNew(d, n)
  {
    NormalizeRepairs(r, pick);
    assert UsedIds(NormalizeFocus(r, pick)) == UsedIds(r);
  }

  lemma CloseKeeps(d: Data, step: Step)
    requires Sound(d) && IsClose(step)
    ensures Sound(Close(d, step)) && UsesNoNew(d, Close(d, step))
    ensures Close(d, step) == d || FocusPresent(Close(d, step))
  {
    match step
    case DoCloseWorkspace(w, pick) =>
      DropWorkspaceKeeps(d, w);
      DropWorkspaceShrinks(d, w);
      if PickOk(DropWorkspace(d, w), pick) { RemovalKeeps(d, DropWorkspace(d, w), pick); }
    case DoCloseTab(tab, pick) =>
      CloseTabKeeps(d, tab, {});
      assert {} - {tab} == {};
      CloseTabShrinks(d, tab);
      if PickOk(CloseTabLocked(d, tab), pick) { RemovalKeeps(d, CloseTabLocked(d, tab), pick); }
    case DoClosePane(p, pick) =>
      if p in d.panes {
        DropPaneKeeps(d, p);
        DropPaneShrinks(d, p);
        if PickOk(DropPane(d, p), pick) { RemovalKeeps(d, DropPane(d, p), pick); }
      }
    case DoRemoveWorktree(matching, pick) =>
      DropWorkspacesKeep(d, matching);
      DropWorkspacesShrink(d, matching);
      if PickOk(DropWorkspaces(d, matching), pick) { RemovalKeeps(d, DropWorkspaces(d, matching), pick); }
  }

  // --------------------------------------------------------------- every step

  lemma PromoteUses(d: Data, t: Id, live: string, title: string, dest: Option<Id>)
    requires Integrity(d) && t in d.tabs && (dest.Some? ==> dest.value in d.workspaces)
    requires Target(d, dest) != d.tabs[t].ws
    ensures UsedIds(Promote(d, t, live, title, dest)) <= UsedIds(d) + {d.nextId}
    ensures Promote(d, t, live, title, dest).nextId >= d.nextId
  {
    PromoteIs(d, t, live, title, dest);
    PromoteRows(d, t, live, title, dest);
  }

  lemma PromoteStepKeeps(d: Data, t: Id, canon: Canon, live: string, title: string, dest: Option<Id>)
    requires Sound(d)
    ensures var r := PromoteOrRefuse(d, t, canon, live, title, dest);
      && Sound(r)
      && UsedIds(r) <= UsedIds(d) + {d.nextId} && r.nextId >= d.nextId
      && (r == d || FocusPresent(r))
  {
    if CanPromote(d, t, canon, live, dest) {
      PromoteKeeps(d, t, canon, live, title, dest);
      PromoteFocus(d, t, canon, live, title, dest);
      PromoteUses(d, t, live, title, dest);
    }
  }

  lemma BeginStepKeeps(s: Sys, step: Step)
    requires Good(s) && IsBegin(step)
    ensures Good(Allocate(s, if step.BeginTab? then 3 else 4, TicketFor(s.d, step)))
  {
    TicketIds(s.d, step);
    AllocateKeeps(s, if step.BeginTab? then 3 else 4, TicketFor(s.d, step));
  }

  lemma TicketIds(d: Data, step: Step)
    requires IsBegin(step)
    ensures forall x :: x in NewIds(TicketFor(d, step)) ==> d.nextId <= x < d.nextId + if step.BeginTab? then 3 else 4
  {
  }

  /** A section that only changes the data, and takes no id that is in flight. */
  lemma DataStepKeeps(s: Sys, r: Data)
    requires Good(s) && Sound(r) && UsedIds(r) <= UsedIds(s.d) + {s.d.nextId} && r.nextId >= s.d.nextId
    ensures Good(s.(d := r))
  {
    KeepTickets(s.tickets, UsedIds(s.d), s.d.nextId, s.tickets, UsedIds(r), r.nextId);
  }

  lemma OpenUses(d: Data, w: Id, title: Option<string>)
    requires w in d.workspaces
    ensures UsesNoNew(d, OpenExisting(d, w, title))
  {
    assert OpenExisting(d, w, title).workspaces.Keys == d.workspaces.Keys;
  }

  lemma StepKeeps(s: Sys, step: Step)
    requires Good(s)
    ensures Good(Apply(s, step))
  {
    if IsBegin(step) { BeginStepKeeps(s, step); }
    else if IsClose(step) { CloseStepKeeps(s, step); }
    else if step.Finish? { if step.t in s.tickets { FinishKeeps(s, step.t); } }
    else if step.SpawnFailed? { TicketsKept(s, s.(tickets := s.tickets - {step.t})); }
    else if step.DoPromote? { PromotionKeeps(s, step); }
    else { RowStepKeeps(s, step); }
  }

  lemma CloseStepKeeps(s: Sys, step: Step)
    requires Good(s) && IsClose(step)
    ensures Good(s.(d := Close(s.d, step)))
  {
    CloseKeeps(s.d, step);
    DataStepKeeps(s, Close(s.d, step));
  }

  lemma PromotionKeeps(s: Sys, step: Step)
    requires Good(s) && step.DoPromote?
    ensures Good(s.(d := PromoteOrRefuse(s.d, step.tab, step.canon, step.live, step.title, step.dest)))
  {
    PromoteStepKeeps(s.d, step.tab, step.canon, step.live, step.title, step.dest);
    DataStepKeeps(s, PromoteOrRefuse(s.d, step.tab, step.canon, step.live, step.title, step.dest));
  }

  lemma RowStepKeeps(s: Sys, step: Step)
    requires Good(s) && IsRowStep(step)
    ensures Good(s.(d := RowStep(s.d, step)))
  {
    if RowStep(s.d, step) == s.d {
      assert s.(d := RowStep(s.d, step)) == s;
    } else {
      match step
      case DoOpenExisting(w, title) => OpenStepKeeps(s, w, title);
      case DoRenameWorkspace(w, name) => WorkspaceRenameKeeps(s, w, name);
      case DoRenameTab(tab, name) => TabRenameKeeps(s, tab, name);
    }
  }

  lemma WorkspaceRenameKeeps(s: Sys, w: Id, name: string)
    requires Good(s) && w in s.d.workspaces
    ensures Good(s.(d := RenameWorkspace(s.d, w, name)))
  {
    RenameWorkspaceStep(s.d, w, name);
    DataStepKeeps(s, RenameWorkspace(s.d, w, name));
  }

  lemma TabRenameKeeps(s: Sys, t: Id, name: string)
    requires Good(s) && t in s.d.tabs
    ensures Good(s.(d := RenameTab(s.d, t, name)))
  {
    RenameTabStep(s.d, t, name);
    DataStepKeeps(s, RenameTab(s.d, t, name));
  }

  lemma OpenStepKeeps(s: Sys, w: Id, title: Option<string>)
    requires Good(s) && w in s.d.workspaces
    ensures Good(s.(d := OpenExisting(s.d, w, title)))
  {
    OpenExistingKeeps(s.d, w, title);
    OpenUses(s.d, w, title);
    DataStepKeeps(s, OpenExisting(s.d, w, title));
  }

  lemma RenameWorkspaceStep(d: Data, w: Id, name: string)
    requires Sound(d) && w in d.workspaces
    ensures var r := RenameWorkspace(d, w, name); Sound(r) && UsesNoNew(d, r) && (FocusPresent(d) ==> FocusPresent(r))
  {
    RenameWorkspaceKeeps(d, w, name);
    assert RenameWorkspace(d, w, name).workspaces.Keys == d.workspaces.Keys;
  }

  lemma RenameTabStep(d: Data, t: Id, name: string)
    requires Sound(d) && t in d.tabs
    ensures var r := RenameTab(d, t, name); Sound(r) && UsesNoNew(d, r) && (FocusPresent(d) ==> FocusPresent(r))
  {
    RenameTabKeeps(d, t, name);
    assert RenameTab(d, t, name).tabs.Keys == d.tabs.Keys;
  }

  lemma {:induction false} RunKeeps(s: Sys, steps: seq<Step>)
    requires Good(s)
    ensures Good(Run(s, steps))
    decreases |steps|
  {
    if steps != [] {
      StepKeeps(s, steps[0]);
      RunKeeps(Apply(s, steps[0]), steps[1..]);
    }
  }

  /** In every interleaving the registry is intact, inserts never overwrite, and focus never dangles. */
  lemma RegistryAlwaysIntact(steps: seq<Step>)
    ensures var s := Run(Boot, steps); Integrity(s.d) && FocusOk(s.d) && forall t :: t in s.tickets ==> Fresh(s.d, t)
  {
    RunKeeps(Boot, steps);
    var s := Run(Boot, steps);
    forall t | t in s.tickets ensures Fresh(s.d, t) { TicketFresh(s, t); }
  }

  // --------------------------------------------------------------- losing focus

  /** The one section after which a registry that had a focused workspace may have none: a create that
      decided against focus before its spawn, finishing into a registry emptied meanwhile. */
  predicate LosesFocus(s: Sys, step: Step) {
    step.Finish? && step.t in s.tickets && step.t.NewWorkspace? && !step.t.takesFocus && s.d.workspaces == map[]
  }

  lemma FocusLostIff(s: Sys, step: Step)
    requires Good(s) && FocusPresent(s.d)
    ensures !FocusPresent(Apply(s, step).d) <==> LosesFocus(s, step)
  {
    if IsBegin(step) {}
    else if IsClose(step) { CloseKeeps(s.d, step); }
    else {
      match step
      case Finish(t) => if t in s.tickets { FinishFocus(s, t); }
      case DoPromote(tab, canon, live, title, dest) => PromoteStepKeeps(s.d, tab, canon, live, title, dest);
      case DoOpenExisting(w, title) => if w in s.d.workspaces { OpenExistingKeeps(s.d, w, title); }
      case DoRenameWorkspace(w, name) => if w in s.d.workspaces { RenameWorkspaceStep(s.d, w, name); }
      case DoRenameTab(tab, name) => if tab in s.d.tabs { RenameTabStep(s.d, tab, name); }
      case _ =>
    }
  }

  lemma FinishFocus(s: Sys, t: Ticket)
    requires Good(s) && FocusPresent(s.d) && t in s.tickets
    ensures !FocusPresent(Insert(s.d, t)) <==> t.NewWorkspace? && !t.takesFocus && s.d.workspaces == map[]
  {
    assert t.NewWorkspace? ==> t.ws in Insert(s.d, t).workspaces;
  }

  // --------------------------------------------------------------- creates that nothing interleaves with

  /** A create whose two sections follow one another leaves some workspace focused, spawned or not. */
  lemma AtomicCreateFocuses(s: Sys, b: Step, end: Step)
    requires Good(s) && FocusPresent(s.d) && IsBegin(b)
    requires end == Finish(TicketFor(s.d, b)) || end == SpawnFailed(TicketFor(s.d, b))
    ensures Good(Apply(Apply(s, b), end)) && FocusPresent(Apply(Apply(s, b), end).d)
  {
    var s1 := Apply(s, b);
    StepKeeps(s, b);
    StepKeeps(s1, end);
    assert s1.d.workspaces == s.d.workspaces && s1.d.focus == s.d.focus;
    FocusLostIff(s1, end);
  }

  /** Every create is begun and ended, by its insert or by a failed spawn, with nothing in between. */
  predicate Atomic(s: Sys, steps: seq<Step>)
    decreases |steps|
  {
    || steps == []
    || (if IsBegin(steps[0])
        then && |steps| >= 2
             && (var t := TicketFor(s.d, steps[0]); steps[1] == Finish(t) || steps[1] == SpawnFailed(t))
             && Atomic(Apply(Apply(s, steps[0]), steps[1]), steps[2..])
        else !steps[0].Finish? && !steps[0].SpawnFailed? && Atomic(Apply(s, steps[0]), steps[1..]))
  }

  lemma {:induction false} AtomicKeepsFocus(s: Sys, steps: seq<Step>)
    requires Good(s) && FocusPresent(s.d) && Atomic(s, steps)
    ensures FocusPresent(Run(s, steps).d)
    decreases |steps|
  {
    if steps != [] {
      if IsBegin(steps[0]) {
        AtomicCreateFocuses(s, steps[0], steps[1]);
        AtomicKeepsFocus(Apply(Apply(s, steps[0]), steps[1]), steps[2..]);
        RunSplit(s, steps);
      } else {
        FocusLostIff(s, steps[0]);
        StepKeeps(s, steps[0]);
        AtomicKeepsFocus(Apply(s, steps[0]), steps[1..]);
      }
    }
  }

  lemma RunSplit(s: Sys, steps: seq<Step>)
    requires |steps| >= 2
    ensures Run(s, steps) == Run(Apply(Apply(s, steps[0]), steps[1]), steps[2..])
  {
    assert steps[0..] == steps;
    RunOne(s, steps, 0);
    RunOne(Apply(s, steps[0]), steps, 1);
  }

  /** With creates that nothing interleaves with, some workspace is focused whenever one exists. */
  lemma AtomicCreatesKeepFocus(steps: seq<Step>)
    requires Atomic(Boot, steps)
    ensures var d := Run(Boot, steps).d; FocusOk(d) && (d.workspaces != map[] ==> d.focus.ws.Some?)
  {
    RunKeeps(Boot, steps);
    AtomicKeepsFocus(Boot, steps);
  }

  const A: Ticket := NewWorkspace(1, 2, 3, 4, true, "/a", "a", "Shell")
  const B: Ticket := NewWorkspace(5, 6, 7, 8, false, "/b", "b", "Shell")

  const LosingRun: seq<Step> := [BeginWorkspace("/a", "a", false), Finish(A), BeginWorkspace("/b", "b", false),
                                 DoCloseWorkspace(1, 0), Finish(B)]

  lemma TwoCreates() returns (s: Sys)
    ensures s == Apply(Apply(Apply(Boot, LosingRun[0]), LosingRun[1]), LosingRun[2])
    ensures s.tickets == {B} && s.d.workspaces.Keys == {1}
  {
    var s1 := Apply(Boot, LosingRun[0]);
    assert s1 == Sys(Empty.(nextId := 5), {A});
    var s2 := Apply(s1, LosingRun[1]);
    assert s2.tickets == {} && s2.d.workspaces.Keys == {1} && s2.d.nextId == 5 && s2.d.focus.ws == Some(1);
    s := Apply(s2, LosingRun[2]);
    assert s.tickets == {B};
  }

  lemma ThreeGood(a: Step, b: Step, c: Step)
    ensures Good(Apply(Apply(Apply(Boot, a), b), c))
  {
    StepKeeps(Boot, a);
    StepKeeps(Apply(Boot, a), b);
    StepKeeps(Apply(Apply(Boot, a), b), c);
  }

  /** Two creates and a close: the second workspace ends up open with nothing focused. */
  lemma FocusCanBeLost()
    ensures var s := Run(Boot, LosingRun); s.d.workspaces != map[] && s.d.focus.ws.None?
  {
    var s3 := TwoCreates();
    ThreeGood(LosingRun[0], LosingRun[1], LosingRun[2]);
    var s4 := CloseOnly(s3);
    FinishUnfocused(s4);
    RunFive(Boot, LosingRun);
  }

  lemma FinishUnfocused(s: Sys)
    requires s.tickets == {B} && s.d.workspaces == map[] && s.d.focus == NoFocus
    ensures var r := Apply(s, LosingRun[4]).d; r.workspaces != map[] && r.focus.ws.None?
  {
    assert 5 in Insert(s.d, B).workspaces;
  }

  lemma CloseOnly(s: Sys) returns (r: Sys)
    requires Good(s) && s.tickets == {B} && s.d.workspaces.Keys == {1}
    ensures r == Apply(s, LosingRun[3]) && r.tickets == {B} && r.d.workspaces == map[] && r.d.focus == NoFocus
  {
    var d := CloseLast(s.d);
    r := s.(d := d);
  }

  lemma CloseLast(d: Data) returns (r: Data)
    requires Integrity(d) && d.workspaces.Keys == {1}
    ensures PickOk(DropWorkspace(d, 1), 0) && r == CloseWorkspace(d, 1, 0)
    ensures r.workspaces == map[] && r.focus == NoFocus
  {
    DropWorkspaceExact(d, 1);
    assert d.workspaces - {1} == map[];
    r := CloseWorkspace(d, 1, 0);
  }

  lemma RunOne(s: Sys, steps: seq<Step>, k: nat)
    requires k < |steps|
    ensures Run(s, steps[k..]) == Run(Apply(s, steps[k]), steps[k + 1..])
  {
    assert steps[k..][0] == steps[k] && steps[k..][1..] == steps[k + 1..];
  }

  lemma RunFive(s: Sys, steps: seq<Step>)
    requires |steps| == 5
    ensures Run(s, steps) == Apply(Apply(Apply(Apply(Apply(s, steps[0]), steps[1]), steps[2]), steps[3]), steps[4])
  {
    var s1 := Apply(s, steps[0]);
    var s2 := Apply(s1, steps[1]);
    var s3 := Apply(s2, steps[2]);
    var s4 := Apply(s3, steps[3]);
    var s5 := Apply(s4, steps[4]);
    assert steps[0..] == steps && steps[5..] == [];
    RunOne(s, steps, 0);
    RunOne(s1, steps, 1);
    RunOne(s2, steps, 2);
    RunOne(s3, steps, 3);
    RunOne(s4, steps, 4);
  }
}

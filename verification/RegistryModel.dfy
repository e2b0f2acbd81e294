/**
 The workspace / tab / pane / terminal registry.  Ids are the numbers handed out by `next_id`; the
 kind prefix of the printed form is implied by the map an id is looked up in.  The functions below
 are what each mutex section does to the data; `Registry` is the class that does it in place.
 */
module RegistryModel {
  import opened Prelude

  type Id = nat

  datatype Workspace = Workspace(title: string, cwd: string, tabs: seq<Id>)
  datatype Tab = Tab(ws: Id, title: string, panes: seq<Id>)
  datatype Pane = Pane(term: Id, ws: Id, tab: Id, cwd: string)
  datatype Focus = Focus(ws: Option<Id>, tab: Option<Id>, pane: Option<Id>)

  datatype Data = Data(nextId: Id, workspaces: map<Id, Workspace>, tabs: map<Id, Tab>, panes: map<Id, Pane>,
                       terminals: set<Id>, focus: Focus)

  const NoFocus: Focus := Focus(None, None, None)
  const Empty: Data := Data(1, map[], map[], map[], {}, NoFocus)

  function First(s: seq<Id>): Option<Id> { if s == [] then None else Some(s[0]) }

  /** `retain(|id| id != x)`. */
  function Without(s: seq<Id>, x: Id): (r: seq<Id>)
    ensures forall y :: y in r <==> y in s && y != x
    ensures x !in s ==> r == s
  {
    if s == [] then []
    else if s[|s| - 1] == x then Without(s[..|s| - 1], x)
    else Without(s[..|s| - 1], x) + [s[|s| - 1]]
  }

  // ------------------------------------------------------------------ creation

  /** A create between its id allocation and its insertion, while the process is being spawned. */
  datatype Ticket =
    | NewWorkspace(ws: Id, tab: Id, pane: Id, term: Id, takesFocus: bool, cwd: string, title: string, tabTitle: string)
    | BareWorkspace(ws: Id, focus: bool, cwd: string, title: string)
    | NewTab(target: Id, tab: Id, pane: Id, term: Id, focus: bool, cwd: string, tabTitle: string)

  function AddPane(d: Data, ws: Id, tab: Id, pane: Id, term: Id, cwd: string, tabTitle: string): Data {
    d.(tabs := d.tabs[tab := Tab(ws, tabTitle, [pane])],
       panes := d.panes[pane := Pane(term, ws, tab, cwd)],
       terminals := d.terminals + {term})
  }

  /** The insert pass.  A tab whose workspace is gone is refused and changes nothing. */
  function Insert(d: Data, t: Ticket): Data {
    match t
    case NewWorkspace(ws, tab, pane, term, takesFocus, cwd, title, tabTitle) =>
      var d1 := AddPane(d.(workspaces := d.workspaces[ws := Workspace(title, cwd, [tab])]),
                        ws, tab, pane, term, cwd, tabTitle);
      if takesFocus then d1.(focus := Focus(Some(ws), Some(tab), Some(pane))) else d1
    case BareWorkspace(ws, focus, cwd, title) =>
      var d1 := d.(workspaces := d.workspaces[ws := Workspace(title, cwd, [])]);
      if focus || d.focus.ws.None? then d1.(focus := Focus(Some(ws), None, None)) else d1
    case NewTab(target, tab, pane, term, focus, cwd, tabTitle) =>
      if target !in d.workspaces then d
      else
        var w := d.workspaces[target];
        var d1 := AddPane(d.(workspaces := d.workspaces[target := w.(tabs := w.tabs + [tab])]),
                          target, tab, pane, term, cwd, tabTitle);
        if focus || d.focus.ws.None? || d.focus.tab.None? || d.focus.pane.None?
        then d1.(focus := Focus(Some(target), Some(tab), Some(pane))) else d1
  }

  // ------------------------------------------------------------------ closing

  function ClosePaneLocked(d: Data, p: Id): Data {
    if p !in d.panes then d
    else
      var pane := d.panes[p];
      d.(panes := d.panes - {p}, terminals := d.terminals - {pane.term},
         tabs := if pane.tab !in d.tabs then d.tabs
                 else d.tabs[pane.tab := d.tabs[pane.tab].(panes := Without(d.tabs[pane.tab].panes, p))])
  }

  function ClosePanesLocked(d: Data, ps: seq<Id>): Data {
    if ps == [] then d else ClosePaneLocked(ClosePanesLocked(d, ps[..|ps| - 1]), ps[|ps| - 1])
  }

  function CloseTabLocked(d: Data, t: Id): Data {
    if t !in d.tabs then d
    else
      var tab := d.tabs[t];
      var d1 := ClosePanesLocked(d.(tabs := d.tabs - {t}), tab.panes);
      if tab.ws !in d1.workspaces then d1
      else
        var row := d1.workspaces[tab.ws];
        d1.(workspaces := d1.workspaces[tab.ws := row.(tabs := Without(row.tabs, t))])
  }

  function CloseTabsLocked(d: Data, ts: seq<Id>): Data {
    if ts == [] then d else CloseTabLocked(CloseTabsLocked(d, ts[..|ts| - 1]), ts[|ts| - 1])
  }

  /** Dropping one workspace row and everything in it, without focus repair. */
  function DropWorkspace(d: Data, w: Id): Data {
    if w !in d.workspaces then d else CloseTabsLocked(d.(workspaces := d.workspaces - {w}), d.workspaces[w].tabs)
  }

  function DropWorkspaces(d: Data, ws: seq<Id>): Data {
    if ws == [] then d else DropWorkspace(DropWorkspaces(d, ws[..|ws| - 1]), ws[|ws| - 1])
  }

  // ------------------------------------------------------------------ focus repair

  /** Some workspace, as the first value of a hash map is: any one will do. */
  predicate PickOk(d: Data, pick: Id) { d.workspaces == map[] || pick in d.workspaces }

  function KeptTab(d: Data, w: Id): Option<Id>
    requires w in d.workspaces
  {
    if d.focus.tab.Some? && d.focus.tab.value in d.tabs && d.tabs[d.focus.tab.value].ws == w then d.focus.tab
    else First(d.workspaces[w].tabs)
  }

  function KeptPane(d: Data, tab: Option<Id>): Option<Id> {
    if d.focus.pane.Some? && tab.Some? && d.focus.pane.value in d.panes && d.panes[d.focus.pane.value].tab == tab.value
    then d.focus.pane
    else if tab.Some? && tab.value in d.tabs then First(d.tabs[tab.value].panes)
    else None
  }

  function NormalizeFocus(d: Data, pick: Id): Data
    requires PickOk(d, pick)
  {
    if d.workspaces == map[] then d.(focus := NoFocus)
    else
      var w := if d.focus.ws.Some? && d.focus.ws.value in d.workspaces then d.focus.ws.value else pick;
      var tab := KeptTab(d, w);
      d.(focus := Focus(Some(w), tab, KeptPane(d, tab)))
  }

  function CloseWorkspace(d: Data, w: Id, pick: Id): Data
    requires w in d.workspaces && PickOk(DropWorkspace(d, w), pick)
  {
    NormalizeFocus(DropWorkspace(d, w), pick)
  }

  function CloseTab(d: Data, t: Id, pick: Id): Data
    requires t in d.tabs && PickOk(CloseTabLocked(d, t), pick)
  {
    NormalizeFocus(CloseTabLocked(d, t), pick)
  }

  /** The pane, and its tab when that was the last pane. */
  function DropPane(d: Data, p: Id): Data
    requires p in d.panes
  {
    var d1 := ClosePaneLocked(d, p);
    var t := d.panes[p].tab;
    if t !in d1.tabs || d1.tabs[t].panes == [] then CloseTabLocked(d1, t) else d1
  }

  function ClosePane(d: Data, p: Id, pick: Id): Data
    requires p in d.panes && PickOk(DropPane(d, p), pick)
  {
    NormalizeFocus(DropPane(d, p), pick)
  }

  // ------------------------------------------------------------------ promote and open

  /** Path canonicalisation, as the file system answers it during one mutex section. */
  type Canon = string -> string

  predicate Matches(d: Data, canon: Canon, path: string, w: Id) {
    w in d.workspaces && canon(d.workspaces[w].cwd) == path
  }

  /** The guard: the tab's own workspace is already rooted at the live path. */
  predicate AlreadyThere(d: Data, t: Id, canon: Canon, live: string)
    requires t in d.tabs
  {
    (if d.tabs[t].ws in d.workspaces then canon(d.workspaces[d.tabs[t].ws].cwd) else "") == live
  }

  /** The destination: an open workspace at the live path if there is one, else a new one. */
  predicate Destination(d: Data, canon: Canon, live: string, dest: Option<Id>) {
    match dest
    case Some(w) => Matches(d, canon, live, w)
    case None => forall w :: w in d.workspaces ==> canon(d.workspaces[w].cwd) != live
  }

  function Reparent(panes: map<Id, Pane>, moved: seq<Id>, ws: Id, cwd: string): map<Id, Pane> {
    map p | p in panes :: if p in moved then panes[p].(ws := ws, cwd := cwd) else panes[p]
  }

  /** The re-parenting itself, before focus. */
  function MoveTab(d: Data, t: Id, ws: Id, live: string): Data
    requires t in d.tabs
  {
    var tab := d.tabs[t];
    var src := tab.ws;
    var tabs := d.tabs[t := tab.(ws := ws, title := if tab.title == "temp" then "Shell" else tab.title)];
    var w1 := if src !in d.workspaces then d.workspaces
              else d.workspaces[src := d.workspaces[src].(tabs := Without(d.workspaces[src].tabs, t))];
    var w2 := if ws in w1 then w1[ws := w1[ws].(tabs := w1[ws].tabs + [t])] else w1;
    var w3 := if src in w2 && w2[src].tabs == [] then w2 - {src} else w2;
    d.(tabs := tabs, panes := Reparent(d.panes, tab.panes, ws, live), workspaces := w3)
  }

  function Promote(d: Data, t: Id, live: string, liveTitle: string, dest: Option<Id>): Data
    requires t in d.tabs && (dest.Some? ==> dest.value in d.workspaces)
    requires (if dest.Some? then dest.value else d.nextId) != d.tabs[t].ws
  {
    var ws := if dest.Some? then dest.value else d.nextId;
    var d1 := if dest.Some? then d
              else d.(nextId := d.nextId + 1, workspaces := d.workspaces[d.nextId := Workspace(liveTitle, live, [])]);
    var d2 := MoveTab(d1, t, ws, live);
    NormalizeFocus(d2.(focus := Focus(Some(ws), Some(t), First(d.tabs[t].panes))), ws)
  }

  /** `worktree_open` on a checkout that is already open. */
  function OpenExisting(d: Data, w: Id, title: Option<string>): Data
    requires w in d.workspaces
  {
    var ws := if title.Some? then d.workspaces[w].(title := title.value) else d.workspaces[w];
    var tab := First(ws.tabs);
    var pane := if tab.Some? && tab.value in d.tabs then First(d.tabs[tab.value].panes) else None;
    d.(workspaces := d.workspaces[w := ws], focus := Focus(Some(w), tab, pane))
  }

  function RenameWorkspace(d: Data, w: Id, title: string): Data
    requires w in d.workspaces
  {
    d.(workspaces := d.workspaces[w := d.workspaces[w].(title := title)])
  }

  function RenameTab(d: Data, t: Id, title: string): Data
    requires t in d.tabs
  {
    d.(tabs := d.tabs[t := d.tabs[t].(title := title)])
  }

  function RemoveWorktree(d: Data, matching: seq<Id>, pick: Id): Data
    requires PickOk(DropWorkspaces(d, matching), pick)
  {
    NormalizeFocus(DropWorkspaces(d, matching), pick)
  }
}

/** The pane's process tree: worklists over a process table whose parent links may form cycles. */
module ProcessTree {
  import opened Prelude

  type Pid = nat

  datatype ProcessRow = ProcessRow(pid: Pid, ppid: Pid)

  /** Some row names a as the parent of b. */
  predicate Edge(rows: seq<ProcessRow>, a: Pid, b: Pid) { ProcessRow(b, a) in rows }

  predicate Path(rows: seq<ProcessRow>, path: seq<Pid>) {
    path != [] && forall i :: 0 <= i < |path| - 1 ==> Edge(rows, path[i], path[i + 1])
  }

  ghost predicate Connects(rows: seq<ProcessRow>, a: Pid, b: Pid, path: seq<Pid>) {
    Path(rows, path) && path[0] == a && path[|path| - 1] == b
  }

  ghost predicate Reachable(rows: seq<ProcessRow>, a: Pid, b: Pid) { exists path :: Connects(rows, a, b, path) }

  /** The pids in the tree: none without a root, else everything reachable from it. */
  ghost predicate InTree(rows: seq<ProcessRow>, root: Option<Pid>, p: Pid) {
    root.Some? && Reachable(rows, root.value, p)
  }

  lemma ReachSelf(rows: seq<ProcessRow>, a: Pid)
    ensures Reachable(rows, a, a)
  {
    assert Connects(rows, a, a, [a]);
  }

  lemma ReachStep(rows: seq<ProcessRow>, a: Pid, b: Pid, c: Pid)
    requires Reachable(rows, a, b) && Edge(rows, b, c)
    ensures Reachable(rows, a, c)
  {
    var path :| Connects(rows, a, b, path);
    assert Connects(rows, a, c, path + [c]);
  }

  ghost predicate Closed(rows: seq<ProcessRow>, s: set<Pid>) {
    forall a, b :: a in s && Edge(rows, a, b) ==> b in s
  }

  lemma {:induction false} ClosedHoldsPath(rows: seq<ProcessRow>, s: set<Pid>, path: seq<Pid>)
    requires Closed(rows, s) && Path(rows, path) && path[0] in s
    ensures path[|path| - 1] in s
    decreases |path|
  {
    if |path| > 1 {
      assert Edge(rows, path[0], path[1]);
      ClosedHoldsPath(rows, s, path[1..]);
    }
  }

  /** A set that holds the root and is closed under children holds everything reachable. */
  lemma ClosedHoldsReachable(rows: seq<ProcessRow>, root: Pid, s: set<Pid>)
    requires Closed(rows, s) && root in s
    ensures forall p :: Reachable(rows, root, p) ==> p in s
  {
    forall p | Reachable(rows, root, p) ensures p in s {
      var path :| Connects(rows, root, p, path);
      ClosedHoldsPath(rows, s, path);
    }
  }

  // ---------------------------------------------------------------- the children map

  function ChildrenOf(rows: seq<ProcessRow>, a: Pid): (r: seq<Pid>)
    ensures forall b :: b in r <==> Edge(rows, a, b)
  {
    if rows == [] then []
    else
      var row := rows[|rows| - 1];
      assert rows == rows[..|rows| - 1] + [row];
      ChildrenOf(rows[..|rows| - 1], a) + if row.ppid == a then [row.pid] else []
  }

  predicate IsChildrenMap(rows: seq<ProcessRow>, children: map<Pid, seq<Pid>>) {
    && (forall a :: a in children ==> children[a] == ChildrenOf(rows, a))
    && (forall row :: row in rows ==> row.ppid in children)
  }

  method Children(rows: seq<ProcessRow>) returns (children: map<Pid, seq<Pid>>)
    ensures IsChildrenMap(rows, children)
  {
    children := map[];
    for i := 0 to |rows|
      invariant IsChildrenMap(rows[..i], children)
      invariant forall a :: a !in children ==> ChildrenOf(rows[..i], a) == []
    {
      var row := rows[i];
      if row.ppid !in children { children := children[row.ppid := []]; }
      children := children[row.ppid := children[row.ppid] + [row.pid]];
      assert rows[..i + 1][..i] == rows[..i];
    }
    assert rows[..|rows|] == rows;
  }

  function Universe(rows: seq<ProcessRow>, root: Pid): set<Pid> { {root} + set row | row in rows :: row.pid }

  /** The worklist invariant: everything found is reachable, and what is not yet expanded is on the stack. */
  ghost predicate Progress(rows: seq<ProcessRow>, root: Pid, stack: seq<Pid>, seen: set<Pid>) {
    && (forall p :: p in stack || p in seen ==> Reachable(rows, root, p) && p in Universe(rows, root))
    && (root in stack || root in seen)
    && (forall a, b :: a in seen && Edge(rows, a, b) ==> b in stack || b in seen)
  }

  /** One turn of either worklist: pop, and on a first visit push the children. */
  lemma TurnKeeps(rows: seq<ProcessRow>, root: Pid, stack: seq<Pid>, seen: set<Pid>)
    requires Progress(rows, root, stack, seen) && stack != []
    ensures var p := stack[|stack| - 1]; var rest := stack[..|stack| - 1];
      && (p in seen ==> Progress(rows, root, rest, seen))
      && Progress(rows, root, rest + ChildrenOf(rows, p), seen + {p})
      && (p !in seen ==> Universe(rows, root) - (seen + {p}) < Universe(rows, root) - seen)
  {
    var p := stack[|stack| - 1];
    var rest := stack[..|stack| - 1];
    assert stack == rest + [p];
    forall b | Edge(rows, p, b) ensures Reachable(rows, root, b) && b in Universe(rows, root) {
      ReachStep(rows, root, p, b);
      assert ProcessRow(b, p).pid == b;
    }
  }

  lemma ProgressDone(rows: seq<ProcessRow>, root: Pid, seen: set<Pid>)
    requires Progress(rows, root, [], seen)
    ensures forall p :: p in seen <==> Reachable(rows, root, p)
  {
    ClosedHoldsReachable(rows, root, seen);
  }

  /** The whole tree in one walk. */
  method ProcessTree(root: Option<Pid>, rows: seq<ProcessRow>) returns (tree: set<Pid>)
    ensures forall p :: p in tree <==> InTree(rows, root, p)
  {
    tree := {};
    if root.None? { return; }
    var children := Children(rows);
    var stack := [root.value];
    ReachSelf(rows, root.value);
    while stack != []
      invariant Progress(rows, root.value, stack, tree)
      decreases Universe(rows, root.value) - tree, |stack|
    {
      var current := stack[|stack| - 1];
      TurnKeeps(rows, root.value, stack, tree);
      stack := stack[..|stack| - 1];
      if current in tree { continue; }
      tree := tree + {current};
      if current in children { stack := stack + children[current]; }
      else { NoChildren(rows, children, current); assert stack + [] == stack; }
    }
    ProgressDone(rows, root.value, tree);
  }

  lemma NoChildren(rows: seq<ProcessRow>, children: map<Pid, seq<Pid>>, a: Pid)
    requires IsChildrenMap(rows, children) && a !in children
    ensures ChildrenOf(rows, a) == []
  {
    var r := ChildrenOf(rows, a);
    assert r == [] || (r[0] in r && ProcessRow(r[0], a).ppid == a);
  }

  /** The per-pid reference: the same walk, stopping at the pid it looks for. */
  method PidInTree(pid: Pid, root: Option<Pid>, rows: seq<ProcessRow>) returns (found: bool)
    ensures found <==> InTree(rows, root, pid)
  {
    if root.None? { return false; }
    var children := Children(rows);
    var stack := [root.value];
    var seen: set<Pid> := {};
    ReachSelf(rows, root.value);
    while stack != []
      invariant Progress(rows, root.value, stack, seen) && pid !in seen
      decreases Universe(rows, root.value) - seen, |stack|
    {
      var current := stack[|stack| - 1];
      if current == pid { return true; }
      TurnKeeps(rows, root.value, stack, seen);
      stack := stack[..|stack| - 1];
      if current in seen { continue; }
      seen := seen + {current};
      if current in children { stack := stack + children[current]; }
      else { NoChildren(rows, children, current); assert stack + [] == stack; }
    }
    ProgressDone(rows, root.value, seen);
    return false;
  }

  /** The one-pass tree answers every membership question as the reference does. */
  method TreeAgrees(root: Option<Pid>, rows: seq<ProcessRow>, pid: Pid) returns (tree: set<Pid>, found: bool)
    ensures found <==> pid in tree
    ensures root.None? ==> tree == {}
    ensures root.Some? ==> root.value in tree && Closed(rows, tree)
  {
    tree := ProcessTree(root, rows);
    found := PidInTree(pid, root, rows);
    if root.Some? {
      ReachSelf(rows, root.value);
      forall a, b | a in tree && Edge(rows, a, b) ensures b in tree { ReachStep(rows, root.value, a, b); }
    }
  }
}

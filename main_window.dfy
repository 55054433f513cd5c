/**
 * The main window's experiment menu: a tree of checkable items built from a
 * recursive walk of the stats directory, and the load / unload dispatch when
 * a leaf is checked or unchecked.
 */
module Window {
  import opened Wrappers
  import opened Paths

  // ---------------------------------------------------------------------
  // The walk.

  /** One step of the recursive directory walk: depth below the stats directory, filename, kind. */
  datatype Entry = Entry(depth: nat, name: string, isDir: bool)

  /** A tree item: its text, its parent (none at the top level) and its check state. */
  datatype Item = Item(text: string, parent: Option<nat>, checked: bool)

  /** `prev_depth` after the first `k` entries: the depth of the last directory, -1 before any. */
  function LastDepth(entries: seq<Entry>, k: nat): int
    requires k <= |entries|
  {
    if k == 0 then -1
    else if entries[k - 1].isDir then entries[k - 1].depth
    else LastDepth(entries, k - 1)
  }

  /** How many directories the first `k` entries hold. */
  function Dirs(entries: seq<Entry>, k: nat): nat
    requires k <= |entries|
  {
    if k == 0 then 0
    else Dirs(entries, k - 1) + (if entries[k - 1].isDir then 1 else 0)
  }

  /**
   * The order a recursive directory iterator visits directories in: each
   * directory is at most one level below the directory visited before it
   * (so the first one is at depth 0).
   */
  predicate PreOrder(entries: seq<Entry>)
  {
    forall k :: 0 <= k < |entries| && entries[k].isDir ==> entries[k].depth <= LastDepth(entries, k) + 1
  }

  /** Among the directories of the first `k` entries, the number of the last one at depth `d`. */
  function Recent(entries: seq<Entry>, k: nat, d: nat): Option<nat>
    requires k <= |entries|
  {
    if k == 0 then None
    else if entries[k - 1].isDir && entries[k - 1].depth == d then Some(Dirs(entries, k - 1))
    else Recent(entries, k - 1, d)
  }

  /**
   * The parent of the directory `entries[k]` when items are numbered from
   * `base`: none at depth 0, else the most recent directory one level up.
   */
  function ParentOf(base: nat, entries: seq<Entry>, k: nat): Option<nat>
    requires k < |entries|
  {
    if entries[k].depth == 0 then None
    else match Recent(entries, k, entries[k].depth - 1)
      case None => None
      case Some(j) => Some(base + j)
  }

  /** The items the first `k` entries add, numbered from `base`: one unchecked item per directory. */
  function Tree(base: nat, entries: seq<Entry>, k: nat): seq<Item>
    requires k <= |entries|
  {
    if k == 0 then []
    else Tree(base, entries, k - 1)
         + (if entries[k - 1].isDir then [Item(entries[k - 1].name, ParentOf(base, entries, k - 1), false)] else [])
  }

  /**
   * `items` after the first `k` entries: one item per level down to
   * `prev_depth`, the one at level `l` being the most recent directory at
   * depth `l`.
   */
  predicate Stacked(base: nat, entries: seq<Entry>, k: nat, stack: seq<nat>)
    requires k <= |entries|
  {
    && |stack| == LastDepth(entries, k) + 1
    && forall l :: 0 <= l < |stack| ==> Holds(base, entries, k, stack, l)
  }

  /** Level `l` of the stack holds the most recent directory at depth `l`. */
  predicate Holds(base: nat, entries: seq<Entry>, k: nat, stack: seq<nat>, l: nat)
    requires k <= |entries| && l < |stack|
  {
    Recent(entries, k, l).Some? && stack[l] == base + Recent(entries, k, l).value
  }

  /** Parents come before their children. */
  predicate Forest(items: seq<Item>)
  {
    forall i :: 0 <= i < |items| && items[i].parent.Some? ==> items[i].parent.value < i
  }

  /** One entry per directory: the tree is as long as the walk has directories. */
  lemma {:induction false} TreeSize(base: nat, entries: seq<Entry>, k: nat)
    requires k <= |entries|
    ensures |Tree(base, entries, k)| == Dirs(entries, k)
    decreases k
  {
    if k > 0 {
      TreeSize(base, entries, k - 1);
    }
  }

  /**
   * The most recent directory at depth `d` is one that is at depth `d`, and
   * no later directory is; without one, no directory is at depth `d`.
   */
  lemma {:induction false} RecentSpec(entries: seq<Entry>, k: nat, d: nat)
    requires k <= |entries|
    ensures Recent(entries, k, d).Some? ==>
      exists j :: 0 <= j < k && entries[j].isDir && entries[j].depth == d && Dirs(entries, j) == Recent(entries, k, d).value
        && forall m :: j < m < k ==> !(entries[m].isDir && entries[m].depth == d)
    ensures Recent(entries, k, d).None? ==> forall m :: 0 <= m < k ==> !(entries[m].isDir && entries[m].depth == d)
    decreases k
  {
    if k > 0 {
      RecentSpec(entries, k - 1, d);
      if entries[k - 1].isDir && entries[k - 1].depth == d {
        assert 0 <= k - 1 < k && entries[k - 1].isDir && entries[k - 1].depth == d
          && Dirs(entries, k - 1) == Recent(entries, k, d).value;
      }
    }
  }

  /** The most recent directory is numbered below the directories seen so far. */
  lemma {:induction false} RecentBelow(entries: seq<Entry>, k: nat, d: nat)
    requires k <= |entries| && Recent(entries, k, d).Some?
    ensures Recent(entries, k, d).value < Dirs(entries, k)
    decreases k
  {
    if !(entries[k - 1].isDir && entries[k - 1].depth == d) {
      RecentBelow(entries, k - 1, d);
    }
  }

  /** The tree of a walk is a forest: every parent is numbered before its child. */
  lemma {:induction false} TreeForest(base: nat, entries: seq<Entry>, k: nat, before: seq<Item>)
    requires k <= |entries| && |before| == base && Forest(before)
    ensures Forest(before + Tree(base, entries, k))
    decreases k
  {
    if k > 0 {
      TreeForest(base, entries, k - 1, before);
      TreeSize(base, entries, k - 1);
      var e := entries[k - 1];
      if e.isDir && e.depth > 0 && Recent(entries, k - 1, e.depth - 1).Some? {
        RecentBelow(entries, k - 1, e.depth - 1);
      }
      var t := before + Tree(base, entries, k - 1);
      assert before + Tree(base, entries, k) == t + (if e.isDir then [Item(e.name, ParentOf(base, entries, k - 1), false)] else []);
    }
  }

  /** In walk order, every level down to `prev_depth` has had a directory. */
  lemma {:induction false} RecentUpTo(entries: seq<Entry>, k: nat, l: nat)
    requires PreOrder(entries) && k <= |entries| && l <= LastDepth(entries, k)
    ensures Recent(entries, k, l).Some?
    decreases k
  {
    var e := entries[k - 1];
    if !(e.isDir && e.depth == l) {
      assert l <= LastDepth(entries, k - 1);
      RecentUpTo(entries, k - 1, l);
    }
  }

  /** In walk order, a directory's item is top-level exactly when the directory is at depth 0. */
  lemma TopLevel(base: nat, entries: seq<Entry>, k: nat)
    requires PreOrder(entries) && k < |entries| && entries[k].isDir
    ensures ParentOf(base, entries, k).None? <==> entries[k].depth == 0
  {
    if entries[k].depth > 0 {
      RecentUpTo(entries, k, entries[k].depth - 1);
    }
  }

  // ---------------------------------------------------------------------
  // Paths of items.

  /** The ancestors of item `i`, nearest first. */
  function Up(items: seq<Item>, i: nat): seq<nat>
    requires Forest(items) && i < |items|
    decreases i
  {
    match items[i].parent
      case None => []
      case Some(p) => [p] + Up(items, p)
  }

  /**
   * The path of item `i`: the stats directory, then the texts of its
   * ancestors from the top level down, then its own text.
   */
  function FullPath(dir: Path, items: seq<Item>, i: nat): Path
    requires Forest(items) && i < |items|
    decreases i, 1
  {
    Join(Above(dir, items, i), items[i].text)
  }

  /** The path of item `i`'s parent, or the stats directory for a top-level item. */
  function Above(dir: Path, items: seq<Item>, i: nat): Path
    requires Forest(items) && i < |items|
    decreases i, 0
  {
    match items[i].parent
      case None => dir
      case Some(p) => FullPath(dir, items, p)
  }

  /** Each ancestor's parent is the next one, and the last one is top-level. */
  lemma {:induction false} UpLinks(items: seq<Item>, i: nat)
    requires Forest(items) && i < |items|
    ensures var up := Up(items, i);
      && (forall t :: 0 <= t < |up| ==> up[t] < |items|)
      && (|up| == 0 <==> items[i].parent.None?)
      && (|up| > 0 ==> items[i].parent == Some(up[0]) && items[up[|up| - 1]].parent.None?)
      && (forall t :: 0 <= t < |up| - 1 ==> items[up[t]].parent == Some(up[t + 1]))
    decreases i
  {
    match items[i].parent
      case None =>
      case Some(p) =>
        UpLinks(items, p);
  }

  /** A text usable as one path component: non-empty, without a separator. */
  predicate Component(s: string)
  {
    s != [] && forall k :: 0 <= k < |s| ==> s[k] != '/'
  }

  /** A directory to join components onto: non-empty, not ending with a separator. */
  predicate Base(p: Path)
  {
    p != [] && p[|p| - 1] != '/'
  }

  /**
   * When the stats directory and every item text are plain, an item's path
   * splits back into its own text and its parent's path.
   */
  lemma {:induction false} PathParts(dir: Path, items: seq<Item>, i: nat)
    requires Forest(items) && i < |items| && Base(dir)
    requires forall j :: 0 <= j < |items| ==> Component(items[j].text)
    ensures Base(FullPath(dir, items, i))
    ensures Filename(FullPath(dir, items, i)) == items[i].text
    ensures Parent(FullPath(dir, items, i)) == Above(dir, items, i)
    decreases i
  {
    match items[i].parent {
      case None =>
      case Some(p) =>
        PathParts(dir, items, p);
    }
    assert Component(items[i].text);
    var a := Above(dir, items, i);
    JoinSplit(a, items[i].text);
    assert FullPath(dir, items, i) == a + "/" + items[i].text;
  }

  // ---------------------------------------------------------------------
  // The dispatch.

  /** The three displays a leaf is loaded into, in call order. */
  datatype Tab = Recv | Medooze | Qlog

  /** A call `on_exp_changed` makes on a display. */
  datatype Call = Load(tab: Tab, path: Path) | Unload(tab: Tab, path: Path)

  /** Whether item `i` has children (`childCount() > 0`). */
  predicate HasChildren(items: seq<Item>, i: nat)
  {
    exists j :: 0 <= j < |items| && items[j].parent == Some(i)
  }

  /** The display calls `on_exp_changed` made, and the display whose `load` threw, if one did. */
  datatype Dispatched = Dispatched(calls: seq<Call>, thrown: Option<Tab>)

  /** The three `load` calls for a checked leaf, in call order. */
  function Loads(path: Path): seq<Call>
  {
    [Load(Recv, path), Load(Medooze, path), Load(Qlog, path)]
  }

  /**
   * The calls for a leaf: `unload` on the three displays if unchecked, and
   * `load` on them if checked. `failing` holds the displays whose `load`
   * throws for this path (the relay display does when the experiment has no
   * relay log); nothing catches the exception, so the first such `load` is
   * the last call made and the exception leaves the slot.
   */
  function Dispatch(checked: bool, path: Path, failing: set<Tab>): (r: Dispatched)
    ensures forall c :: c in r.calls ==> c.path == path && (c.Load? <==> checked)
    ensures !checked ==> r.thrown.None? && |r.calls| == 3
    ensures !checked ==> r.calls[0].tab == Recv && r.calls[1].tab == Medooze && r.calls[2].tab == Qlog
    ensures checked ==> 0 < |r.calls| <= 3 && r.calls == Loads(path)[..|r.calls|]
    ensures checked ==> (r.thrown.None? <==> failing == {})
    ensures r.thrown.None? ==> |r.calls| == 3
    ensures r.thrown.Some? ==> r.thrown.value in failing && r.calls[|r.calls| - 1] == Load(r.thrown.value, path)
    ensures checked ==> forall k :: 0 <= k < |r.calls| - 1 ==> r.calls[k].tab !in failing
  {
    if !checked then Dispatched([Unload(Recv, path), Unload(Medooze, path), Unload(Qlog, path)], None)
    else if Recv in failing then Dispatched([Load(Recv, path)], Some(Recv))
    else if Medooze in failing then Dispatched([Load(Recv, path), Load(Medooze, path)], Some(Medooze))
    else if Qlog in failing then Dispatched(Loads(path), Some(Qlog))
    else
      NoTab(failing);
      Dispatched(Loads(path), None)
  }

  /** A set of displays holding none of the three is empty. */
  lemma NoTab(tabs: set<Tab>)
    requires Recv !in tabs && Medooze !in tabs && Qlog !in tabs
    ensures tabs == {}
  {
    forall t | t in tabs ensures false {
      match t
      case Recv =>
      case Medooze =>
      case Qlog =>
    }
  }

  /** A throwing `load` stops the dispatch: no display after it is loaded. */
  lemma ThrowStops(path: Path, failing: set<Tab>, k: nat, j: nat)
    requires k < j < 3 && Loads(path)[k].tab in failing
    ensures Loads(path)[j] !in Dispatch(true, path, failing).calls
  {
  }

  /**
   * The pops before a directory at depth `d` is pushed, when the stack holds
   * one item per level down to `prevDepth`: one at the same depth,
   * `prevDepth - d + 1` when going up, none when going down.
   */
  method Pop(stack: seq<nat>, d: nat, prevDepth: int) returns (s: seq<nat>)
    requires |stack| == prevDepth + 1 && d <= prevDepth + 1
    ensures s == stack[..d]
    ensures |stack| - |s| == if d == prevDepth then 1 else if prevDepth != -1 && d < prevDepth then prevDepth - d + 1 else 0
  {
    s := stack;
    if d == prevDepth {
      s := s[..|s| - 1];
    } else if prevDepth != -1 && d < prevDepth {
      var i := d;
      while i <= prevDepth
        invariant d <= i <= prevDepth + 1
        invariant s == stack[..|stack| - (i - d)]
      {
        s := s[..|s| - 1];
        i := i + 1;
      }
    }
  }

  /** Stepping over a directory keeps the stack invariant, the new item on top. */
  lemma StackDir(base: nat, entries: seq<Entry>, k: nat, stack: seq<nat>)
    requires k < |entries| && entries[k].isDir && entries[k].depth <= LastDepth(entries, k) + 1
    requires Stacked(base, entries, k, stack)
    ensures Stacked(base, entries, k + 1, stack[..entries[k].depth] + [base + Dirs(entries, k)])
    ensures entries[k].depth > 0 ==> ParentOf(base, entries, k) == Some(stack[entries[k].depth - 1])
  {
    var d := entries[k].depth;
    var s := stack[..d] + [base + Dirs(entries, k)];
    var next := k + 1;
    forall l | 0 <= l < |s|
      ensures Holds(base, entries, next, s, l)
    {
      if l < d {
        assert s[l] == stack[l];
        assert Holds(base, entries, k, stack, l);
        assert Recent(entries, k + 1, l) == Recent(entries, k, l);
      } else {
        assert Recent(entries, k + 1, l) == Some(Dirs(entries, k));
      }
    }
    assert LastDepth(entries, k + 1) == d;
    assert |s| == LastDepth(entries, k + 1) + 1;
    if d > 0 {
      assert Holds(base, entries, k, stack, d - 1);
      assert ParentOf(base, entries, k) == Some(base + Recent(entries, k, d - 1).value);
    }
  }

  /** Stepping over a file changes nothing the stack invariant speaks of. */
  lemma StackFile(base: nat, entries: seq<Entry>, k: nat, stack: seq<nat>)
    requires k < |entries| && !entries[k].isDir
    requires Stacked(base, entries, k, stack)
    ensures Stacked(base, entries, k + 1, stack)
  {
    assert LastDepth(entries, k + 1) == LastDepth(entries, k);
    var next := k + 1;
    forall l | 0 <= l < |stack|
      ensures Holds(base, entries, next, stack, l)
    {
      assert Holds(base, entries, k, stack, l);
      assert Recent(entries, k + 1, l) == Recent(entries, k, l);
    }
    assert |stack| == LastDepth(entries, k + 1) + 1;
  }

  class MainWindow {
    /** `_stats_dir`. */
    var statsDir: Path
    /** The experiment menu's items. */
    var items: seq<Item>

    predicate Valid()
      reads this
    {
      Forest(items)
    }

    constructor()
      ensures Valid() && statsDir == "" && items == []
    {
      statsDir := "";
      items := [];
    }

    /** `set_stats_dir`. */
    method SetStatsDir(dir: Path)
      modifies this
      ensures statsDir == dir && items == old(items)
    {
      statsDir := dir;
    }

    /** One entry of the walk in `load`. */
    method Visit(entries: seq<Entry>, k: nat, stack: seq<nat>, prevDepth: int, ghost base: nat)
      returns (stack': seq<nat>, prevDepth': int)
      requires k < |entries| && PreOrder(entries)
      requires prevDepth == LastDepth(entries, k) && Stacked(base, entries, k, stack)
      requires |items| == base + Dirs(entries, k)
      modifies this
      ensures statsDir == old(statsDir)
      ensures items == old(items) + (if entries[k].isDir then [Item(entries[k].name, ParentOf(base, entries, k), false)] else [])
      ensures prevDepth' == LastDepth(entries, k + 1) && Stacked(base, entries, k + 1, stack')
      ensures !entries[k].isDir ==> stack' == stack && prevDepth' == prevDepth
    {
      var e := entries[k];
      if !e.isDir {
        StackFile(base, entries, k, stack);
        return stack, prevDepth;
      }
      StackDir(base, entries, k, stack);
      stack' := Pop(stack, e.depth, prevDepth);
      var parent := if e.depth == 0 then None else Some(stack'[|stack'| - 1]);
      items := items + [Item(e.name, parent, false)];
      stack' := stack' + [|items| - 1];
      prevDepth' := e.depth;
    }

    /**
     * `load`: every directory of the walk gets an unchecked item, at the top
     * level at depth 0 and under the most recent directory one level up
     * otherwise; files are skipped.
     */
    method Load(entries: seq<Entry>)
      requires Valid() && PreOrder(entries)
      modifies this
      ensures Valid() && statsDir == old(statsDir)
      ensures items == old(items) + Tree(|old(items)|, entries, |entries|)
    {
      ghost var base := |items|;
      var stack: seq<nat> := [];
      var prevDepth := -1;
      for k := 0 to |entries|
        invariant statsDir == old(statsDir)
        invariant items == old(items) + Tree(base, entries, k)
        invariant prevDepth == LastDepth(entries, k) && Stacked(base, entries, k, stack)
      {
        TreeSize(base, entries, k);
        stack, prevDepth := Visit(entries, k, stack, prevDepth, base);
      }
      TreeForest(base, entries, |entries|, old(items));
    }

    /**
     * `on_exp_changed`: nothing for an item with children; for a leaf, its
     * path is rebuilt through a stack of its ancestors and the three
     * displays are told to load it if checked and to unload it otherwise.
     */
    method OnExpChanged(item: nat, failing: set<Tab>) returns (r: Dispatched)
      requires Valid() && item < |items|
      ensures r == if HasChildren(items, item) then Dispatched([], None)
                   else Dispatch(items[item].checked, FullPath(statsDir, items, item), failing)
    {
      if exists j :: 0 <= j < |items| && items[j].parent == Some(item) {
        return Dispatched([], None);
      }
      var stack := Ancestors(item);
      var path := statsDir;
      UpLinks(items, item);
      while |stack| > 0
        invariant stack == Up(items, item)[..|stack|]
        invariant path == Above(statsDir, items, if |stack| == 0 then item else stack[|stack| - 1])
      {
        var top := stack[|stack| - 1];
        stack := stack[..|stack| - 1];
        path := Join(path, items[top].text);
      }
      path := Join(path, items[item].text);
      r := Dispatch(items[item].checked, path, failing);
    }

    /** The first loop of `on_exp_changed`: parents pushed from the nearest up. */
    method Ancestors(item: nat) returns (stack: seq<nat>)
      requires Valid() && item < |items|
      ensures stack == Up(items, item)
    {
      var curr: nat := item;
      stack := [];
      while items[curr].parent.Some?
        invariant curr < |items|
        invariant stack + Up(items, curr) == Up(items, item)
        decreases curr
      {
        var next := items[curr].parent.value;
        assert stack + [next] + Up(items, next) == stack + Up(items, curr);
        curr := next;
        stack := stack + [curr];
      }
    }
  }
}

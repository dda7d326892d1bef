/** The include-graph gate of tools/check_include_graph.py: every simple cycle is listed exactly once, so the list is
    empty exactly when the graph is acyclic, and the verdict is 0 exactly for a declared, acyclic graph. */
module IncludeGraph {
  import opened Ordering

  type Edges = set<(string, string)>

  function Succ(edges: Edges, n: string): (r: set<string>)
    ensures forall x :: x in r <==> (n, x) in edges
  {
    set e | e in edges && e.0 == n :: e.1
  }

  function Sources(edges: Edges): set<string> {
    set e | e in edges :: e.0
  }

  function Targets(edges: Edges): set<string> {
    set e | e in edges :: e.1
  }

  lemma EdgeEnds(edges: Edges, todo: seq<string>, n: string)
    requires forall x :: x in todo ==> (n, x) in edges
    ensures forall x :: x in todo ==> x in Targets(edges)
    ensures todo != [] ==> n in Sources(edges)
  {
    forall x | x in todo ensures x in Targets(edges) {
      assert (n, x).1 in Targets(edges);
    }
    if todo != [] {
      assert (n, todo[0]).0 in Sources(edges);
    }
  }

  // ---- the search, as a function --------------------------------------------------------------------------

  /** What the recursive walk appends: one closed path per way of returning to `start` through fresh larger nodes. */
  function WalkPaths(edges: Edges, start: string, node: string, path: seq<string>, on: set<string>): seq<seq<string>>
    decreases |Targets(edges) - on|, 1, 0
  {
    var todo := Sorted(Succ(edges, node));
    EdgeEnds(edges, todo, node);
    WalkOver(edges, start, path, on, todo)
  }

  function WalkOver(edges: Edges, start: string, path: seq<string>, on: set<string>,
                    todo: seq<string>): seq<seq<string>>
    requires forall x :: x in todo ==> x in Targets(edges)
    decreases |Targets(edges) - on|, 0, |todo|
  {
    if todo == [] then []
    else Branch(edges, start, path, on, todo[0]) + WalkOver(edges, start, path, on, todo[1..])
  }

  function Branch(edges: Edges, start: string, path: seq<string>, on: set<string>, next: string): seq<seq<string>>
    requires next in Targets(edges)
    decreases |Targets(edges) - on|, 0, 0
  {
    if next == start then [path + [start]]
    else if next !in on && Less(start, next) then
      Shrinks(edges, on, next);
      WalkPaths(edges, start, next, path + [next], on + {next})
    else []
  }

  lemma Shrinks(edges: Edges, on: set<string>, next: string)
    requires next in Targets(edges) && next !in on
    ensures |Targets(edges) - (on + {next})| < |Targets(edges) - on|
  {
    assert Targets(edges) - on == (Targets(edges) - (on + {next})) + {next};
  }

  /** The walks from every source, in ascending order of source. */
  function WalksFrom(edges: Edges, starts: seq<string>): seq<seq<string>> {
    if starts == [] then []
    else WalkPaths(edges, starts[0], starts[0], [starts[0]], {starts[0]}) + WalksFrom(edges, starts[1..])
  }

  function Cycles(edges: Edges): seq<seq<string>> {
    WalksFrom(edges, Sorted(Sources(edges)))
  }

  // ---- what a cycle is ------------------------------------------------------------------------------------

  ghost predicate NoRepeats<T>(s: seq<T>) {
    forall i, j :: 0 <= i < j < |s| ==> s[i] != s[j]
  }

  /** Consecutive nodes are joined by edges. */
  ghost predicate IsPath(edges: Edges, p: seq<string>) {
    forall i :: 0 <= i < |p| - 1 ==> (p[i], p[i + 1]) in edges
  }

  /** A simple cycle: distinct nodes, each joined to the next and the last to the first. */
  ghost predicate IsSimpleCycle(edges: Edges, p: seq<string>) {
    p != [] && NoRepeats(p) && IsPath(edges, p + [p[0]])
  }

  /** A closed walk of positive length: what an acyclic graph has none of. */
  ghost predicate IsClosedWalk(edges: Edges, w: seq<string>) {
    |w| >= 2 && w[0] == w[|w| - 1] && IsPath(edges, w)
  }

  ghost predicate Acyclic(edges: Edges) {
    forall w: seq<string> :: !IsClosedWalk(edges, w)
  }

  ghost predicate StartsLeast(p: seq<string>) {
    p != [] && forall i :: 0 < i < |p| ==> Less(p[0], p[i])
  }

  function Rotated(p: seq<string>, k: nat): seq<string>
    requires k <= |p|
  {
    p[k..] + p[..k]
  }

  // ---- one walk: sound, complete, without repeats ---------------------------------------------------------

  /** `ext` leads from `node` back to `start` through distinct nodes outside `on`, all larger than `start`. */
  ghost predicate Returns(edges: Edges, start: string, node: string, on: set<string>, ext: seq<string>) {
    && NoRepeats(ext)
    && (forall i :: 0 <= i < |ext| ==> ext[i] !in on && ext[i] != start && Less(start, ext[i]))
    && IsPath(edges, [node] + ext + [start])
  }

  lemma ReturnsStep(edges: Edges, start: string, node: string, on: set<string>, ext: seq<string>)
    requires ext != []
    ensures Returns(edges, start, node, on, ext) <==>
            && (node, ext[0]) in edges && ext[0] !in on && ext[0] != start && Less(start, ext[0])
            && Returns(edges, start, ext[0], on + {ext[0]}, ext[1..])
  {
    var p := [node] + ext + [start];
    var q := [ext[0]] + ext[1..] + [start];
    assert p == [node] + q;
    assert q == p[1..];
    if Returns(edges, start, node, on, ext) {
      assert (p[0], p[1]) in edges;
      forall i | 0 <= i < |q| - 1 ensures (q[i], q[i + 1]) in edges {
        assert (p[i + 1], p[i + 2]) in edges;
      }
    }
    if (node, ext[0]) in edges && ext[0] !in on && ext[0] != start && Less(start, ext[0])
       && Returns(edges, start, ext[0], on + {ext[0]}, ext[1..]) {
      forall i | 0 <= i < |p| - 1 ensures (p[i], p[i + 1]) in edges {
        if i > 0 {
          assert (q[i - 1], q[i]) in edges;
        }
      }
      forall i | 0 <= i < |ext| ensures ext[i] !in on && ext[i] != start && Less(start, ext[i]) {
        if i > 0 {
          assert ext[1..][i - 1] == ext[i];
        }
      }
      forall i, j | 0 <= i < j < |ext| ensures ext[i] != ext[j] {
        assert ext[1..][j - 1] == ext[j];
        if i > 0 {
          assert ext[1..][i - 1] == ext[i];
        }
      }
    }
  }

  /** Every listed path is `path`, a return, and `start`. */
  lemma {:induction false} WalkSound(edges: Edges, start: string, node: string, path: seq<string>, on: set<string>,
                                     c: seq<string>)
    requires c in WalkPaths(edges, start, node, path, on)
    ensures |c| > |path| && Returns(edges, start, node, on, c[|path|..|c| - 1])
    ensures c == path + c[|path|..|c| - 1] + [start]
    decreases |Targets(edges) - on|, 1, 0
  {
    WalkOverSound(edges, start, node, path, on, Sorted(Succ(edges, node)), c);
  }

  lemma {:induction false} WalkOverSound(edges: Edges, start: string, node: string, path: seq<string>,
                                         on: set<string>, todo: seq<string>, c: seq<string>)
    requires forall x :: x in todo ==> (node, x) in edges
    requires c in WalkOver(edges, start, path, on, todo)
    ensures |c| > |path| && Returns(edges, start, node, on, c[|path|..|c| - 1])
    ensures c == path + c[|path|..|c| - 1] + [start]
    ensures c[|path|] in todo
    decreases |Targets(edges) - on|, 0, |todo|
  {
    var next := todo[0];
    assert (node, next) in edges;
    if c in Branch(edges, start, path, on, next) {
      if next == start {
        assert c == path + [start];
        assert [node] + [] + [start] == [node, start];
        assert c[|path|..|c| - 1] == [];
      } else {
        Shrinks(edges, on, next);
        WalkSound(edges, start, next, path + [next], on + {next}, c);
        var ext := c[|path|..|c| - 1];
        assert c[|path|] == next;
        assert ext[1..] == c[|path| + 1..|c| - 1];
        ReturnsStep(edges, start, node, on, ext);
        assert c == path + ext + [start];
      }
    } else {
      assert forall x :: x in todo[1..] ==> x in todo;
      WalkOverSound(edges, start, node, path, on, todo[1..], c);
    }
  }

  /** Every return is listed. */
  lemma {:induction false} WalkComplete(edges: Edges, start: string, node: string, path: seq<string>, on: set<string>,
                                        ext: seq<string>)
    requires Returns(edges, start, node, on, ext)
    ensures path + ext + [start] in WalkPaths(edges, start, node, path, on)
    decreases |ext|
  {
    var next := if ext == [] then start else ext[0];
    if ext == [] {
      var p := [node] + ext + [start];
      assert (p[0], p[1]) in edges;
      assert path + ext + [start] == path + [start];
    } else {
      ReturnsStep(edges, start, node, on, ext);
      assert next in Targets(edges);
      Shrinks(edges, on, next);
      WalkComplete(edges, start, next, path + [next], on + {next}, ext[1..]);
      assert path + [next] + ext[1..] + [start] == path + ext + [start];
    }
    assert (node, next) in edges;
    BranchInWalkOver(edges, start, path, on, Sorted(Succ(edges, node)), next, path + ext + [start]);
  }

  lemma {:induction false} BranchInWalkOver(edges: Edges, start: string, path: seq<string>, on: set<string>,
                                            todo: seq<string>, next: string, c: seq<string>)
    requires forall x :: x in todo ==> x in Targets(edges)
    requires next in todo && c in Branch(edges, start, path, on, next)
    ensures c in WalkOver(edges, start, path, on, todo)
    decreases |todo|
  {
    if next != todo[0] {
      BranchInWalkOver(edges, start, path, on, todo[1..], next, c);
    }
  }

  lemma {:induction false} WalkNoRepeats(edges: Edges, start: string, node: string, path: seq<string>, on: set<string>)
    ensures NoRepeats(WalkPaths(edges, start, node, path, on))
    decreases |Targets(edges) - on|, 1, 0
  {
    var todo := Sorted(Succ(edges, node));
    AscendingNoRepeats(todo);
    WalkOverNoRepeats(edges, start, node, path, on, todo);
  }

  lemma AscendingNoRepeats(s: seq<string>)
    requires Ascending(s)
    ensures NoRepeats(s)
  {
    forall i, j | 0 <= i < j < |s| ensures s[i] != s[j] {
      LessIrreflexive(s[i]);
    }
  }

  lemma {:induction false} WalkOverNoRepeats(edges: Edges, start: string, node: string, path: seq<string>,
                                             on: set<string>, todo: seq<string>)
    requires NoRepeats(todo)
    requires forall x :: x in todo ==> (node, x) in edges
    ensures NoRepeats(WalkOver(edges, start, path, on, todo))
    decreases |Targets(edges) - on|, 0, |todo|
  {
    if todo != [] {
      var next := todo[0];
      assert (node, next) in edges;
      assert forall x :: x in todo[1..] ==> x in todo;
      var a, b := Branch(edges, start, path, on, next), WalkOver(edges, start, path, on, todo[1..]);
      if next != start && next !in on && Less(start, next) {
        Shrinks(edges, on, next);
        WalkNoRepeats(edges, start, next, path + [next], on + {next});
      }
      assert forall x :: x in todo[1..] ==> x in todo;
      WalkOverNoRepeats(edges, start, node, path, on, todo[1..]);
      forall c | c in a && c in b ensures false {
        BranchHead(edges, start, path, on, next, c);
        WalkOverSound(edges, start, node, path, on, todo[1..], c);
      }
      ConcatNoRepeats(a, b);
    }
  }

  lemma BranchHead(edges: Edges, start: string, path: seq<string>, on: set<string>, next: string, c: seq<string>)
    requires next in Targets(edges) && c in Branch(edges, start, path, on, next)
    ensures |c| > |path| && c[|path|] == next
  {
    if next != start {
      WalkSound(edges, start, next, path + [next], on + {next}, c);
      assert (path + [next])[|path|] == next;
    }
  }

  lemma ConcatNoRepeats<T>(a: seq<T>, b: seq<T>)
    requires NoRepeats(a) && NoRepeats(b) && forall c :: !(c in a && c in b)
    ensures NoRepeats(a + b)
  {
    forall i, j | 0 <= i < j < |a + b| ensures (a + b)[i] != (a + b)[j] {
      if i < |a| <= j {
        assert (a + b)[i] in a && (a + b)[j] in b;
      }
    }
  }

  // ---- the whole list -------------------------------------------------------------------------------------

  ghost predicate IsReport(edges: Edges, c: seq<string>) {
    |c| >= 2 && IsSimpleCycle(edges, c[..|c| - 1]) && StartsLeast(c[..|c| - 1]) && c == c[..|c| - 1] + [c[0]]
  }

  lemma WalkReports(edges: Edges, n: string, c: seq<string>)
    requires c in WalkPaths(edges, n, n, [n], {n})
    ensures IsReport(edges, c) && c[0] == n
  {
    WalkSound(edges, n, n, [n], {n}, c);
    var ext := c[1..|c| - 1];
    var p := c[..|c| - 1];
    assert c == [n] + ext + [n];
    assert p == [n] + ext;
    assert p + [p[0]] == c;
    forall i, j | 0 <= i < j < |p| ensures p[i] != p[j] {
      assert p[j] == ext[j - 1];
      if i > 0 {
        assert p[i] == ext[i - 1];
      }
    }
  }

  lemma {:induction false} WalksFromSound(edges: Edges, starts: seq<string>, c: seq<string>)
    requires c in WalksFrom(edges, starts)
    ensures IsReport(edges, c) && c[0] in starts
  {
    if c in WalkPaths(edges, starts[0], starts[0], [starts[0]], {starts[0]}) {
      WalkReports(edges, starts[0], c);
    } else {
      WalksFromSound(edges, starts[1..], c);
    }
  }

  lemma {:induction false} WalksFromComplete(edges: Edges, starts: seq<string>, p: seq<string>)
    requires IsSimpleCycle(edges, p) && StartsLeast(p) && p[0] in starts
    ensures p + [p[0]] in WalksFrom(edges, starts)
  {
    var n := p[0];
    if starts[0] == n {
      var ext := p[1..];
      assert [n] + ext + [n] == p + [p[0]];
      WalkComplete(edges, n, n, [n], {n}, ext);
    } else {
      WalksFromComplete(edges, starts[1..], p);
    }
  }

  lemma {:induction false} WalksFromNoRepeats(edges: Edges, starts: seq<string>)
    requires NoRepeats(starts)
    ensures NoRepeats(WalksFrom(edges, starts))
  {
    if starts != [] {
      var n := starts[0];
      var a, b := WalkPaths(edges, n, n, [n], {n}), WalksFrom(edges, starts[1..]);
      WalkNoRepeats(edges, n, n, [n], {n});
      WalksFromNoRepeats(edges, starts[1..]);
      forall c | c in a && c in b ensures false {
        WalkReports(edges, n, c);
        WalksFromSound(edges, starts[1..], c);
      }
      ConcatNoRepeats(a, b);
    }
  }

  /** The list holds exactly the simple cycles written from their least node and closed, each once. */
  lemma CyclesExactlyOnce(edges: Edges)
    ensures forall c :: c in Cycles(edges) <==> IsReport(edges, c)
    ensures NoRepeats(Cycles(edges))
  {
    var starts := Sorted(Sources(edges));
    forall c ensures c in Cycles(edges) <==> IsReport(edges, c) {
      if c in Cycles(edges) {
        WalksFromSound(edges, starts, c);
      }
      if IsReport(edges, c) {
        var p := c[..|c| - 1];
        assert (p + [p[0]])[0] == p[0];
        assert ((p + [p[0]])[0], (p + [p[0]])[1]) in edges;
        WalksFromComplete(edges, starts, p);
      }
    }
    AscendingNoRepeats(starts);
    WalksFromNoRepeats(edges, starts);
  }

  /** A rotation of a simple cycle is one. */
  lemma RotatedIsCycle(edges: Edges, p: seq<string>, k: nat)
    requires IsSimpleCycle(edges, p) && k < |p|
    ensures IsSimpleCycle(edges, Rotated(p, k))
  {
    var n, q := |p|, Rotated(p, k);
    var closed, closedQ := p + [p[0]], q + [q[0]];
    forall i | 0 <= i < n ensures q[i] == p[(if i + k < n then i + k else i + k - n)] {
    }
    forall i | 0 <= i < n ensures (closedQ[i], closedQ[i + 1]) in edges {
      var j := if i + k < n then i + k else i + k - n;
      assert (closed[j], closed[j + 1]) in edges;
    }
  }

  /** The cycle, written from its k-th node and closed, is the report at a place. */
  ghost predicate ListedAt(edges: Edges, p: seq<string>, k: nat, at: nat) {
    k < |p| && at < |Cycles(edges)| && Cycles(edges)[at] == Rotated(p, k) + [p[k]]
  }

  /** Every simple cycle, written from any of its nodes, is listed at exactly one place, under exactly one rotation. */
  lemma EveryCycleListedOnce(edges: Edges, p: seq<string>) returns (k: nat, at: nat)
    requires IsSimpleCycle(edges, p)
    ensures ListedAt(edges, p, k, at)
    ensures forall l: nat, there: nat :: ListedAt(edges, p, l, there) ==> l == k && there == at
  {
    var nodes := set x | x in p;
    assert p[0] in nodes;
    var m := LeastExists(nodes);
    k :| 0 <= k < |p| && p[k] == m;
    var q := Rotated(p, k);
    RotatedIsCycle(edges, p, k);
    forall i | 0 < i < |q| ensures Less(q[0], q[i]) {
      assert q[i] in p;
    }
    CyclesExactlyOnce(edges);
    var c := q + [q[0]];
    assert c[..|c| - 1] == q;
    assert IsReport(edges, c);
    at :| 0 <= at < |Cycles(edges)| && Cycles(edges)[at] == c;
    forall l: nat, there: nat | ListedAt(edges, p, l, there) ensures l == k && there == at {
      var d := Cycles(edges)[there];
      assert IsReport(edges, d) && d[..|d| - 1] == Rotated(p, l);
      LeastRotationUnique(p, k, l);
    }
  }

  lemma LeastRotationUnique(p: seq<string>, k: nat, l: nat)
    requires k < |p| && l < |p| && StartsLeast(Rotated(p, k)) && StartsLeast(Rotated(p, l))
    ensures k == l
  {
    if k != l {
      var n := |p|;
      var i := if l > k then l - k else l - k + n;
      var j := if k > l then k - l else k - l + n;
      assert Rotated(p, k)[i] == p[l] && Rotated(p, l)[j] == p[k];
      LessTrans(p[k], p[l], p[k]);
      LessIrreflexive(p[k]);
    }
  }

  /** A closed walk contains a simple cycle: cut at a repeated node until none repeats. */
  lemma {:induction false} SimpleCycleInWalk(edges: Edges, w: seq<string>) returns (p: seq<string>)
    requires IsClosedWalk(edges, w)
    ensures IsSimpleCycle(edges, p)
    decreases |w|
  {
    p := w[..|w| - 1];
    if NoRepeats(p) {
      assert p + [p[0]] == w;
    } else {
      var i, j :| 0 <= i < j < |p| && p[i] == p[j];
      var v := w[i..j + 1];
      forall l | 0 <= l < |v| - 1 ensures (v[l], v[l + 1]) in edges {
        assert (w[i + l], w[i + l + 1]) in edges;
      }
      p := SimpleCycleInWalk(edges, v);
    }
  }

  /** The gate's list is empty exactly when no closed walk exists. */
  lemma EmptyIffAcyclic(edges: Edges)
    ensures Cycles(edges) == [] <==> Acyclic(edges)
  {
    CyclesExactlyOnce(edges);
    if Cycles(edges) != [] {
      var c := Cycles(edges)[0];
      assert c in Cycles(edges);
      assert IsClosedWalk(edges, c);
    }
    if !Acyclic(edges) {
      var w :| IsClosedWalk(edges, w);
      var p := SimpleCycleInWalk(edges, w);
      var k, at := EveryCycleListedOnce(edges, p);
    }
  }

  // ---- the order of the list ------------------------------------------------------------------------------

  /** The first node where the two lists differ is the lesser one's smaller. */
  ghost predicate PathLess(p: seq<string>, q: seq<string>) {
    exists k :: DivergeAt(p, q, k)
  }

  ghost predicate DivergeAt(p: seq<string>, q: seq<string>, k: nat) {
    k < |p| && k < |q| && p[..k] == q[..k] && Less(p[k], q[k])
  }

  ghost predicate InPathOrder(list: seq<seq<string>>) {
    forall i, j :: 0 <= i < j < |list| ==> PathLess(list[i], list[j])
  }

  /** Every list found goes on from `path` with one of `next`. */
  ghost predicate GoOn(list: seq<seq<string>>, path: seq<string>, next: seq<string>) {
    forall p :: p in list ==> |p| > |path| && p[..|path|] == path && p[|path|] in next
  }

  lemma {:induction false} WalkInOrder(edges: Edges, start: string, node: string, path: seq<string>, on: set<string>)
    ensures var r := WalkPaths(edges, start, node, path, on);
            InPathOrder(r) && GoOn(r, path, Sorted(Succ(edges, node)))
    decreases |Targets(edges) - on|, 1, 0
  {
    var todo := Sorted(Succ(edges, node));
    EdgeEnds(edges, todo, node);
    OverInOrder(edges, start, path, on, todo);
  }

  lemma {:induction false} OverInOrder(edges: Edges, start: string, path: seq<string>, on: set<string>,
                                       todo: seq<string>)
    requires Ascending(todo) && forall x :: x in todo ==> x in Targets(edges)
    ensures var r := WalkOver(edges, start, path, on, todo); InPathOrder(r) && GoOn(r, path, todo)
    decreases |Targets(edges) - on|, 0, |todo|
  {
    if todo != [] {
      BranchInOrder(edges, start, path, on, todo[0]);
      OverInOrder(edges, start, path, on, todo[1..]);
      OrdersFollowOn(Branch(edges, start, path, on, todo[0]), WalkOver(edges, start, path, on, todo[1..]), path, todo);
    }
  }

  lemma {:induction false} BranchInOrder(edges: Edges, start: string, path: seq<string>, on: set<string>, next: string)
    requires next in Targets(edges)
    ensures var r := Branch(edges, start, path, on, next); InPathOrder(r) && GoOn(r, path, [next])
    decreases |Targets(edges) - on|, 0, 0
  {
    if next != start && next !in on && Less(start, next) {
      Shrinks(edges, on, next);
      WalkInOrder(edges, start, next, path + [next], on + {next});
      var r := Branch(edges, start, path, on, next);
      forall p | p in r ensures |p| > |path| && p[..|path|] == path && p[|path|] == next {
        assert p[..|path| + 1] == path + [next];
        assert p[..|path|] == p[..|path| + 1][..|path|];
      }
    }
  }

  lemma OrdersFollowOn(a: seq<seq<string>>, b: seq<seq<string>>, path: seq<string>, todo: seq<string>)
    requires todo != [] && Ascending(todo) && InPathOrder(a) && InPathOrder(b)
    requires GoOn(a, path, [todo[0]]) && GoOn(b, path, todo[1..])
    ensures InPathOrder(a + b) && GoOn(a + b, path, todo)
  {
    forall i, j | 0 <= i < j < |a + b| ensures PathLess((a + b)[i], (a + b)[j]) {
      if j < |a| {
        assert PathLess(a[i], a[j]);
      } else if i >= |a| {
        assert PathLess(b[i - |a|], b[j - |a|]);
      } else {
        var p, q := a[i], b[j - |a|];
        assert p in a && q in b;
        assert DivergeAt(p, q, |path|);
      }
    }
    forall p | p in a + b ensures p[|path|] in todo {
    }
  }

  lemma {:induction false} WalksInOrder(edges: Edges, starts: seq<string>)
    requires Ascending(starts)
    ensures InPathOrder(WalksFrom(edges, starts)) && GoOn(WalksFrom(edges, starts), [], starts)
    decreases |starts|
  {
    if starts != [] {
      var first := WalkPaths(edges, starts[0], starts[0], [starts[0]], {starts[0]});
      WalkInOrder(edges, starts[0], starts[0], [starts[0]], {starts[0]});
      WalksInOrder(edges, starts[1..]);
      forall p | p in first ensures |p| > 0 && p[..0] == [] && p[0] == starts[0] {
        assert p[..1] == [starts[0]];
      }
      OrdersFollowOn(first, WalksFrom(edges, starts[1..]), [], starts);
    }
  }

  /** The cycles are listed in order of their first differing node. */
  lemma CyclesInOrder(edges: Edges)
    ensures InPathOrder(Cycles(edges))
  {
    WalksInOrder(edges, Sorted(Sources(edges)));
  }

  // ---- the program ----------------------------------------------------------------------------------------

  /** The search state of `cycles`: the successor table, and the list every nested walk appends to. */
  class CycleSearch {
    const edges: Edges
    const adj: map<string, set<string>>
    var out: seq<seq<string>>

    ghost predicate Valid() {
      IsTable(adj, edges)
    }

    /** `sorted(adj.get(node, ()))`. */
    function Neighbours(node: string): (todo: seq<string>)
      requires Valid()
      ensures todo == Sorted(Succ(edges, node)) && forall x :: x in todo ==> x in Targets(edges)
    {
      NoSuccWithoutSource(edges, node);
      EdgeEnds(edges, Sorted(Succ(edges, node)), node);
      Sorted(if node in adj then adj[node] else {})
    }

    constructor (edges: Edges)
      ensures Valid() && this.edges == edges && out == []
    {
      this.edges, out := edges, [];
      var table := Successors(edges);
      adj := table;
    }

    method Walk(start: string, node: string, path: seq<string>, on: set<string>)
      requires Valid()
      modifies this
      ensures out == old(out) + WalkPaths(edges, start, node, path, on)
      decreases |Targets(edges) - on|, 1, 0
    {
      var todo := Neighbours(node);
      VisitAll(start, path, on, todo);
    }

    /** The walk's loop over its sorted neighbours. */
    method VisitAll(start: string, path: seq<string>, on: set<string>, todo: seq<string>)
      requires Valid() && forall x :: x in todo ==> x in Targets(edges)
      modifies this
      ensures out == old(out) + WalkOver(edges, start, path, on, todo)
      decreases |Targets(edges) - on|, 0, 1
    {
      var n := |todo|;
      ghost var found := [];
      for i := 0 to n
        invariant out == old(out) + found
        invariant found + WalkOver(edges, start, path, on, todo[i..]) == WalkOver(edges, start, path, on, todo)
      {
        WalkOverStep(edges, start, path, on, todo, i);
        Visit(start, path, on, todo[i]);
        found := found + Branch(edges, start, path, on, todo[i]);
      }
    }

    /** One iteration of the walk's loop: a return to the start is recorded, a fresh larger node is walked. */
    method Visit(start: string, path: seq<string>, on: set<string>, next: string)
      requires Valid() && next in Targets(edges)
      modifies this
      ensures out == old(out) + Branch(edges, start, path, on, next)
      decreases |Targets(edges) - on|, 0, 0
    {
      if next == start {
        out := out + [path + [start]];
      } else if next !in on && Less(start, next) {
        Shrinks(edges, on, next);
        Walk(start, next, path + [next], on + {next});
      }
    }

    method Run()
      requires Valid() && out == []
      modifies this
      ensures out == Cycles(edges)
    {
      RunFrom(Sorted(adj.Keys));
    }

    method RunFrom(starts: seq<string>)
      requires Valid()
      modifies this
      ensures out == old(out) + WalksFrom(edges, starts)
    {
      var n := |starts|;
      ghost var found := [];
      for i := 0 to n
        invariant out == old(out) + found
        invariant found + WalksFrom(edges, starts[i..]) == WalksFrom(edges, starts)
      {
        var start := starts[i];
        WalksFromStep(edges, starts, i);
        Walk(start, start, [start], {start});
        found := found + WalkPaths(edges, start, start, [start], {start});
      }
    }
  }

  lemma WalkOverStep(edges: Edges, start: string, path: seq<string>, on: set<string>, todo: seq<string>, i: nat)
    requires i < |todo| && forall x :: x in todo ==> x in Targets(edges)
    ensures WalkOver(edges, start, path, on, todo[i..]) ==
            Branch(edges, start, path, on, todo[i]) + WalkOver(edges, start, path, on, todo[i + 1..])
  {
    assert todo[i..][1..] == todo[i + 1..];
  }

  lemma WalksFromStep(edges: Edges, starts: seq<string>, i: nat)
    requires i < |starts|
    ensures WalksFrom(edges, starts[i..]) ==
            WalkPaths(edges, starts[i], starts[i], [starts[i]], {starts[i]}) + WalksFrom(edges, starts[i + 1..])
  {
    assert starts[i..][1..] == starts[i + 1..];
  }

  /** The successor table, edge by edge. */
  method Successors(edges: Edges) returns (table: map<string, set<string>>)
    ensures table.Keys == Sources(edges) && forall n :: n in table ==> table[n] == Succ(edges, n)
  {
    table := map[];
    var rest := edges;
    while rest != {}
      invariant rest <= edges
      invariant IsTable(table, edges - rest)
      decreases |rest|
    {
      var e :| e in rest;
      ghost var done := edges - rest;
      rest := rest - {e};
      assert edges - rest == done + {e};
      TableAdd(table, done, e);
      table := table[e.0 := (if e.0 in table then table[e.0] else {}) + {e.1}];
    }
    assert edges - rest == edges;
  }

  ghost predicate IsTable(table: map<string, set<string>>, edges: Edges) {
    table.Keys == Sources(edges) && forall n :: n in table ==> table[n] == Succ(edges, n)
  }

  lemma TableAdd(table: map<string, set<string>>, done: Edges, e: (string, string))
    requires IsTable(table, done)
    ensures IsTable(table[e.0 := (if e.0 in table then table[e.0] else {}) + {e.1}], done + {e})
  {
    SuccAdd(done, e);
  }

  lemma SuccAdd(done: Edges, e: (string, string))
    ensures forall n :: Succ(done + {e}, n) == if n == e.0 then Succ(done, n) + {e.1} else Succ(done, n)
    ensures Sources(done + {e}) == Sources(done) + {e.0}
    ensures e.0 !in Sources(done) ==> Succ(done, e.0) == {}
  {
    NoSuccWithoutSource(done, e.0);
    forall n, x ensures x in Succ(done + {e}, n) <==> (x in Succ(done, n) || (n, x) == e) {
    }
  }

  lemma NoSuccWithoutSource(edges: Edges, n: string)
    ensures n !in Sources(edges) ==> Succ(edges, n) == {}
  {
    forall x | x in Succ(edges, n) ensures n in Sources(edges) {
      assert (n, x) in edges;
    }
  }

  /** The gate: 0 exactly when every include edge is a declared arrow and the include graph is acyclic. A declared
      arrow no include uses is only a warning. */
  method Verdict(declared: Edges, actual: Edges) returns (rc: int)
    ensures rc == 0 || rc == 1
    ensures rc == 0 <==> actual <= declared && Acyclic(actual)
  {
    var search := new CycleSearch(actual);
    search.Run();
    EmptyIffAcyclic(actual);
    rc := 0;
    var undeclared := actual - declared;
    while undeclared != {}
      invariant undeclared <= actual - declared
      invariant rc == 0 || rc == 1
      invariant rc == 0 <==> undeclared == actual - declared
      decreases |undeclared|
    {
      var e :| e in undeclared;
      undeclared := undeclared - {e};
      rc := 1;
    }
    if actual - declared == {} {
      forall e | e in actual ensures e in declared {
        assert e !in actual - declared;
      }
    }
    var n := |search.out|;
    for i := 0 to n
      invariant rc == 0 || rc == 1
      invariant rc == 0 <==> actual <= declared && i == 0
    {
      rc := 1;
    }
  }
}

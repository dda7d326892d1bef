/** The oracle-coverage tool (tools/oracle_coverage.py): a worklist over includes that finds exactly the headers a test
    reaches, its inversion into header reach, and the lock that only ever refuses a loss. */
module OracleCoverage {
  import opened Ordering
  import opened Wrappers

  /** The source tree: each existing file's quoted includes, in order. */
  type Tree = map<string, seq<string>>

  const SWAPS := "swaps/"

  function Join(base: string, name: string): string {
    base + name
  }

  /** The first of the four places an include is looked for that exists. */
  function Resolve(tree: Tree, inc: string): (r: Option<string>)
    ensures r.Some? ==> r.value in tree
    ensures r.None? <==>
            Join("include/", inc) !in tree && Join("tests/", inc) !in tree && Join("api/", inc) !in tree && inc !in tree
  {
    if Join("include/", inc) in tree then Some(Join("include/", inc))
    else if Join("tests/", inc) in tree then Some(Join("tests/", inc))
    else if Join("api/", inc) in tree then Some(Join("api/", inc))
    else if inc in tree then Some(inc)
    else None
  }

  /** The first place of the list under which the include exists. */
  ghost predicate FirstFound(tree: Tree, places: seq<string>, inc: string, p: string) {
    exists k :: 0 <= k < |places| && p == places[k] + inc && p in tree
                && forall j :: 0 <= j < k ==> places[j] + inc !in tree
  }

  /** An include is looked for under include/, tests/ and api/, then as it stands. */
  lemma ResolvesInOrder(tree: Tree, inc: string, p: string)
    ensures Resolve(tree, inc) == Some(p) <==> FirstFound(tree, ["include/", "tests/", "api/", ""], inc, p)
  {
    var places := ["include/", "tests/", "api/", ""];
    assert places[0] + inc == Join("include/", inc) && places[1] + inc == Join("tests/", inc);
    assert places[2] + inc == Join("api/", inc) && places[3] + inc == inc;
  }

  // ---- reachability ----

  /** `q` is where some include of `p` resolves. */
  ghost predicate Includes(tree: Tree, p: string, q: string) {
    p in tree && exists inc :: inc in tree[p] && Resolve(tree, inc) == Some(q)
  }

  /** A chain of files, each included by the one before it. */
  ghost predicate IsChain(tree: Tree, path: seq<string>) {
    path != [] && (forall p :: p in path ==> p in tree)
    && forall i, j :: 0 <= i < j < |path| && j == i + 1 ==> Includes(tree, path[i], path[j])
  }

  ghost predicate Reaches(tree: Tree, start: string, p: string) {
    exists path: seq<string> :: IsChain(tree, path) && path[0] == start && path[|path| - 1] == p
  }

  predicate IsSwaps(inc: string) {
    SWAPS <= inc
  }

  /** A `swaps/` name that a reachable file includes, whether or not it resolves to a file. */
  ghost predicate NamedBy(tree: Tree, start: string, h: string) {
    "swaps/" <= h && exists p :: p in tree && Reaches(tree, start, p) && h in tree[p]
  }

  lemma ReachesSelf(tree: Tree, start: string)
    requires start in tree
    ensures Reaches(tree, start, start)
  {
    assert IsChain(tree, [start]);
  }

  lemma ReachesStep(tree: Tree, start: string, p: string, q: string)
    requires Reaches(tree, start, p) && Includes(tree, p, q)
    ensures Reaches(tree, start, q)
  {
    var path :| IsChain(tree, path) && path[0] == start && path[|path| - 1] == p;
    var longer := path + [q];
    forall i, j | 0 <= i < j < |longer| && j == i + 1 ensures Includes(tree, longer[i], longer[j]) {
      if j < |path| {
        assert Includes(tree, path[i], path[j]);
      }
    }
    assert IsChain(tree, longer);
  }

  /** The includes of every file of `seen` are in `seen`. */
  ghost predicate Closed(tree: Tree, seen: set<string>) {
    forall p, q :: p in seen && Includes(tree, p, q) ==> q in seen
  }

  lemma {:induction false} ClosedHoldsChain(tree: Tree, seen: set<string>, path: seq<string>)
    requires Closed(tree, seen) && IsChain(tree, path) && path[0] in seen
    ensures path[|path| - 1] in seen
    decreases |path|
  {
    if |path| > 1 {
      var shorter := path[..|path| - 1];
      forall i, j | 0 <= i < j < |shorter| && j == i + 1 ensures Includes(tree, shorter[i], shorter[j]) {
        assert Includes(tree, path[i], path[j]);
      }
      ClosedHoldsChain(tree, seen, shorter);
      assert Includes(tree, path[|path| - 2], path[|path| - 1]);
    }
  }

  // ---- the worklist ----

  ghost predicate InStack(stack: seq<string>, p: string) {
    exists i :: 0 <= i < |stack| && stack[i] == p
  }

  /** Between pops: what has been seen is reachable, its includes are seen or waiting, and its names are hit. */
  ghost predicate WorkInvariant(tree: Tree, start: string, seen: set<string>, hit: set<string>, stack: seq<string>) {
    && seen <= tree.Keys
    && (forall p :: p in seen ==> Reaches(tree, start, p))
    && (forall i :: 0 <= i < |stack| ==> stack[i] == start || Reaches(tree, start, stack[i]))
    && (start in tree ==> start in seen || InStack(stack, start))
    && (forall p, q :: p in seen && Includes(tree, p, q) ==> q in seen || InStack(stack, q))
    && (forall h :: h in hit <==> exists p :: p in seen && h in tree[p] && IsSwaps(h))
  }

  /** Every `swaps/` name some file reachable from the test includes, and nothing else. */
  method Closure(tree: Tree, start: string) returns (hit: set<string>)
    ensures forall h :: h in hit <==> NamedBy(tree, start, h)
  {
    var seen: set<string>, stack := {}, [start];
    hit := {};
    assert stack[0] == start;
    while stack != []
      invariant WorkInvariant(tree, start, seen, hit, stack)
      decreases |tree.Keys - seen|, |stack|
    {
      var p := stack[|stack| - 1];
      ghost var was := stack;
      stack := stack[..|stack| - 1];
      if p in seen || p !in tree {
        Popped(tree, start, seen, hit, was);
      } else {
        if p == start {
          ReachesSelf(tree, start);
        }
        assert tree.Keys - seen == (tree.Keys - (seen + {p})) + {p};
        var names, found := Scan(tree, p);
        Expanded(tree, start, seen, hit, was, names, found);
        seen, hit, stack := seen + {p}, hit + names, stack + found;
      }
    }
    WorkDone(tree, start, seen, hit);
  }

  ghost predicate Among(tree: Tree, incs: seq<string>, n: nat, q: string)
    requires n <= |incs|
  {
    exists i :: 0 <= i < n && Resolve(tree, incs[i]) == Some(q)
  }

  /** One file's includes: its `swaps/` names, and the files its includes resolve to. */
  method Scan(tree: Tree, p: string) returns (names: set<string>, found: seq<string>)
    requires p in tree
    ensures forall h :: h in names <==> h in tree[p] && IsSwaps(h)
    ensures forall q :: InStack(found, q) <==> Includes(tree, p, q)
  {
    names, found := {}, [];
    var incs := tree[p];
    var n := |incs|;
    for i := 0 to n
      invariant forall h :: h in names <==> h in incs[..i] && IsSwaps(h)
      invariant forall q :: InStack(found, q) <==> Among(tree, incs, i, q)
    {
      var inc := incs[i];
      assert incs[..i + 1] == incs[..i] + [inc];
      if IsSwaps(inc) {
        names := names + {inc};
      }
      var r := Resolve(tree, inc);
      AmongStep(tree, incs, i);
      if r.Some? {
        StackGrows(found, [r.value]);
        Single(r.value);
        found := found + [r.value];
      }
    }
    assert incs[..n] == incs;
    forall q ensures Among(tree, incs, n, q) <==> Includes(tree, p, q) {
      if inc :| inc in incs && Resolve(tree, inc) == Some(q) {
        var i :| 0 <= i < n && incs[i] == inc;
      }
    }
  }

  lemma AmongStep(tree: Tree, incs: seq<string>, n: nat)
    requires n < |incs|
    ensures forall q :: Among(tree, incs, n + 1, q) <==> Among(tree, incs, n, q) || Resolve(tree, incs[n]) == Some(q)
  {
  }

  lemma Single(p: string)
    ensures forall q :: InStack([p], q) <==> q == p
  {
    assert [p][0] == p;
  }

  lemma StackGrows(a: seq<string>, b: seq<string>)
    ensures forall q :: InStack(a + b, q) <==> InStack(a, q) || InStack(b, q)
  {
    forall q ensures InStack(a + b, q) <==> InStack(a, q) || InStack(b, q) {
      if i :| 0 <= i < |a| && a[i] == q {
        assert (a + b)[i] == q;
      }
      if i :| 0 <= i < |b| && b[i] == q {
        assert (a + b)[|a| + i] == q;
      }
    }
  }

  lemma StackShrinks(stack: seq<string>)
    requires stack != []
    ensures forall q :: InStack(stack, q) <==> InStack(stack[..|stack| - 1], q) || q == stack[|stack| - 1]
  {
    var rest, last := stack[..|stack| - 1], stack[|stack| - 1];
    assert stack == rest + [last];
    StackGrows(rest, [last]);
    Single(last);
  }

  /** Dropping an entry that was seen, or that does not exist, loses nothing. */
  lemma Popped(tree: Tree, start: string, seen: set<string>, hit: set<string>, stack: seq<string>)
    requires stack != [] && WorkInvariant(tree, start, seen, hit, stack)
    requires stack[|stack| - 1] in seen || stack[|stack| - 1] !in tree
    ensures WorkInvariant(tree, start, seen, hit, stack[..|stack| - 1])
  {
    StackShrinks(stack);
    var rest := stack[..|stack| - 1];
    forall p, q | p in seen && Includes(tree, p, q) ensures q in seen || InStack(rest, q) {
      assert q in tree;
    }
  }

  /** Reading a file moves it to the seen ones and what it includes to the stack. */
  lemma Expanded(tree: Tree, start: string, seen: set<string>, hit: set<string>, stack: seq<string>,
                 names: set<string>, found: seq<string>)
    requires stack != [] && WorkInvariant(tree, start, seen, hit, stack)
    requires var p := stack[|stack| - 1];
             && p in tree && Reaches(tree, start, p)
             && (forall h :: h in names <==> h in tree[p] && IsSwaps(h))
             && (forall q :: InStack(found, q) <==> Includes(tree, p, q))
    ensures WorkInvariant(tree, start, seen + {stack[|stack| - 1]}, hit + names, stack[..|stack| - 1] + found)
  {
    var p, rest := stack[|stack| - 1], stack[..|stack| - 1];
    StackShrinks(stack);
    StackGrows(rest, found);
    var next := rest + found;
    forall i | 0 <= i < |next| ensures next[i] == start || Reaches(tree, start, next[i]) {
      if i < |rest| {
        assert stack[i] == next[i];
      } else {
        assert InStack(found, next[i]) by {
          assert found[i - |rest|] == next[i];
        }
        ReachesStep(tree, start, p, next[i]);
      }
    }
    forall a, q | a in seen + {p} && Includes(tree, a, q) ensures q in seen + {p} || InStack(next, q) {
    }
  }

  /** With nothing left to read, the hits are exactly the names a reachable file includes. */
  lemma WorkDone(tree: Tree, start: string, seen: set<string>, hit: set<string>)
    requires WorkInvariant(tree, start, seen, hit, [])
    ensures forall h :: h in hit <==> NamedBy(tree, start, h)
  {
    assert forall q :: !InStack([], q);
    forall p | p in tree && Reaches(tree, start, p) ensures p in seen {
      var path :| IsChain(tree, path) && path[0] == start && path[|path| - 1] == p;
      assert path[0] in tree;
      ClosedHoldsChain(tree, seen, path);
    }
    forall h ensures h in hit <==> NamedBy(tree, start, h) {
      if h in hit {
        var p :| p in seen && h in tree[p] && IsSwaps(h);
        assert Reaches(tree, start, p);
      }
    }
  }

  // ---- header reach and the lock ----

  /** `reach` turns a table of hits by test around: t is listed under h exactly when h is a hit of t, and nothing is
      listed under no test. */
  ghost predicate Inverts<T(!new)>(hits: map<T, set<T>>, reach: map<T, set<T>>) {
    && (forall h, t :: h in reach && t in reach[h] ==> IsHit(hits, t, h))
    && (forall h, t :: IsHit(hits, t, h) ==> h in reach && t in reach[h])
    && (forall h :: h in reach ==> reach[h] != {})
  }

  ghost predicate IsHit<T>(hits: map<T, set<T>>, t: T, h: T) {
    t in hits && h in hits[t]
  }

  function Listed<T>(reach: map<T, set<T>>, h: T): set<T> {
    if h in reach then reach[h] else {}
  }

  /** `reach.setdefault(h, set()).add(t)` for every h of `found`. */
  ghost predicate Added<T>(reach: map<T, set<T>>, found: set<T>, t: T, next: map<T, set<T>>) {
    && next.Keys == reach.Keys + found
    && forall h :: h in next ==> next[h] == if h in found then Listed(reach, h) + {t} else Listed(reach, h)
  }

  method AddTest<T(==)>(reach: map<T, set<T>>, t: T, found: set<T>) returns (next: map<T, set<T>>)
    ensures Added(reach, found, t, next)
  {
    next := reach;
    var rest := found;
    ghost var done := {};
    while rest != {}
      invariant Split(found, done, rest) && Added(reach, done, t, next)
      decreases |rest|
    {
      var h :| h in rest;
      Moved(found, done, rest, h);
      AddedOne(reach, done, t, next, h);
      next := next[h := Listed(next, h) + {t}];
      rest, done := rest - {h}, done + {h};
    }
    assert done == found;
  }

  ghost predicate Split<T>(all: set<T>, done: set<T>, rest: set<T>) {
    done !! rest && done + rest == all
  }

  lemma Moved<T>(all: set<T>, done: set<T>, rest: set<T>, h: T)
    requires Split(all, done, rest) && h in rest
    ensures Split(all, done + {h}, rest - {h}) && h !in done && |rest - {h}| < |rest|
  {
  }

  lemma AddedOne<T>(reach: map<T, set<T>>, done: set<T>, t: T, next: map<T, set<T>>, h: T)
    requires Added(reach, done, t, next) && h !in done
    ensures Added(reach, done + {h}, t, next[h := Listed(next, h) + {t}])
  {
  }

  lemma AddedInverts<T(!new)>(hits: map<T, set<T>>, reach: map<T, set<T>>, t: T, found: set<T>, next: map<T, set<T>>)
    requires Inverts(hits, reach) && t !in hits && Added(reach, found, t, next)
    ensures Inverts(hits[t := found], next)
  {
    var more := hits[t := found];
    forall h, u | h in next && u in next[h] ensures IsHit(more, u, h) {
      if u in Listed(reach, h) {
        assert IsHit(hits, u, h);
      }
    }
    forall h, u | IsHit(more, u, h) ensures h in next && u in next[h] {
      if u != t {
        assert IsHit(hits, u, h);
      }
    }
    forall h | h in next ensures next[h] != {} {
      if h in found {
        assert t in next[h];
      }
    }
  }

  /** A header is listed under a test exactly when that test reaches it; a header no test reaches is not listed. */
  ghost predicate IsReach(tree: Tree, tests: set<string>, reach: map<string, set<string>>) {
    exists hits: map<string, set<string>> :: AreHits(tree, tests, hits) && Inverts(hits, reach)
  }

  ghost predicate AreHits(tree: Tree, tests: set<string>, hits: map<string, set<string>>) {
    hits.Keys == tests && forall t :: t in hits ==> AreNamed(tree, t, hits[t])
  }

  /** `hits` are the headers that test `t` reaches. */
  ghost predicate AreNamed(tree: Tree, t: string, hits: set<string>) {
    forall h :: h in hits <==> NamedBy(tree, Join("tests/", t), h)
  }

  /** The registered oracles but the isolation test, each under every header it reaches. */
  method HeaderReach(tree: Tree, registered: set<string>) returns (reach: map<string, set<string>>)
    ensures IsReach(tree, registered - {"ql_test_isolation.cpp"}, reach)
  {
    var tests := registered - {"ql_test_isolation.cpp"};
    var todo := Sorted(tests);
    reach := map[];
    ghost var hits: map<string, set<string>> := map[];
    var n := |todo|;
    for i := 0 to n
      invariant AreHits(tree, Firsts(todo, i), hits) && Inverts(hits, reach)
    {
      var found := Closure(tree, Join("tests/", todo[i]));
      FreshTest(todo, i);
      var next := AddTest(reach, todo[i], found);
      AddedInverts(hits, reach, todo[i], found, next);
      HitsGrow(tree, Firsts(todo, i), hits, todo[i], found);
      hits, reach := hits[todo[i] := found], next;
    }
    assert Firsts(todo, n) == tests;
  }

  lemma HitsGrow(tree: Tree, tests: set<string>, hits: map<string, set<string>>, t: string, found: set<string>)
    requires AreHits(tree, tests, hits) && AreNamed(tree, t, found)
    ensures AreHits(tree, tests + {t}, hits[t := found])
  {
  }

  function Firsts(todo: seq<string>, n: nat): set<string>
    requires n <= |todo|
  {
    set i | 0 <= i < n :: todo[i]
  }

  lemma FreshTest(todo: seq<string>, i: nat)
    requires Ascending(todo) && i < |todo|
    ensures todo[i] !in Firsts(todo, i) && Firsts(todo, i + 1) == Firsts(todo, i) + {todo[i]}
  {
    LessIrreflexive(todo[i]);
  }

  ghost predicate Reached(tree: Tree, tests: set<string>, h: string) {
    exists t :: t in tests && NamedBy(tree, Join("tests/", t), h)
  }

  /** The gate: refuses exactly when the verb matcher fails its selftest, there is no lock, or a locked header is no
      longer reached by any oracle; a gained one is free. `bad` is what the selftest found wrong. */
  method CheckLock(tree: Tree, registered: set<string>, bad: seq<string>, lock: Option<seq<string>>) returns (rc: int)
    ensures rc == 0 || rc == 1
    ensures rc == 0 <==>
            bad == [] && lock.Some? && forall i :: 0 <= i < |lock.value| ==>
              Reached(tree, registered - {"ql_test_isolation.cpp"}, lock.value[i])
  {
    var reach := HeaderReach(tree, registered);
    if bad != [] {
      return 1;
    }
    if lock.None? {
      return 1;
    }
    var want := lock.value;
    ghost var tests := registered - {"ql_test_isolation.cpp"};
    var n := |want|;
    rc := 0;
    for i := 0 to n
      invariant rc == 0 || rc == 1
      invariant rc == 0 <==> forall j :: 0 <= j < i ==> Reached(tree, tests, want[j])
    {
      ReachedIff(tree, tests, reach, want[i]);
      if want[i] !in reach {
        rc := 1;
      }
    }
  }

  lemma ReachedIff(tree: Tree, tests: set<string>, reach: map<string, set<string>>, h: string)
    requires IsReach(tree, tests, reach)
    ensures h in reach <==> Reached(tree, tests, h)
  {
    var hits :| AreHits(tree, tests, hits) && Inverts(hits, reach);
    if h in reach {
      var t :| t in reach[h];
      assert IsHit(hits, t, h) && AreNamed(tree, t, hits[t]);
    }
    if t :| t in tests && NamedBy(tree, Join("tests/", t), h) {
      assert AreNamed(tree, t, hits[t]);
      assert IsHit(hits, t, h);
    }
  }

  /** Read the other way: t is listed under h exactly when t is a test that reaches h. */
  lemma ListedIff(tree: Tree, tests: set<string>, reach: map<string, set<string>>, h: string, t: string)
    requires IsReach(tree, tests, reach)
    ensures h in reach && t in reach[h] <==> t in tests && NamedBy(tree, Join("tests/", t), h)
  {
    var hits :| AreHits(tree, tests, hits) && Inverts(hits, reach);
    if t in tests {
      assert AreNamed(tree, t, hits[t]);
    }
    assert IsHit(hits, t, h) <==> t in tests && NamedBy(tree, Join("tests/", t), h);
  }
}

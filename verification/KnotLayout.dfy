/** Knots to regions (api/compile.cpp, curve_layout): nothing lost, nothing doubled, each region strictly increasing. */
module KnotLayout {
  import opened Curves
  import opened Grids
  import opened Wrappers

  /** The knot_region word, which is only ever compared with "front". */
  datatype KnotRegion = Front | OtherWord

  datatype KnotItem = KnotItem(t: real, region: Option<string>, knotRegion: Option<KnotRegion>)

  /** A region row of the spec, its policy word (absent: Hermite) looked up in the scheme table. */
  datatype RegionRow = RegionRow(id: string, policy: Option<Scheme>, sigma: Option<real>, regLambda: Option<real>)

  datatype Layout =
    | Classic(front: seq<real>, back: seq<real>, backLambda: real)
    | Modular(modules: seq<CurveModule>)

  datatype Refusal = UnknownPolicy | NoKnots | NotIncreasing

  datatype Result = Ok(layout: Layout) | Err(why: Refusal)

  function ValueOr<T>(o: Option<T>, d: T): T {
    if o.Some? then o.value else d
  }

  // ---- the assignment of items to regions ----

  predicate IsId(regions: seq<RegionRow>, id: string) {
    exists i :: 0 <= i < |regions| && regions[i].id == id
  }

  /** The region an item's knot lands in: the one it names, otherwise the first or the last. */
  function Home(regions: seq<RegionRow>, item: KnotItem): string
    requires regions != []
  {
    var named, last := ValueOr(item.region, ""), |regions| - 1;
    if IsId(regions, named) then named
    else if ValueOr(item.knotRegion, Front).Front? then regions[0].id else regions[last].id
  }

  lemma HomeIsARegion(regions: seq<RegionRow>, item: KnotItem) returns (i: nat)
    requires regions != []
    ensures i < |regions| && regions[i].id == Home(regions, item)
  {
    var last := |regions| - 1;
    i := if regions[last].id == Home(regions, item) then last
         else var i :| 0 <= i < |regions| && regions[i].id == Home(regions, item); i;
  }

  /** Of the first `n` items, the times landing in region `id`, in item order. */
  function TimesIn(regions: seq<RegionRow>, items: seq<KnotItem>, n: nat, id: string): seq<real>
    requires regions != [] && n <= |items|
  {
    if n == 0 then []
    else if Home(regions, items[n - 1]) == id then TimesIn(regions, items, n - 1, id) + [items[n - 1].t]
    else TimesIn(regions, items, n - 1, id)
  }

  /** The row whose settings a region id has, among the first `n`: of two rows with one id, the later. */
  function Settings(regions: seq<RegionRow>, n: nat, id: string): RegionRow
    requires 0 < n <= |regions|
  {
    if regions[n - 1].id == id || n == 1 then regions[n - 1] else Settings(regions, n - 1, id)
  }

  predicate PoliciesKnown(regions: seq<RegionRow>) {
    forall r :: r in regions ==> r.policy.Some?
  }

  function Max(a: real, b: real): real {
    if a < b then b else a
  }

  function ModuleOf(row: RegionRow, times: seq<real>): CurveModule {
    var scheme := ValueOr(row.policy, Hermite);
    CurveModule(SortDistinct(times), scheme, if scheme.Tension? then Max(0.0, ValueOr(row.sigma, 0.0)) else 0.0,
                ValueOr(row.regLambda, UNSET_LAMBDA))
  }

  /** The module of a region row. */
  function Piece(regions: seq<RegionRow>, items: seq<KnotItem>, i: nat): CurveModule
    requires i < |regions|
  {
    ModuleOf(Settings(regions, |regions|, regions[i].id), TimesIn(regions, items, |items|, regions[i].id))
  }

  /** No knot landed in the region. */
  predicate Bare(regions: seq<RegionRow>, items: seq<KnotItem>, i: nat)
    requires i < |regions|
  {
    |TimesIn(regions, items, |items|, regions[i].id)| == 0
  }

  /** The modules of the first `n` region rows, the bare ones left out. */
  function ModulesFor(regions: seq<RegionRow>, items: seq<KnotItem>, n: nat): seq<CurveModule>
    requires n <= |regions|
  {
    if n == 0 then []
    else if Bare(regions, items, n - 1) then ModulesFor(regions, items, n - 1)
    else ModulesFor(regions, items, n - 1) + [Piece(regions, items, n - 1)]
  }

  /** The knots of the first `n` modules, one after another. */
  function Flattened(modules: seq<CurveModule>, n: nat): seq<real>
    requires n <= |modules|
  {
    if n == 0 then [] else Flattened(modules, n - 1) + modules[n - 1].knots
  }

  predicate StepsUp(s: seq<real>, i: nat)
    requires 0 < i < |s|
  {
    s[i - 1] < s[i]
  }

  predicate Steps(s: seq<real>) {
    forall i :: 0 < i < |s| ==> StepsUp(s, i)
  }

  predicate IsFlatHermite(modules: seq<CurveModule>) {
    |modules| == 2 && modules[0].scheme.Flat? && modules[1].scheme.Hermite?
  }

  /** An item that names no side is at the back. */
  predicate AtFront(item: KnotItem) {
    ValueOr(item.knotRegion, OtherWord).Front?
  }

  /** Legacy knots of one side among the first `n` items. */
  function Side(items: seq<KnotItem>, n: nat, front: bool): seq<real>
    requires n <= |items|
  {
    if n == 0 then []
    else if AtFront(items[n - 1]) == front then Side(items, n - 1, front) + [items[n - 1].t]
    else Side(items, n - 1, front)
  }

  function Arranged(modules: seq<CurveModule>): Result {
    if |modules| == 0 then Err(NoKnots)
    else if IsFlatHermite(modules) then Ok(Classic(modules[0].knots, modules[1].knots, modules[1].regLambda))
    else if !Steps(Flattened(modules, |modules|)) then Err(NotIncreasing)
    else Ok(Modular(modules))
  }

  function LayoutOf(regions: seq<RegionRow>, items: seq<KnotItem>): Result {
    if regions == [] then
      Ok(Classic(SortDistinct(Side(items, |items|, true)), SortDistinct(Side(items, |items|, false)), UNSET_LAMBDA))
    else if !PoliciesKnown(regions) then Err(UnknownPolicy)
    else Arranged(ModulesFor(regions, items, |regions|))
  }

  function Knots(l: Layout): seq<real> {
    match l
    case Classic(front, back, _) => front + back
    case Modular(modules) => Flattened(modules, |modules|)
  }

  ghost predicate EachRegionIncreases(l: Layout) {
    match l
    case Classic(front, back, _) => Increasing(front) && Increasing(back)
    case Modular(modules) => forall m :: m in modules ==> Increasing(m.knots) && m.knots != []
  }

  // ---- conservation ----

  ghost predicate Among(items: seq<KnotItem>, n: nat, t: real)
    requires n <= |items|
  {
    exists j :: 0 <= j < n && items[j].t == t
  }

  lemma {:induction false} TimesInHas(regions: seq<RegionRow>, items: seq<KnotItem>, n: nat, id: string, t: real)
    requires regions != [] && n <= |items|
    ensures t in TimesIn(regions, items, n, id) <==>
            exists j :: 0 <= j < n && Home(regions, items[j]) == id && items[j].t == t
  {
    if n > 0 {
      TimesInHas(regions, items, n - 1, id, t);
    }
  }

  lemma {:induction false} SideHas(items: seq<KnotItem>, n: nat, t: real)
    requires n <= |items|
    ensures t in Side(items, n, true) || t in Side(items, n, false) <==> Among(items, n, t)
  {
    if n > 0 {
      SideHas(items, n - 1, t);
    }
  }

  predicate LandsIn(regions: seq<RegionRow>, items: seq<KnotItem>, i: nat, t: real)
    requires i < |regions|
  {
    t in TimesIn(regions, items, |items|, regions[i].id)
  }

  /** A region's module has the times that landed there, ascending. */
  lemma PieceHas(regions: seq<RegionRow>, items: seq<KnotItem>, i: nat, t: real)
    requires i < |regions|
    ensures var knots := Piece(regions, items, i).knots;
            && (LandsIn(regions, items, i, t) <==> t in knots)
            && Increasing(knots) && (Bare(regions, items, i) <==> |knots| == 0)
  {
    var times := TimesIn(regions, items, |items|, regions[i].id);
    Sorts(times);
    assert |times| > 0 ==> times[0] in times;
    assert |SortDistinct(times)| > 0 ==> SortDistinct(times)[0] in times;
  }

  lemma {:induction false} FlattenedOfPrefix(modules: seq<CurveModule>, piece: seq<CurveModule>, n: nat)
    requires n <= |modules|
    ensures Flattened(modules + piece, n) == Flattened(modules, n)
  {
    if n > 0 {
      FlattenedOfPrefix(modules, piece, n - 1);
    }
  }

  lemma FlattenedSnoc(modules: seq<CurveModule>, m: CurveModule)
    ensures Flattened(modules + [m], |modules| + 1) == Flattened(modules, |modules|) + m.knots
  {
    FlattenedOfPrefix(modules, [m], |modules|);
  }

  ghost predicate LandsBefore(regions: seq<RegionRow>, items: seq<KnotItem>, n: nat, t: real)
    requires n <= |regions|
  {
    exists i :: 0 <= i < n && LandsIn(regions, items, i, t)
  }

  lemma LandsBeforeStep(regions: seq<RegionRow>, items: seq<KnotItem>, n: nat, t: real)
    requires 0 < n <= |regions|
    ensures LandsBefore(regions, items, n, t) <==>
            LandsBefore(regions, items, n - 1, t) || LandsIn(regions, items, n - 1, t)
  {
  }

  ghost predicate InModules(modules: seq<CurveModule>, t: real) {
    t in Flattened(modules, |modules|)
  }

  lemma InModulesStep(modules: seq<CurveModule>, m: CurveModule, t: real)
    ensures InModules(modules + [m], t) <==> InModules(modules, t) || t in m.knots
  {
    FlattenedSnoc(modules, m);
  }

  lemma {:induction false} FlattenedHas(regions: seq<RegionRow>, items: seq<KnotItem>, n: nat, t: real)
    requires n <= |regions|
    ensures InModules(ModulesFor(regions, items, n), t) <==> LandsBefore(regions, items, n, t)
  {
    if n > 0 {
      FlattenedHas(regions, items, n - 1, t);
      LandsBeforeStep(regions, items, n, t);
      PieceHas(regions, items, n - 1, t);
      InModulesStep(ModulesFor(regions, items, n - 1), Piece(regions, items, n - 1), t);
    }
  }

  lemma EveryItemLands(regions: seq<RegionRow>, items: seq<KnotItem>, t: real)
    requires regions != []
    ensures LandsBefore(regions, items, |regions|, t) <==> Among(items, |items|, t)
  {
    if j :| 0 <= j < |items| && items[j].t == t {
      var i := HomeIsARegion(regions, items[j]);
      TimesInHas(regions, items, |items|, regions[i].id, t);
      assert LandsIn(regions, items, i, t);
    }
    if i :| 0 <= i < |regions| && LandsIn(regions, items, i, t) {
      TimesInHas(regions, items, |items|, regions[i].id, t);
    }
  }

  /** The layout's knots are exactly the items' times. */
  lemma KnotsConserved(regions: seq<RegionRow>, items: seq<KnotItem>, t: real)
    requires LayoutOf(regions, items).Ok?
    ensures t in Knots(LayoutOf(regions, items).layout) <==> exists k :: k in items && k.t == t
  {
    assert Among(items, |items|, t) <==> exists k :: k in items && k.t == t;
    if regions == [] {
      SideHas(items, |items|, t);
      Sorts(Side(items, |items|, true));
      Sorts(Side(items, |items|, false));
    } else {
      FlattenedHas(regions, items, |regions|, t);
      ArrangedKnots(ModulesFor(regions, items, |regions|));
      EveryItemLands(regions, items, t);
    }
  }

  lemma TwoFlattened(modules: seq<CurveModule>)
    requires |modules| == 2
    ensures Flattened(modules, 2) == modules[0].knots + modules[1].knots
  {
    assert Flattened(modules, 1) == modules[0].knots;
  }

  lemma ArrangedKnots(modules: seq<CurveModule>)
    requires Arranged(modules).Ok?
    ensures Knots(Arranged(modules).layout) == Flattened(modules, |modules|)
  {
    if IsFlatHermite(modules) {
      TwoFlattened(modules);
    }
  }

  /** Over the first `m` regions, how many of the first `n` items landed. */
  function Landed(regions: seq<RegionRow>, items: seq<KnotItem>, n: nat, m: nat): nat
    requires regions != [] && m <= |regions| && n <= |items|
  {
    if m == 0 then 0 else Landed(regions, items, n, m - 1) + |TimesIn(regions, items, n, regions[m - 1].id)|
  }

  ghost predicate DistinctIds(regions: seq<RegionRow>) {
    forall i, j :: 0 <= i < j < |regions| ==> regions[i].id != regions[j].id
  }

  /** With distinct region ids, every item lands in exactly one region: the regions' lists add up to the items. */
  lemma {:induction false} EveryItemLandsOnce(regions: seq<RegionRow>, items: seq<KnotItem>, n: nat)
    requires regions != [] && DistinctIds(regions) && n <= |items|
    ensures Landed(regions, items, n, |regions|) == n
  {
    if n == 0 {
      NoneLanded(regions, items, |regions|);
    } else {
      EveryItemLandsOnce(regions, items, n - 1);
      var i := HomeIsARegion(regions, items[n - 1]);
      OneMoreLanded(regions, items, n, i, |regions|);
    }
  }

  lemma {:induction false} NoneLanded(regions: seq<RegionRow>, items: seq<KnotItem>, m: nat)
    requires regions != [] && m <= |regions|
    ensures Landed(regions, items, 0, m) == 0
  {
    if m > 0 {
      NoneLanded(regions, items, m - 1);
    }
  }

  lemma {:induction false} OneMoreLanded(regions: seq<RegionRow>, items: seq<KnotItem>, n: nat, i: nat, m: nat)
    requires 0 < n <= |items| && DistinctIds(regions) && i < |regions| && m <= |regions|
    requires Home(regions, items[n - 1]) == regions[i].id
    ensures Landed(regions, items, n, m) == Landed(regions, items, n - 1, m) + if i < m then 1 else 0
  {
    if m > 0 {
      OneMoreLanded(regions, items, n, i, m - 1);
      assert regions[m - 1].id == regions[i].id <==> m - 1 == i;
    }
  }

  // ---- order ----

  lemma {:induction false} ModulesIncrease(regions: seq<RegionRow>, items: seq<KnotItem>, n: nat)
    requires n <= |regions|
    ensures forall m :: m in ModulesFor(regions, items, n) ==> Increasing(m.knots) && m.knots != []
  {
    if n > 0 {
      ModulesIncrease(regions, items, n - 1);
      PieceHas(regions, items, n - 1, 0.0);
    }
  }

  lemma {:induction false} StepsFar(s: seq<real>, i: nat, j: nat)
    requires Steps(s) && i < j < |s|
    ensures s[i] < s[j]
  {
    assert StepsUp(s, j);
    if i < j - 1 {
      StepsFar(s, i, j - 1);
    }
  }

  lemma StepsIncrease(s: seq<real>)
    requires Steps(s)
    ensures Increasing(s)
  {
    forall i, j | 0 <= i < j < |s| ensures s[i] < s[j] {
      StepsFar(s, i, j);
    }
  }

  /** Two increasing lists follow on exactly when all of the first lies below all of the second. */
  lemma FollowsOn(a: seq<real>, b: seq<real>)
    requires Increasing(a) && Increasing(b)
    ensures Increasing(a + b) <==> forall i, j :: 0 <= i < |a| && 0 <= j < |b| ==> a[i] < b[j]
  {
    var s := a + b;
    if Increasing(s) {
      forall i, j | 0 <= i < |a| && 0 <= j < |b| ensures a[i] < b[j] {
        assert s[i] == a[i] && s[|a| + j] == b[j];
      }
    }
  }

  lemma ValuesFollowOn(a: seq<real>, b: seq<real>)
    requires Increasing(a) && Increasing(b)
    ensures Increasing(a + b) <==> forall s, t :: s in a && t in b ==> s < t
  {
    FollowsOn(a, b);
    if forall s, t :: s in a && t in b ==> s < t {
      forall i, j | 0 <= i < |a| && 0 <= j < |b| ensures a[i] < b[j] {
        assert a[i] in a && b[j] in b;
      }
    }
  }

  /** Every front item is earlier than every back item. */
  ghost predicate FrontFirst(items: seq<KnotItem>) {
    forall i, j :: 0 <= i < |items| && 0 <= j < |items| && AtFront(items[i]) && !AtFront(items[j]) ==>
      items[i].t < items[j].t
  }

  predicate LandsAt(regions: seq<RegionRow>, item: KnotItem, p: nat)
    requires p < |regions|
  {
    Home(regions, item) == regions[p].id
  }

  /** Every item homed to region row p is earlier than every item homed to row q. */
  ghost predicate HomedFirst(regions: seq<RegionRow>, items: seq<KnotItem>, p: nat, q: nat)
    requires p < |regions| && q < |regions|
  {
    forall i, j :: 0 <= i < |items| && 0 <= j < |items| ==>
      LandsAt(regions, items[i], p) && LandsAt(regions, items[j], q) ==> items[i].t < items[j].t
  }

  /** The guard of the branch that returns before the check: items are homed to exactly two rows, a Flat one and then a
      Hermite one. */
  ghost predicate FlatThenHermite(regions: seq<RegionRow>, items: seq<KnotItem>, p: nat, q: nat) {
    && p < q < |regions|
    && (forall i :: 0 <= i < |regions| ==> (Bare(regions, items, i) <==> i != p && i != q))
    && SchemeOf(regions, regions[p].id).Flat? && SchemeOf(regions, regions[q].id).Hermite?
  }

  lemma {:induction false} ModulesOfTwo(regions: seq<RegionRow>, items: seq<KnotItem>, p: nat, q: nat, n: nat)
    requires p < q < |regions| && n <= |regions|
    requires forall i :: 0 <= i < |regions| ==> (Bare(regions, items, i) <==> i != p && i != q)
    ensures ModulesFor(regions, items, n) ==
            (if p < n then [Piece(regions, items, p)] else []) + (if q < n then [Piece(regions, items, q)] else [])
  {
    if n > 0 {
      ModulesOfTwo(regions, items, p, q, n - 1);
    }
  }

  lemma {:induction false} NoModules(regions: seq<RegionRow>, items: seq<KnotItem>, n: nat)
    requires n <= |regions| && |ModulesFor(regions, items, n)| == 0
    ensures forall i :: 0 <= i < n ==> Bare(regions, items, i)
  {
    if n > 0 {
      NoModules(regions, items, n - 1);
    }
  }

  lemma {:induction false} OneModule(regions: seq<RegionRow>, items: seq<KnotItem>, n: nat) returns (p: nat)
    requires n <= |regions| && |ModulesFor(regions, items, n)| == 1
    ensures p < n && forall i :: 0 <= i < n ==> (Bare(regions, items, i) <==> i != p)
  {
    if Bare(regions, items, n - 1) {
      p := OneModule(regions, items, n - 1);
    } else {
      NoModules(regions, items, n - 1);
      p := n - 1;
    }
  }

  lemma {:induction false} TwoModules(regions: seq<RegionRow>, items: seq<KnotItem>, n: nat) returns (p: nat, q: nat)
    requires n <= |regions| && |ModulesFor(regions, items, n)| == 2
    ensures p < q < n && forall i :: 0 <= i < n ==> (Bare(regions, items, i) <==> i != p && i != q)
  {
    if Bare(regions, items, n - 1) {
      p, q := TwoModules(regions, items, n - 1);
    } else {
      p := OneModule(regions, items, n - 1);
      q := n - 1;
    }
  }

  /** The knots of the two pieces follow on exactly when the items do. */
  lemma PiecesFollowOn(regions: seq<RegionRow>, items: seq<KnotItem>, p: nat, q: nat)
    requires p < |regions| && q < |regions|
    ensures Increasing(Piece(regions, items, p).knots + Piece(regions, items, q).knots) <==>
            HomedFirst(regions, items, p, q)
  {
    var a, b := Piece(regions, items, p).knots, Piece(regions, items, q).knots;
    PieceHas(regions, items, p, 0.0);
    PieceHas(regions, items, q, 0.0);
    ValuesFollowOn(a, b);
    forall t
      ensures t in a <==> exists i :: 0 <= i < |items| && Home(regions, items[i]) == regions[p].id && items[i].t == t
    {
      PieceHas(regions, items, p, t);
      TimesInHas(regions, items, |items|, regions[p].id, t);
    }
    forall t
      ensures t in b <==> exists j :: 0 <= j < |items| && Home(regions, items[j]) == regions[q].id && items[j].t == t
    {
      PieceHas(regions, items, q, t);
      TimesInHas(regions, items, |items|, regions[q].id, t);
    }
    if HomedFirst(regions, items, p, q) {
      forall s, t | s in a && t in b ensures s < t {
        var i :| 0 <= i < |items| && Home(regions, items[i]) == regions[p].id && items[i].t == s;
        var j :| 0 <= j < |items| && Home(regions, items[j]) == regions[q].id && items[j].t == t;
        assert LandsAt(regions, items[i], p) && LandsAt(regions, items[j], q);
      }
    }
    if forall s, t :: s in a && t in b ==> s < t {
      forall i, j | 0 <= i < |items| && 0 <= j < |items| && LandsAt(regions, items[i], p)
      && LandsAt(regions, items[j], q)
        ensures items[i].t < items[j].t
      {
        assert items[i].t in a && items[j].t in b;
      }
    }
  }

  lemma {:induction false} SideIs(items: seq<KnotItem>, n: nat, front: bool, t: real)
    requires n <= |items|
    ensures t in Side(items, n, front) <==> exists i :: 0 <= i < n && AtFront(items[i]) == front && items[i].t == t
  {
    if n > 0 {
      SideIs(items, n - 1, front, t);
    }
  }

  lemma SidesFollowOn(items: seq<KnotItem>)
    ensures var a, b := SortDistinct(Side(items, |items|, true)), SortDistinct(Side(items, |items|, false));
            Increasing(a) && Increasing(b) && (Increasing(a + b) <==> FrontFirst(items))
  {
    var a, b := SortDistinct(Side(items, |items|, true)), SortDistinct(Side(items, |items|, false));
    Sorts(Side(items, |items|, true));
    Sorts(Side(items, |items|, false));
    ValuesFollowOn(a, b);
    forall t ensures t in a <==> exists i :: 0 <= i < |items| && AtFront(items[i]) == true && items[i].t == t {
      SideIs(items, |items|, true, t);
    }
    forall t ensures t in b <==> exists j :: 0 <= j < |items| && AtFront(items[j]) == false && items[j].t == t {
      SideIs(items, |items|, false, t);
    }
    if FrontFirst(items) {
      forall s, t | s in a && t in b ensures s < t {
        var i :| 0 <= i < |items| && AtFront(items[i]) == true && items[i].t == s;
        var j :| 0 <= j < |items| && AtFront(items[j]) == false && items[j].t == t;
      }
    }
    if forall s, t :: s in a && t in b ==> s < t {
      forall i, j | 0 <= i < |items| && 0 <= j < |items| && AtFront(items[i]) && !AtFront(items[j])
        ensures items[i].t < items[j].t
      {
        assert items[i].t in a && items[j].t in b;
      }
    }
  }

  /** What the items have to satisfy: nothing, when the check across regions runs; otherwise the order it would have
      checked. */
  ghost predicate InOrder(regions: seq<RegionRow>, items: seq<KnotItem>) {
    if regions == [] then FrontFirst(items)
    else forall p: nat, q: nat :: FlatThenHermite(regions, items, p, q) ==> HomedFirst(regions, items, p, q)
  }

  /** Each region increases strictly; the whole curve does if and only if the items are in order wherever the check
      across regions is passed over: the legacy front and back, and a Flat row followed by a Hermite one. */
  lemma LayoutIncreases(regions: seq<RegionRow>, items: seq<KnotItem>)
    requires LayoutOf(regions, items).Ok?
    ensures EachRegionIncreases(LayoutOf(regions, items).layout)
    ensures Increasing(Knots(LayoutOf(regions, items).layout)) <==> InOrder(regions, items)
  {
    if regions == [] {
      SidesFollowOn(items);
    } else {
      var modules := ModulesFor(regions, items, |regions|);
      ModulesIncrease(regions, items, |regions|);
      ArrangedKnots(modules);
      if IsFlatHermite(modules) {
        assert modules[0] in modules && modules[1] in modules;
        var p, q := TwoModules(regions, items, |regions|);
        OnlyTheseTwo(regions, items, p, q);
      } else {
        StepsIncrease(Flattened(modules, |modules|));
        NotFlatThenHermite(regions, items);
      }
    }
  }

  lemma OnlyTheseTwo(regions: seq<RegionRow>, items: seq<KnotItem>, p: nat, q: nat)
    requires p < q < |regions| && forall i :: 0 <= i < |regions| ==> (Bare(regions, items, i) <==> i != p && i != q)
    requires IsFlatHermite(ModulesFor(regions, items, |regions|))
    ensures Increasing(Flattened(ModulesFor(regions, items, |regions|), 2)) <==> InOrder(regions, items)
  {
    ModulesOfTwo(regions, items, p, q, |regions|);
    TwoFlattened(ModulesFor(regions, items, |regions|));
    PiecesFollowOn(regions, items, p, q);
    assert FlatThenHermite(regions, items, p, q);
    forall r: nat, s: nat | FlatThenHermite(regions, items, r, s) ensures r == p && s == q {
      assert !Bare(regions, items, r) && !Bare(regions, items, s);
      assert !Bare(regions, items, p) && !Bare(regions, items, q);
    }
  }

  lemma NotFlatThenHermite(regions: seq<RegionRow>, items: seq<KnotItem>)
    requires !IsFlatHermite(ModulesFor(regions, items, |regions|))
    ensures forall p: nat, q: nat :: !FlatThenHermite(regions, items, p, q)
  {
    forall p: nat, q: nat ensures !FlatThenHermite(regions, items, p, q) {
      if FlatThenHermite(regions, items, p, q) {
        ModulesOfTwo(regions, items, p, q, |regions|);
      }
    }
  }

  function FirstTimes(s: seq<real>, n: nat): set<real>
    requires n <= |s|
  {
    set i | 0 <= i < n :: s[i]
  }

  lemma {:induction false} CountsItsTimes(s: seq<real>, n: nat)
    requires Increasing(s) && n <= |s|
    ensures |FirstTimes(s, n)| == n
  {
    if n > 0 {
      CountsItsTimes(s, n - 1);
      assert FirstTimes(s, n) == FirstTimes(s, n - 1) + {s[n - 1]};
    }
  }

  function ItemTimes(items: seq<KnotItem>): set<real> {
    set k | k in items :: k.t
  }

  /** A layout that increases strictly has one knot per distinct time among the items. */
  lemma OneKnotPerTime(regions: seq<RegionRow>, items: seq<KnotItem>)
    requires LayoutOf(regions, items).Ok? && Increasing(Knots(LayoutOf(regions, items).layout))
    ensures |Knots(LayoutOf(regions, items).layout)| == |ItemTimes(items)|
  {
    var knots := Knots(LayoutOf(regions, items).layout);
    CountsItsTimes(knots, |knots|);
    var times := FirstTimes(knots, |knots|);
    forall t ensures t in times <==> t in ItemTimes(items) {
      KnotsConserved(regions, items, t);
      assert t in times <==> t in knots;
    }
    assert times == ItemTimes(items);
  }

  /** The Flat-then-Hermite fast path returns before the check across regions: whatever the two regions are called, a
      front knot may lie after the back ones. */
  lemma FastPathSkipsTheCheck(front: string, back: string) returns (regions: seq<RegionRow>, items: seq<KnotItem>)
    requires front != back
    ensures DistinctIds(regions) && PoliciesKnown(regions) && LayoutOf(regions, items).Ok?
    ensures !Increasing(Knots(LayoutOf(regions, items).layout))
  {
    regions := [RegionRow(front, Some(Flat), None, None), RegionRow(back, Some(Hermite), None, None)];
    items := [KnotItem(5.0, Some(front), None), KnotItem(1.0, Some(back), None)];
    OneKnotEach(regions, items, 0);
    OneKnotEach(regions, items, 1);
    var m, n := Piece(regions, items, 0), Piece(regions, items, 1);
    assert ModulesFor(regions, items, 1) == [m];
    assert ModulesFor(regions, items, 2) == [m, n];
    var knots := Knots(LayoutOf(regions, items).layout);
    assert knots[0] == 5.0 && knots[1] == 1.0;
  }

  lemma {:induction false} OneKnotEach(regions: seq<RegionRow>, items: seq<KnotItem>, i: nat)
    requires |regions| == 2 && regions[0].id != regions[1].id && |items| == 2 && i < 2
    requires items[0].region == Some(regions[0].id) && items[1].region == Some(regions[1].id)
    ensures !Bare(regions, items, i) && Piece(regions, items, i).knots == [items[i].t]
    ensures Piece(regions, items, i).scheme == ValueOr(regions[i].policy, Hermite)
  {
    TimesEach(regions, items);
    SortsOne(items[i].t);
    SettingsEach(regions);
  }

  lemma {:induction false} SettingsEach(regions: seq<RegionRow>)
    requires |regions| == 2 && regions[0].id != regions[1].id
    ensures Settings(regions, 2, regions[0].id) == regions[0] && Settings(regions, 2, regions[1].id) == regions[1]
  {
    assert Settings(regions, 1, regions[0].id) == regions[0];
  }

  lemma {:induction false} TimesEach(regions: seq<RegionRow>, items: seq<KnotItem>)
    requires |regions| == 2 && regions[0].id != regions[1].id && |items| == 2
    requires items[0].region == Some(regions[0].id) && items[1].region == Some(regions[1].id)
    ensures TimesIn(regions, items, 2, regions[0].id) == [items[0].t]
    ensures TimesIn(regions, items, 2, regions[1].id) == [items[1].t]
  {
    var a, b := regions[0].id, regions[1].id;
    assert Home(regions, items[0]) == a && Home(regions, items[1]) == b;
    assert TimesIn(regions, items, 1, a) == [items[0].t];
    assert |TimesIn(regions, items, 1, b)| == 0;
  }

  lemma SortsOne(t: real)
    ensures SortDistinct([t]) == [t]
  {
    var none: seq<real> := [];
    assert SortFirst([t], 0) == none && LowerBound(none, t) == 0;
    assert Insert(t, none) == [t];
  }

  lemma {:induction false} ModulesGrow(regions: seq<RegionRow>, items: seq<KnotItem>, m: nat, n: nat)
    requires m <= n <= |regions|
    ensures ModulesFor(regions, items, m) <= ModulesFor(regions, items, n)
  {
    if m < n {
      ModulesGrow(regions, items, m, n - 1);
    }
  }

  /** Where a region's module stands. */
  lemma ModuleAt(regions: seq<RegionRow>, items: seq<KnotItem>, i: nat)
    requires i < |regions| && !Bare(regions, items, i)
    ensures var modules, at := ModulesFor(regions, items, |regions|), |ModulesFor(regions, items, i)|;
            at < |modules| && |ModulesFor(regions, items, i + 1)| == at + 1 && modules[at] == Piece(regions, items, i)
  {
    ModulesGrow(regions, items, i + 1, |regions|);
  }

  /** How many knots the first `p` modules have. */
  function Start(modules: seq<CurveModule>, p: nat): nat
    requires p <= |modules|
  {
    if p == 0 then 0 else Start(modules, p - 1) + |modules[p - 1].knots|
  }

  lemma {:induction false} StartGrows(modules: seq<CurveModule>, p: nat, q: nat)
    requires p <= q <= |modules|
    ensures Start(modules, p) <= Start(modules, q)
  {
    if p < q {
      StartGrows(modules, p, q - 1);
    }
  }

  /** Where a module's knot stands among the flattened knots. */
  lemma {:induction false} KnotAt(modules: seq<CurveModule>, p: nat, i: nat, n: nat)
    requires p < n <= |modules| && i < |modules[p].knots|
    ensures |Flattened(modules, n)| == Start(modules, n) && Start(modules, p) + i < |Flattened(modules, n)|
    ensures Flattened(modules, n)[Start(modules, p) + i] == modules[p].knots[i]
  {
    if p < n - 1 {
      KnotAt(modules, p, i, n - 1);
    } else {
      FlattenedLength(modules, n - 1);
    }
  }

  lemma {:induction false} FlattenedLength(modules: seq<CurveModule>, n: nat)
    requires n <= |modules|
    ensures |Flattened(modules, n)| == Start(modules, n)
  {
    if n > 0 {
      FlattenedLength(modules, n - 1);
    }
  }

  /** A knot in two modules stands twice among the flattened knots, so they do not step up. */
  lemma SharedKnotRefused(modules: seq<CurveModule>, p: nat, i: nat, q: nat, j: nat)
    requires p < q < |modules| && i < |modules[p].knots| && j < |modules[q].knots|
    requires modules[p].knots[i] == modules[q].knots[j]
    ensures !Steps(Flattened(modules, |modules|))
  {
    KnotAt(modules, p, i, |modules|);
    KnotAt(modules, q, j, |modules|);
    StartGrows(modules, p + 1, q);
    RepeatedDoesNotStep(Flattened(modules, |modules|), Start(modules, p) + i, Start(modules, q) + j);
  }

  lemma RepeatedDoesNotStep(s: seq<real>, i: nat, j: nat)
    requires i < j < |s| && s[i] == s[j]
    ensures !Steps(s)
  {
    if Steps(s) {
      StepsFar(s, i, j);
    }
  }

  /** Knot `at` of module `p` is `t`, under the given scheme. */
  predicate KnotOf(modules: seq<CurveModule>, p: nat, at: nat, t: real, scheme: Scheme) {
    p < |modules| && at < |modules[p].knots| && modules[p].knots[at] == t && modules[p].scheme == scheme
  }

  function SchemeOf(regions: seq<RegionRow>, id: string): Scheme
    requires regions != []
  {
    ValueOr(Settings(regions, |regions|, id).policy, Hermite)
  }

  /** Where a time that landed in a region stands among the modules. */
  lemma LandedKnot(regions: seq<RegionRow>, items: seq<KnotItem>, i: nat, id: string, t: real) returns (at: nat)
    requires i < |regions| && regions[i].id == id && LandsIn(regions, items, i, t)
    ensures |ModulesFor(regions, items, i + 1)| == |ModulesFor(regions, items, i)| + 1
    ensures KnotOf(ModulesFor(regions, items, |regions|), |ModulesFor(regions, items, i)|, at, t, SchemeOf(regions, id))
  {
    PieceHas(regions, items, i, t);
    ModuleAt(regions, items, i);
    at :| 0 <= at < |Piece(regions, items, i).knots| && Piece(regions, items, i).knots[at] == t;
  }

  lemma NotArranged(modules: seq<CurveModule>, p: nat, i: nat, q: nat, j: nat, t: real, scheme: Scheme)
    requires p < q && KnotOf(modules, p, i, t, scheme) && KnotOf(modules, q, j, t, scheme)
    ensures Arranged(modules).Err?
  {
    SharedKnotRefused(modules, p, i, q, j);
    if |modules| == 2 {
      assert p == 0 && q == 1;
    }
  }

  /** The module of a region that has knots comes before those of later rows. */
  lemma ModulesApart(regions: seq<RegionRow>, items: seq<KnotItem>, i: nat, j: nat)
    requires i < j < |regions| && |ModulesFor(regions, items, i + 1)| == |ModulesFor(regions, items, i)| + 1
    ensures |ModulesFor(regions, items, i)| < |ModulesFor(regions, items, j)|
  {
    CountsGrow(regions, items, i + 1, j);
  }

  lemma {:induction false} CountsGrow(regions: seq<RegionRow>, items: seq<KnotItem>, m: nat, n: nat)
    requires m <= n <= |regions|
    ensures |ModulesFor(regions, items, m)| <= |ModulesFor(regions, items, n)|
  {
    if m < n {
      CountsGrow(regions, items, m, n - 1);
    }
  }

  lemma SharedRegion(regions: seq<RegionRow>, items: seq<KnotItem>, i: nat, j: nat, id: string, t: real)
    requires i < j < |regions| && regions[i].id == id && regions[j].id == id
    requires LandsIn(regions, items, i, t) && LandsIn(regions, items, j, t)
    ensures Arranged(ModulesFor(regions, items, |regions|)).Err?
  {
    var a := LandedKnot(regions, items, i, id, t);
    var b := LandedKnot(regions, items, j, id, t);
    ModulesApart(regions, items, i, j);
    NotArranged(ModulesFor(regions, items, |regions|), |ModulesFor(regions, items, i)|, a,
                |ModulesFor(regions, items, j)|, b,
                t, SchemeOf(regions, id));
  }

  /** Two region rows with one id share their knots, so a curve with a knot there is always refused. */
  lemma SharedIdRefused(regions: seq<RegionRow>, items: seq<KnotItem>, i: nat, j: nat, k: nat)
    requires i < j < |regions| && regions[i].id == regions[j].id
    requires k < |items| && Home(regions, items[k]) == regions[i].id
    ensures LayoutOf(regions, items).Err?
  {
    TimesInHas(regions, items, |items|, regions[i].id, items[k].t);
    SharedRegion(regions, items, i, j, regions[i].id, items[k].t);
  }

  // ---- the program ----

  method CurveLayout(regions: seq<RegionRow>, items: seq<KnotItem>) returns (r: Result)
    ensures r == LayoutOf(regions, items)
  {
    if regions == [] {
      r := LegacyLayout(items);
      return;
    }
    var settings, buckets, known := ReadRegions(regions);
    if !known {
      return Err(UnknownPolicy);
    }
    buckets := Bucketed(regions, items, buckets);
    var modules := Modules(regions, items, settings, buckets);
    r := Finish(modules);
  }

  method Finish(modules: seq<CurveModule>) returns (r: Result)
    ensures r == Arranged(modules)
  {
    if |modules| == 0 {
      return Err(NoKnots);
    }
    if IsFlatHermite(modules) {
      return Ok(Classic(modules[0].knots, modules[1].knots, modules[1].regLambda));
    }
    var flat: seq<real> := [];
    var n := |modules|;
    for i := 0 to n
      invariant flat == Flattened(modules, i)
    {
      flat := flat + modules[i].knots;
    }
    var i := 1;
    while i < |flat|
      invariant 1 <= i && forall j :: 0 < j < i && j < |flat| ==> StepsUp(flat, j)
    {
      if !(flat[i] > flat[i - 1]) {
        assert !StepsUp(flat, i);
        return Err(NotIncreasing);
      }
      i := i + 1;
    }
    r := Ok(Modular(modules));
  }

  /** Every region's settings and bucket are in the tables. */
  ghost predicate Filled(regions: seq<RegionRow>, items: seq<KnotItem>, settings: map<string, RegionRow>,
                         buckets: map<string, seq<real>>) {
    && regions != []
    && (forall i :: 0 <= i < |regions| ==> regions[i].id in settings && regions[i].id in buckets)
    && (forall id :: id in settings ==> settings[id] == Settings(regions, |regions|, id))
    && (forall id :: id in buckets ==> buckets[id] == TimesIn(regions, items, |items|, id))
  }

  method Modules(regions: seq<RegionRow>, items: seq<KnotItem>, settings: map<string, RegionRow>, buckets: map<string,
                 seq<real>>)
    returns (modules: seq<CurveModule>)
    requires Filled(regions, items, settings, buckets)
    ensures modules == ModulesFor(regions, items, |regions|)
  {
    modules := [];
    var n := |regions|;
    for i := 0 to n
      invariant modules == ModulesFor(regions, items, i)
    {
      var id := regions[i].id;
      if |buckets[id]| != 0 {
        modules := modules + [ModuleOf(settings[id], buckets[id])];
      }
    }
  }

  method LegacyLayout(items: seq<KnotItem>) returns (r: Result)
    ensures r == LayoutOf([], items)
  {
    var front: seq<real>, back: seq<real> := [], [];
    var n := |items|;
    for i := 0 to n
      invariant front == Side(items, i, true) && back == Side(items, i, false)
    {
      if ValueOr(items[i].knotRegion, OtherWord).Front? {
        front := front + [items[i].t];
      } else {
        back := back + [items[i].t];
      }
    }
    r := Ok(Classic(SortDistinct(front), SortDistinct(back), UNSET_LAMBDA));
  }

  /** The settings of each region id, and an empty bucket for it; stops at the first unknown policy. */
  method ReadRegions(regions: seq<RegionRow>) returns (settings: map<string, RegionRow>, buckets: map<string,
                     seq<real>>, known: bool)
    requires regions != []
    ensures known <==> PoliciesKnown(regions)
    ensures known ==> forall id :: id in settings <==> IsId(regions, id)
    ensures known ==> forall id :: id in buckets <==> IsId(regions, id)
    ensures known ==> forall id :: id in settings ==> settings[id] == Settings(regions, |regions|, id)
    ensures known ==> forall id :: id in buckets ==> buckets[id] == []
  {
    settings, buckets := map[], map[];
    var n := |regions|;
    for i := 0 to n
      invariant forall j :: 0 <= j < i ==> regions[j].policy.Some?
      invariant settings.Keys == buckets.Keys
      invariant forall id :: id in settings <==> exists j :: 0 <= j < i && regions[j].id == id
      invariant forall id :: id in settings ==> i > 0 && settings[id] == Settings(regions, i, id)
      invariant forall id :: id in buckets ==> buckets[id] == []
    {
      var row := regions[i];
      if row.policy.None? {
        assert row in regions;
        return settings, buckets, false;
      }
      settings, buckets := settings[row.id := row], buckets[row.id := []];
    }
    known := true;
  }

  /** Every knot item pushed onto the bucket of its region. */
  method Bucketed(regions: seq<RegionRow>, items: seq<KnotItem>, empty: map<string, seq<real>>)
    returns (buckets: map<string, seq<real>>)
    requires regions != [] && forall id :: id in empty <==> IsId(regions, id)
    requires forall id :: id in empty ==> empty[id] == []
    ensures buckets.Keys == empty.Keys && forall id :: id in buckets ==>
      buckets[id] == TimesIn(regions, items, |items|, id)
  {
    buckets := empty;
    var n := |items|;
    for i := 0 to n
      invariant buckets.Keys == empty.Keys
      invariant forall id :: id in buckets ==> buckets[id] == TimesIn(regions, items, i, id)
    {
      var id := ValueOr(items[i].region, "");
      if id !in buckets {
        id := if ValueOr(items[i].knotRegion, Front).Front? then regions[0].id else regions[|regions| - 1].id;
      }
      assert id == Home(regions, items[i]);
      assert IsId(regions, id);
      buckets := buckets[id := buckets[id] + [items[i].t]];
    }
  }
}

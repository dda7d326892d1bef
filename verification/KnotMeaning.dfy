/** What a layout is made of: which region each knot goes to, which row's settings a region has, and what is refused. */
module KnotMeaning {
  import opened Curves
  import opened Grids
  import opened KnotLayout
  import opened Wrappers

  // ---- where a knot goes ----

  ghost predicate Has(regions: seq<RegionRow>, id: string) {
    exists i :: 0 <= i < |regions| && regions[i].id == id
  }

  /** The item's knot goes to region row i: the region the item names, when there is one; otherwise the first region,
      unless the item is marked for another side than the front, and then the last. */
  ghost predicate GoesTo(regions: seq<RegionRow>, item: KnotItem, i: nat)
    requires i < |regions|
  {
    if item.region.Some? && Has(regions, item.region.value) then regions[i].id == item.region.value
    else if item.region.None? && Has(regions, "") then regions[i].id == ""
    else if item.knotRegion == Some(OtherWord) then regions[i].id == regions[|regions| - 1].id
    else regions[i].id == regions[0].id
  }

  /** Some item puts a knot at t in region row i. */
  ghost predicate PutsKnot(regions: seq<RegionRow>, items: seq<KnotItem>, i: nat, t: real)
    requires i < |regions|
  {
    exists k :: 0 <= k < |items| && GoesTo(regions, items[k], i) && items[k].t == t
  }

  ghost predicate PutsNone(regions: seq<RegionRow>, items: seq<KnotItem>, i: nat)
    requires i < |regions|
  {
    forall k :: 0 <= k < |items| ==> !GoesTo(regions, items[k], i)
  }

  /** The last row with row i's id: the one whose settings count. */
  ghost predicate Governs(regions: seq<RegionRow>, i: nat, r: nat)
    requires i < |regions|
  {
    r < |regions| && regions[r].id == regions[i].id && forall j :: r < j < |regions| ==> regions[j].id != regions[i].id
  }

  /** Module m is region row i's: the times put there, ascending; the governing row's scheme, its smoothing weight
      (unset where it gives none), and on a Tension region its tension, negative ones cut to zero. */
  ghost predicate IsModule(regions: seq<RegionRow>, items: seq<KnotItem>, i: nat, m: CurveModule)
    requires i < |regions|
  {
    && Increasing(m.knots) && (forall t :: t in m.knots <==> PutsKnot(regions, items, i, t))
    && exists r: nat :: Governs(regions, i, r) && HasSettings(m, regions[r])
  }

  ghost predicate HasSettings(m: CurveModule, row: RegionRow) {
    && row.policy == Some(m.scheme) && m.regLambda == (if row.regLambda.Some? then row.regLambda.value else -1.0)
    && m.sigma == if m.scheme == Tension && row.sigma.Some? && row.sigma.value > 0.0 then row.sigma.value else 0.0
  }

  /** `rows` lists the region rows that got a knot, in order, and `modules` is their modules. */
  ghost predicate AreModules(regions: seq<RegionRow>, items: seq<KnotItem>, n: nat, rows: seq<nat>,
                             modules: seq<CurveModule>)
    requires n <= |regions|
  {
    && |modules| == |rows| && (forall p, q :: 0 <= p < q < |rows| ==> rows[p] < rows[q])
    && (forall p :: 0 <= p < |rows| ==> rows[p] < n && IsModule(regions, items, rows[p], modules[p]))
    && (forall i, t :: 0 <= i < n && PutsKnot(regions, items, i, t) ==> i in rows)
    && (forall p :: 0 <= p < |rows| ==> modules[p].knots != [])
  }

  lemma GoesHome(regions: seq<RegionRow>, item: KnotItem, i: nat)
    requires i < |regions|
    ensures GoesTo(regions, item, i) <==> Home(regions, item) == regions[i].id
  {
  }

  lemma PutsThere(regions: seq<RegionRow>, items: seq<KnotItem>, i: nat, t: real)
    requires i < |regions|
    ensures PutsKnot(regions, items, i, t) <==> LandsIn(regions, items, i, t)
  {
    TimesInHas(regions, items, |items|, regions[i].id, t);
    forall k | 0 <= k < |items| ensures GoesTo(regions, items[k], i) <==> Home(regions, items[k]) == regions[i].id {
      GoesHome(regions, items[k], i);
    }
  }

  lemma {:induction false} SettingsGovern(regions: seq<RegionRow>, n: nat, i: nat) returns (r: nat)
    requires i < n <= |regions|
    ensures r < n && Settings(regions, n, regions[i].id) == regions[r] && regions[r].id == regions[i].id
    ensures forall j :: r < j < n ==> regions[j].id != regions[i].id
    decreases n
  {
    if regions[n - 1].id == regions[i].id || n == 1 {
      r := n - 1;
    } else {
      r := SettingsGovern(regions, n - 1, i);
    }
  }

  lemma PieceIsModule(regions: seq<RegionRow>, items: seq<KnotItem>, i: nat)
    requires i < |regions| && PoliciesKnown(regions)
    ensures IsModule(regions, items, i, Piece(regions, items, i))
    ensures Bare(regions, items, i) <==> Piece(regions, items, i).knots == []
    ensures Bare(regions, items, i) ==> PutsNone(regions, items, i)
  {
    var m := Piece(regions, items, i);
    var r := SettingsGovern(regions, |regions|, i);
    PieceHas(regions, items, i, 0.0);
    forall t ensures t in m.knots <==> PutsKnot(regions, items, i, t) {
      PieceHas(regions, items, i, t);
      PutsThere(regions, items, i, t);
    }
    assert Governs(regions, i, r) && regions[r] in regions;
    if Bare(regions, items, i) {
      forall k | 0 <= k < |items| ensures !GoesTo(regions, items[k], i) {
        assert !PutsKnot(regions, items, i, items[k].t);
      }
    }
  }

  lemma {:induction false} ModulesForAre(regions: seq<RegionRow>, items: seq<KnotItem>, n: nat)
      returns (rows: seq<nat>)
    requires n <= |regions| && PoliciesKnown(regions)
    ensures AreModules(regions, items, n, rows, ModulesFor(regions, items, n))
    decreases n
  {
    if n == 0 {
      rows := [];
    } else {
      rows := ModulesForAre(regions, items, n - 1);
      rows := OneMoreRow(regions, items, n, rows);
    }
  }

  lemma OneMoreRow(regions: seq<RegionRow>, items: seq<KnotItem>, n: nat, rows: seq<nat>) returns (more: seq<nat>)
    requires 0 < n <= |regions| && PoliciesKnown(regions)
    requires AreModules(regions, items, n - 1, rows, ModulesFor(regions, items, n - 1))
    ensures AreModules(regions, items, n, more, ModulesFor(regions, items, n))
  {
    PieceIsModule(regions, items, n - 1);
    var modules := ModulesFor(regions, items, n - 1);
    if Bare(regions, items, n - 1) {
      more := rows;
      BareAdds(regions, items, n, rows, modules);
    } else {
      more := rows + [n - 1];
      PieceAdds(regions, items, n, rows, modules, Piece(regions, items, n - 1));
    }
  }

  lemma BareAdds(regions: seq<RegionRow>, items: seq<KnotItem>, n: nat, rows: seq<nat>, modules: seq<CurveModule>)
    requires 0 < n <= |regions| && AreModules(regions, items, n - 1, rows, modules)
    requires PutsNone(regions, items, n - 1)
    ensures AreModules(regions, items, n, rows, modules)
  {
  }

  lemma PieceAdds(regions: seq<RegionRow>, items: seq<KnotItem>, n: nat, rows: seq<nat>, modules: seq<CurveModule>,
                  m: CurveModule)
    requires 0 < n <= |regions| && AreModules(regions, items, n - 1, rows, modules)
    requires IsModule(regions, items, n - 1, m) && m.knots != []
    ensures AreModules(regions, items, n, rows + [n - 1], modules + [m])
  {
    forall i, t | 0 <= i < n && PutsKnot(regions, items, i, t) ensures i in rows + [n - 1] {
      if i < n - 1 {
        assert i in rows;
      }
    }
  }

  // ---- the layout ----

  ghost predicate AllBefore(a: seq<real>, b: seq<real>) {
    forall i, j :: 0 <= i < |a| && 0 <= j < |b| ==> a[i] < b[j]
  }

  /** Every knot of an earlier module comes before every knot of a later one. */
  ghost predicate InSuccession(modules: seq<CurveModule>) {
    forall p, q :: 0 <= p < q < |modules| ==> AllBefore(modules[p].knots, modules[q].knots)
  }

  lemma {:induction false} FlattenedBefore(modules: seq<CurveModule>, n: nat, back: seq<real>)
    requires n <= |modules|
    ensures AllBefore(Flattened(modules, n), back) <==> forall p :: 0 <= p < n ==> AllBefore(modules[p].knots, back)
  {
    if n > 0 {
      FlattenedBefore(modules, n - 1, back);
      ConcatBefore(Flattened(modules, n - 1), modules[n - 1].knots, back);
    }
  }

  lemma ConcatBefore(a: seq<real>, b: seq<real>, back: seq<real>)
    ensures AllBefore(a + b, back) <==> AllBefore(a, back) && AllBefore(b, back)
  {
    if AllBefore(a + b, back) {
      forall i, j | 0 <= i < |a| && 0 <= j < |back| ensures a[i] < back[j] {
        assert (a + b)[i] == a[i];
      }
      forall i, j | 0 <= i < |b| && 0 <= j < |back| ensures b[i] < back[j] {
        assert (a + b)[|a| + i] == b[i];
      }
    }
  }

  lemma PrefixIncreases(a: seq<real>, b: seq<real>)
    requires Increasing(a + b)
    ensures Increasing(a)
  {
    forall i, j | 0 <= i < j < |a| ensures a[i] < a[j] {
      assert (a + b)[i] == a[i] && (a + b)[j] == a[j];
    }
  }

  lemma {:induction false} FlattenedIncreasesIff(modules: seq<CurveModule>, n: nat)
    requires n <= |modules| && forall m :: m in modules ==> Increasing(m.knots)
    ensures Increasing(Flattened(modules, n)) <==> InSuccession(modules[..n])
  {
    if n > 0 {
      FlattenedIncreasesIff(modules, n - 1);
      var front, back := Flattened(modules, n - 1), modules[n - 1].knots;
      FlattenedBefore(modules, n - 1, back);
      if Increasing(front + back) {
        PrefixIncreases(front, back);
      }
      if Increasing(front) {
        FollowsOn(front, back);
      }
      assert forall p :: 0 <= p < n - 1 ==> modules[..n][p] == modules[..n - 1][p] == modules[p];
      assert modules[..n][n - 1] == modules[n - 1];
    }
  }

  ghost predicate TwoPieces(modules: seq<CurveModule>) {
    |modules| == 2 && modules[0].scheme == Flat && modules[1].scheme == Hermite
  }

  /** A spec without regions: the knots marked for the front, and all others at the back, no smoothing weight. */
  lemma LegacyMeans(items: seq<KnotItem>)
    ensures var r := LayoutOf([], items);
            && r.Ok? && r.layout.Classic? && r.layout.backLambda == -1.0
            && Increasing(r.layout.front) && Increasing(r.layout.back)
            && (forall t :: t in r.layout.front <==>
                  exists k :: 0 <= k < |items| && items[k].knotRegion == Some(Front) && items[k].t == t)
            && (forall t :: t in r.layout.back <==>
                  exists k :: 0 <= k < |items| && items[k].knotRegion != Some(Front) && items[k].t == t)
  {
    Sorts(Side(items, |items|, true));
    Sorts(Side(items, |items|, false));
    forall t, front
      ensures t in Side(items, |items|, front) <==>
              exists k :: 0 <= k < |items| && (items[k].knotRegion == Some(Front)) == front && items[k].t == t
    {
      SideIs(items, |items|, front, t);
    }
  }

  /** A spec with regions: an unknown policy is refused first; then a layout with no knot; a Flat piece before a Hermite
      one becomes the classic curve, keeping the Hermite row's own smoothing weight, and is not looked at further; any
      other list of modules is the layout, unless some knot of a later module does not come after those before. */
  lemma LayoutMeans(regions: seq<RegionRow>, items: seq<KnotItem>) returns (rows: seq<nat>, modules: seq<CurveModule>)
    requires regions != []
    ensures (exists i :: 0 <= i < |regions| && regions[i].policy.None?) ==>
              LayoutOf(regions, items) == Err(UnknownPolicy)
    ensures (forall i :: 0 <= i < |regions| ==> regions[i].policy.Some?) ==>
      && AreModules(regions, items, |regions|, rows, modules)
      && LayoutOf(regions, items) ==
         if modules == [] then Err(NoKnots)
         else if TwoPieces(modules) then Ok(Classic(modules[0].knots, modules[1].knots, modules[1].regLambda))
         else if InSuccession(modules) then Ok(Modular(modules)) else Err(NotIncreasing)
  {
    modules := ModulesFor(regions, items, |regions|);
    rows := [];
    if PoliciesKnown(regions) {
      rows := ModulesForAre(regions, items, |regions|);
      ModulesIncrease(regions, items, |regions|);
      FlattenedIncreasesIff(modules, |modules|);
      assert modules[..|modules|] == modules;
      if Steps(Flattened(modules, |modules|)) {
        StepsIncrease(Flattened(modules, |modules|));
      }
    } else {
      var r :| r in regions && r.policy.None?;
    }
  }
}

/** Where each curve stands in the compiler's order: at the first row that asks for it, directly or through a chain of
    bases, and, of the curves one row asks for, base first. */
module CurveDemand {
  import opened CurveOrder

  /** Following bases from id `a` comes to id `b`. */
  ghost predicate Reaches(rows: Rows, a: string, b: string) {
    exists ids :: Leads(rows, ids, a, b)
  }

  ghost predicate Leads(rows: Rows, ids: seq<string>, a: string, b: string) {
    ids != [] && ids[0] == a && ids[|ids| - 1] == b && IsChain(rows, ids)
  }

  lemma ReachesItself(rows: Rows, a: string)
    ensures Reaches(rows, a, a)
  {
    assert Leads(rows, [a], a, a);
  }

  lemma ReachesThroughBase(rows: Rows, a: string, b: string)
    requires a in rows && HasBase(rows[a]) && Reaches(rows, rows[a].base, b)
    ensures Reaches(rows, a, b)
  {
    var ids :| Leads(rows, ids, rows[a].base, b);
    var longer := [a] + ids;
    forall i | 0 <= i < |longer| - 1
      ensures longer[i] in rows && HasBase(rows[longer[i]]) && rows[longer[i]].base == longer[i + 1]
    {
      if i > 0 {
        assert ids[i - 1] in rows && rows[ids[i - 1]].base == ids[i];
      }
    }
    assert Leads(rows, longer, a, b);
  }

  /** What a good order holds it holds down to the last base. */
  lemma {:induction false} HoldsItsBases(rows: Rows, order: seq<string>, ids: seq<string>, a: string, b: string)
    requires Ordered(rows, order) && a in order && Leads(rows, ids, a, b)
    ensures b in order
    decreases |ids|
  {
    if |ids| > 1 {
      var i :| 0 <= i < |order| && order[i] == a;
      assert BaseBefore(rows, order, i);
      assert ids[0] in rows && rows[ids[0]].base == ids[1];
      var rest := ids[1..];
      forall j | 0 <= j < |rest| - 1
        ensures rest[j] in rows && HasBase(rows[rest[j]]) && rows[rest[j]].base == rest[j + 1]
      {
        assert rest[j] == ids[j + 1];
      }
      HoldsItsBases(rows, order, rest, ids[1], b);
    }
  }

  /** Of two curves one visit adds, the later leads down to the earlier. */
  ghost predicate Stacked(rows: Rows, added: seq<string>) {
    forall s, t :: 0 <= s <= t < |added| ==> Reaches(rows, added[t], added[s])
  }

  /** A visit adds the unlisted curves on the chain of bases below its id, base first. */
  lemma {:induction false} VisitAdds(rows: Rows, order: seq<string>, stack: set<string>, cid: string)
      returns (added: seq<string>)
    requires Ordered(rows, order) && Visit(rows, order, stack, cid).Ok?
    ensures Visit(rows, order, stack, cid).value == order + added && Stacked(rows, added)
    ensures forall t :: 0 <= t < |added| ==> Reaches(rows, cid, added[t])
    decreases |rows.Keys - stack|
  {
    if cid in order {
      added := [];
      assert order + added == order;
    } else {
      Deeper(rows, stack, cid);
      var before: seq<string> := [];
      if HasBase(rows[cid]) {
        before := VisitAdds(rows, order, stack + {cid}, rows[cid].base);
      }
      added := before + [cid];
      assert order + added == order + before + [cid];
      forall t | 0 <= t < |added| ensures Reaches(rows, cid, added[t]) {
        if t < |before| {
          ReachesThroughBase(rows, cid, added[t]);
        } else {
          ReachesItself(rows, cid);
        }
      }
      forall s, t | 0 <= s <= t < |added| ensures Reaches(rows, added[t], added[s]) {
      }
    }
  }

  /** Row k asks for the curve. */
  ghost predicate Asks(rows: Rows, curves: seq<CurveRow>, k: nat, id: string)
    requires k < |curves|
  {
    Reaches(rows, curves[k].id, id)
  }

  /** Some row asks for `a` before any row asks for `b`, or both are first asked for by one row, and b is spread off a,
      directly or through other curves. */
  ghost predicate AskedFirst(rows: Rows, curves: seq<CurveRow>, a: string, b: string) {
    exists k :: 0 <= k < |curves| && Asks(rows, curves, k, a) && (forall l :: 0 <= l < k ==> !Asks(rows, curves, l, b))
                && (Asks(rows, curves, k, b) ==> Reaches(rows, b, a))
  }

  /** The order after the first `n` rows: what they ask for, in order of asking. */
  ghost predicate AsAsked(rows: Rows, curves: seq<CurveRow>, n: nat, order: seq<string>)
    requires n <= |curves|
  {
    && Ordered(rows, order)
    && (forall id :: id in order <==> exists k :: 0 <= k < n && Asks(rows, curves, k, id))
    && forall p, q :: 0 <= p < q < |order| ==> AskedFirst(rows, curves, order[p], order[q])
  }

  lemma NextRowAsks(rows: Rows, curves: seq<CurveRow>, n: nat, order: seq<string>)
    requires n < |curves| && AsAsked(rows, curves, n, order) && Visit(rows, order, {}, curves[n].id).Ok?
    ensures AsAsked(rows, curves, n + 1, Visit(rows, order, {}, curves[n].id).value)
  {
    var cid := curves[n].id;
    var r := Visit(rows, order, {}, cid).value;
    VisitKeepsOrder(rows, order, {}, cid);
    var added := VisitAdds(rows, order, {}, cid);
    forall id ensures id in r <==> exists k :: 0 <= k < n + 1 && Asks(rows, curves, k, id) {
      if id in r && id !in order {
        var t :| 0 <= t < |added| && added[t] == id;
        assert Asks(rows, curves, n, id);
      }
      if Asks(rows, curves, n, id) {
        var ids :| Leads(rows, ids, cid, id);
        HoldsItsBases(rows, r, ids, cid, id);
      }
    }
    forall t | 0 <= t < |added| ensures added[t] !in order {
      assert r[|order| + t] == added[t] && order == r[..|order|];
    }
    forall p, q | 0 <= p < q < |r| ensures AskedFirst(rows, curves, r[p], r[q]) {
      NextRowOrders(rows, curves, n, order, added, p, q);
    }
  }

  lemma NextRowOrders(rows: Rows, curves: seq<CurveRow>, n: nat, order: seq<string>, added: seq<string>, p: nat, q: nat)
    requires n < |curves| && AsAsked(rows, curves, n, order) && Stacked(rows, added)
    requires forall t :: 0 <= t < |added| ==> Reaches(rows, curves[n].id, added[t]) && added[t] !in order
    requires p < q < |order + added|
    ensures AskedFirst(rows, curves, (order + added)[p], (order + added)[q])
  {
    var a, b := (order + added)[p], (order + added)[q];
    if q < |order| {
      assert a == order[p] && b == order[q];
    } else {
      assert b == added[q - |order|] && b !in order;
      if p < |order| {
        assert a in order;
        var k :| 0 <= k < n && Asks(rows, curves, k, a);
        assert forall l :: 0 <= l < n ==> !Asks(rows, curves, l, b);
      } else {
        assert a == added[p - |order|] && a !in order;
        assert Asks(rows, curves, n, a) && Reaches(rows, b, a);
        assert forall l :: 0 <= l < n ==> !Asks(rows, curves, l, b);
      }
    }
  }

  lemma {:induction false} RowsAsk(rows: Rows, curves: seq<CurveRow>, n: nat, order: seq<string>)
    requires n <= |curves| && AsAsked(rows, curves, n, order) && VisitAll(rows, curves[n..], order).Ok?
    ensures AsAsked(rows, curves, |curves|, VisitAll(rows, curves[n..], order).value)
    decreases |curves| - n
  {
    if n < |curves| {
      assert curves[n..][0] == curves[n] && curves[n..][1..] == curves[n + 1..];
      NextRowAsks(rows, curves, n, order);
      RowsAsk(rows, curves, n + 1, Visit(rows, order, {}, curves[n].id).value);
    }
  }

  /** The whole order: a curve stands before another exactly as the rows ask for them. */
  lemma OrderIsAsAsked(curves: seq<CurveRow>)
    requires Order(curves).Ok?
    ensures AsAsked(ById(curves), curves, |curves|, Order(curves).value)
  {
    assert curves[0..] == curves;
    RowsAsk(ById(curves), curves, 0, []);
  }

  /** Curves that have no base stand in the order their ids are first met. */
  lemma {:induction false} UnrelatedInRowOrder(curves: seq<CurveRow>, i: nat, j: nat)
    requires Order(curves).Ok? && forall c :: c in curves ==> !HasBase(ById(curves)[c.id])
    requires i < |curves| && j < |curves| && forall l :: 0 <= l <= i ==> curves[l].id != curves[j].id
    ensures var order := Order(curves).value;
            curves[i].id in order && curves[j].id in order
            && IndexOf(order, curves[i].id) < IndexOf(order, curves[j].id)
  {
    var rows, order, a, b := ById(curves), Order(curves).value, curves[i].id, curves[j].id;
    OrderSound(curves);
    assert curves[i] in curves && curves[j] in curves;
    OrderIsAsAsked(curves);
    NotAskedFirst(rows, curves, i, b);
    StandsBefore(rows, curves, order, IndexOf(order, a), IndexOf(order, b));
  }

  lemma StandsBefore(rows: Rows, curves: seq<CurveRow>, order: seq<string>, p: nat, q: nat)
    requires AsAsked(rows, curves, |curves|, order) && p < |order| && q < |order| && order[p] != order[q]
    requires !AskedFirst(rows, curves, order[q], order[p])
    ensures p < q
  {
  }

  lemma {:induction false} NotAskedFirst(rows: Rows, curves: seq<CurveRow>, i: nat, b: string)
    requires forall c :: c in curves ==> c.id in rows && !HasBase(rows[c.id])
    requires i < |curves| && forall l :: 0 <= l <= i ==> curves[l].id != b
    ensures !AskedFirst(rows, curves, b, curves[i].id)
  {
    forall k | 0 <= k < |curves| && Asks(rows, curves, k, b) ensures k > i {
      assert curves[k] in curves;
      NoBaseReachesOnlyItself(rows, curves[k].id, b);
    }
    ReachesItself(rows, curves[i].id);
    assert Asks(rows, curves, i, curves[i].id);
  }

  lemma NoBaseReachesOnlyItself(rows: Rows, a: string, b: string)
    requires Reaches(rows, a, b) && a in rows && !HasBase(rows[a])
    ensures a == b
  {
    var ids :| Leads(rows, ids, a, b);
    assert ids[0] == a;
  }
}

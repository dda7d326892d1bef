/** The compiler's curve order (api/compile.cpp, order_curves): a depth-first walk along spread bases that succeeds
    exactly when every base exists and no chain of bases returns. */
module CurveOrder {
  datatype Result<T> = Ok(value: T) | Err(why: Refusal)
  datatype Refusal = SpreadCycle | MissingBase

  /** A curve of the composer's spec, as far as ordering reads it; an absent base is the empty string. */
  datatype CurveRow = CurveRow(id: string, spread: bool, base: string)

  type Rows = map<string, CurveRow>

  predicate HasBase(c: CurveRow) {
    c.spread && c.base != ""
  }

  /** The table of curves by id: of two rows with one id, the later. */
  function ById(curves: seq<CurveRow>): (rows: Rows)
    ensures forall id :: id in rows <==> exists i :: 0 <= i < |curves| && curves[i].id == id
    ensures forall id :: id in rows ==> rows[id].id == id
  {
    if curves == [] then map[] else
      var last := curves[|curves| - 1];
      assert forall i :: 0 <= i < |curves| - 1 ==> curves[..|curves| - 1][i] == curves[i];
      ById(curves[..|curves| - 1])[last.id := last]
  }

  lemma {:induction false} LaterRowWins(curves: seq<CurveRow>, i: nat)
    requires i < |curves| && forall j :: i < j < |curves| ==> curves[j].id != curves[i].id
    ensures curves[i].id in ById(curves) && ById(curves)[curves[i].id] == curves[i]
  {
    if i < |curves| - 1 {
      LaterRowWins(curves[..|curves| - 1], i);
    }
  }

  // ---- the walk, as a function ----

  /** The order after visiting `cid`, whose dependents are on the stack. */
  function Visit(rows: Rows, order: seq<string>, stack: set<string>, cid: string): Result<seq<string>>
    decreases |rows.Keys - stack|
  {
    if cid in order then Ok(order)
    else if cid in stack then Err(SpreadCycle)
    else if cid !in rows then Err(MissingBase)
    else
      Deeper(rows, stack, cid);
      var before := if HasBase(rows[cid]) then Visit(rows, order, stack + {cid}, rows[cid].base) else Ok(order);
      if before.Err? then before else Ok(before.value + [cid])
  }

  lemma Deeper(rows: Rows, stack: set<string>, cid: string)
    requires cid in rows && cid !in stack
    ensures |rows.Keys - (stack + {cid})| < |rows.Keys - stack|
  {
    assert rows.Keys - stack == (rows.Keys - (stack + {cid})) + {cid};
  }

  function VisitAll(rows: Rows, curves: seq<CurveRow>, order: seq<string>): Result<seq<string>>
    decreases |curves|
  {
    if curves == [] then Ok(order) else
      var r := Visit(rows, order, {}, curves[0].id);
      if r.Err? then r else VisitAll(rows, curves[1..], r.value)
  }

  function Order(curves: seq<CurveRow>): Result<seq<string>> {
    VisitAll(ById(curves), curves, [])
  }

  function Nodes(ids: seq<string>): set<string> {
    set id | id in ids
  }

  // ---- what a good order is ----

  ghost predicate BaseBefore(rows: Rows, order: seq<string>, i: nat)
    requires i < |order|
  {
    order[i] in rows && (HasBase(rows[order[i]]) ==> rows[order[i]].base in order[..i])
  }

  /** Every id at most once, each known, each after its base. */
  ghost predicate Ordered(rows: Rows, order: seq<string>) {
    && (forall i, j :: 0 <= i < j < |order| ==> order[i] != order[j])
    && forall i :: 0 <= i < |order| ==> BaseBefore(rows, order, i)
  }

  ghost predicate AllBasesExist(rows: Rows) {
    forall id :: id in rows && HasBase(rows[id]) ==> rows[id].base in rows
  }

  /** Each id of the chain is spread off the next. */
  ghost predicate IsChain(rows: Rows, ids: seq<string>) {
    forall i :: 0 <= i < |ids| - 1 ==> ids[i] in rows && HasBase(rows[ids[i]]) && rows[ids[i]].base == ids[i + 1]
  }

  ghost predicate IsLoop(rows: Rows, ids: seq<string>) {
    |ids| >= 2 && ids[0] == ids[|ids| - 1] && IsChain(rows, ids)
  }

  // ---- success ----

  lemma {:induction false} VisitKeepsOrder(rows: Rows, order: seq<string>, stack: set<string>, cid: string)
    requires Ordered(rows, order)
    requires Visit(rows, order, stack, cid).Ok?
    ensures var r := Visit(rows, order, stack, cid).value;
            Ordered(rows, r) && order <= r && cid in r && forall id :: id in stack && id !in order ==> id !in r
    decreases |rows.Keys - stack|
  {
    if cid !in order {
      Deeper(rows, stack, cid);
      var before := order;
      if HasBase(rows[cid]) {
        VisitKeepsOrder(rows, order, stack + {cid}, rows[cid].base);
        before := Visit(rows, order, stack + {cid}, rows[cid].base).value;
      }
      Append(rows, before, cid);
    }
  }

  lemma Append(rows: Rows, order: seq<string>, cid: string)
    requires Ordered(rows, order) && cid !in order && cid in rows
    requires HasBase(rows[cid]) ==> rows[cid].base in order
    ensures Ordered(rows, order + [cid])
  {
    var r := order + [cid];
    forall i | 0 <= i < |r| ensures BaseBefore(rows, r, i) {
      if i < |order| {
        assert BaseBefore(rows, order, i);
        assert r[..i] == order[..i];
      } else {
        assert r[..i] == order;
      }
    }
  }

  lemma {:induction false} VisitAllKeepsOrder(rows: Rows, curves: seq<CurveRow>, order: seq<string>)
    requires Ordered(rows, order) && VisitAll(rows, curves, order).Ok?
    ensures var r := VisitAll(rows, curves, order).value;
            Ordered(rows, r) && order <= r && forall c :: c in curves ==> c.id in r
    decreases |curves|
  {
    if curves != [] {
      VisitKeepsOrder(rows, order, {}, curves[0].id);
      VisitAllKeepsOrder(rows, curves[1..], Visit(rows, order, {}, curves[0].id).value);
    }
  }

  /** A produced order holds each distinct id once, nothing else, and every base before its dependents. */
  lemma OrderSound(curves: seq<CurveRow>)
    requires Order(curves).Ok?
    ensures Ordered(ById(curves), Order(curves).value)
    ensures forall id :: id in Order(curves).value <==> id in ById(curves)
  {
    var rows, r := ById(curves), Order(curves).value;
    VisitAllKeepsOrder(rows, curves, []);
    forall id ensures id in r <==> id in rows {
      if id in r {
        var i :| 0 <= i < |r| && r[i] == id;
        assert BaseBefore(rows, r, i);
      }
    }
  }

  // ---- failure ----

  lemma ChainCloses(rows: Rows, path: seq<string>, cid: string)
    requires IsChain(rows, path + [cid]) && cid in path
    ensures exists ids :: IsLoop(rows, ids)
  {
    var whole := path + [cid];
    var i :| 0 <= i < |path| && path[i] == cid;
    var ids := whole[i..];
    forall j | 0 <= j < |ids| - 1 ensures ids[j] in rows && HasBase(rows[ids[j]]) && rows[ids[j]].base == ids[j + 1] {
      assert ids[j] == whole[i + j] && ids[j + 1] == whole[i + j + 1];
    }
    assert IsLoop(rows, ids);
  }

  lemma ChainDangles(rows: Rows, path: seq<string>, cid: string)
    requires IsChain(rows, path + [cid]) && path != [] && cid !in rows
    ensures !AllBasesExist(rows)
  {
    var whole := path + [cid];
    var last := whole[|path| - 1];
    assert whole[|path| - 1 + 1] == cid;
    assert last in rows && HasBase(rows[last]) && rows[last].base == cid;
  }

  lemma ChainGrows(rows: Rows, path: seq<string>, cid: string)
    requires IsChain(rows, path + [cid]) && cid in rows && HasBase(rows[cid])
    ensures IsChain(rows, path + [cid] + [rows[cid].base])
  {
    var next := path + [cid];
    var whole := next + [rows[cid].base];
    forall i | 0 <= i < |next| ensures next[i] in rows && HasBase(rows[next[i]]) && rows[next[i]].base == whole[i + 1] {
      if i < |path| {
        assert next[i + 1] == whole[i + 1];
      }
    }
  }

  /** A refused visit below the chain `path` exhibits what is wrong: a base no row has, or a loop of bases. */
  lemma {:induction false} VisitRefused(rows: Rows, order: seq<string>, path: seq<string>, cid: string)
    requires IsChain(rows, path + [cid]) && (path == [] ==> cid in rows)
    requires Visit(rows, order, Nodes(path), cid).Err?
    ensures match Visit(rows, order, Nodes(path), cid).why
            case MissingBase => !AllBasesExist(rows)
            case SpreadCycle => exists ids :: IsLoop(rows, ids)
    decreases |rows.Keys - Nodes(path)|
  {
    if cid in path {
      ChainCloses(rows, path, cid);
    } else if cid !in rows {
      ChainDangles(rows, path, cid);
    } else {
      Deeper(rows, Nodes(path), cid);
      assert Nodes(path + [cid]) == Nodes(path) + {cid};
      ChainGrows(rows, path, cid);
      VisitRefused(rows, order, path + [cid], rows[cid].base);
    }
  }

  lemma {:induction false} VisitAllRefused(rows: Rows, curves: seq<CurveRow>, order: seq<string>)
    requires forall c :: c in curves ==> c.id in rows
    requires VisitAll(rows, curves, order).Err?
    ensures match VisitAll(rows, curves, order).why
            case MissingBase => !AllBasesExist(rows)
            case SpreadCycle => exists ids :: IsLoop(rows, ids)
    decreases |curves|
  {
    var r := Visit(rows, order, {}, curves[0].id);
    if r.Err? {
      assert Nodes([]) == {};
      VisitRefused(rows, order, [], curves[0].id);
    } else {
      VisitAllRefused(rows, curves[1..], r.value);
    }
  }

  /** In a good order the bases of a chain stand at ever smaller positions, so no chain returns. */
  lemma {:induction false} ChainDescends(rows: Rows, order: seq<string>, ids: seq<string>) returns (first: nat,
                                         last: nat)
    requires Ordered(rows, order) && (forall id :: id in rows ==> id in order)
    requires |ids| >= 2 && IsChain(rows, ids)
    ensures last < first < |order| && order[first] == ids[0] && order[last] == ids[|ids| - 1]
    decreases |ids|
  {
    assert ids[0] in rows && rows[ids[0]].base == ids[1];
    first :| 0 <= first < |order| && order[first] == ids[0];
    assert BaseBefore(rows, order, first);
    assert ids[1] in order[..first];
    last :| 0 <= last < first && order[last] == ids[1];
    if |ids| > 2 {
      forall i | 0 <= i < |ids| - 2
        ensures ids[1..][i] in rows && HasBase(rows[ids[1..][i]]) && rows[ids[1..][i]].base == ids[1..][i + 1]
      {
        assert ids[1..][i] == ids[i + 1];
      }
      var next, end := ChainDescends(rows, order, ids[1..]);
      assert next == last;
      last := end;
    }
  }

  /** The walk succeeds exactly when every base exists and no chain of bases returns. */
  lemma OrderedIff(curves: seq<CurveRow>)
    ensures Order(curves).Ok? <==> AllBasesExist(ById(curves)) && !exists ids :: IsLoop(ById(curves), ids)
  {
    var rows := ById(curves);
    if Order(curves).Ok? {
      OrderSound(curves);
      var order := Order(curves).value;
      forall id | id in rows && HasBase(rows[id]) ensures rows[id].base in rows {
        var i :| 0 <= i < |order| && order[i] == id;
        assert BaseBefore(rows, order, i);
        assert rows[id].base in order;
      }
      forall ids ensures !IsLoop(rows, ids) {
        if IsLoop(rows, ids) {
          var first, last := ChainDescends(rows, order, ids);
        }
      }
    } else {
      VisitAllRefused(rows, curves, []);
    }
  }

  /** Where an id stands in an order. */
  function IndexOf(order: seq<string>, id: string): (i: nat)
    requires id in order
    ensures i < |order| && order[i] == id
  {
    if order[0] == id then 0 else 1 + IndexOf(order[1..], id)
  }

  /** A curve's base is compiled before it, so the compiler's "comes after it" refusal never fires. */
  lemma BaseComesFirst(curves: seq<CurveRow>, id: string)
    requires Order(curves).Ok? && id in ById(curves) && HasBase(ById(curves)[id])
    ensures var order := Order(curves).value;
            id in order && ById(curves)[id].base in order && IndexOf(order, ById(curves)[id].base) < IndexOf(order, id)
  {
    OrderSound(curves);
    var rows, order := ById(curves), Order(curves).value;
    var i := IndexOf(order, id);
    assert BaseBefore(rows, order, i);
    var j :| 0 <= j < i && order[j] == rows[id].base;
    var at := IndexOf(order, rows[id].base);
    assert at == j;
  }

  // ---- the program ----

  class Orderer {
    const rows: Rows
    var seen: set<string>
    var stack: set<string>
    var order: seq<string>

    ghost predicate Valid()
      reads this
    {
      seen == Nodes(order)
    }

    constructor (rows: Rows)
      ensures Valid() && this.rows == rows && order == [] && stack == {}
    {
      this.rows, seen, stack, order := rows, {}, {}, [];
    }

    /** The recursive visitor. A refusal is an exception: what it leaves behind is never read. */
    method Enter(cid: string) returns (refused: seq<Refusal>)
      requires Valid()
      modifies this
      ensures refused == match Visit(rows, old(order), old(stack), cid) case Ok(_) => [] case Err(why) => [why]
      ensures refused == [] ==> Valid() && stack == old(stack) && Ok(order) == Visit(rows, old(order), old(stack), cid)
      decreases |rows.Keys - stack|
    {
      if cid in seen {
        return [];
      }
      if cid in stack {
        return [SpreadCycle];
      }
      if cid !in rows {
        return [MissingBase];
      }
      Deeper(rows, stack, cid);
      stack := stack + {cid};
      if HasBase(rows[cid]) {
        refused := Enter(rows[cid].base);
        if refused != [] {
          return;
        }
      }
      stack := stack - {cid};
      seen := seen + {cid};
      order := order + [cid];
      refused := [];
    }
  }

  method OrderCurves(curves: seq<CurveRow>) returns (r: Result<seq<CurveRow>>)
    ensures r.Ok? <==> Order(curves).Ok?
    ensures r.Err? ==> r.why == Order(curves).why
    ensures r.Ok? ==>
      (forall id :: id in Order(curves).value ==> id in ById(curves))
      && r.value == Looked(ById(curves), Order(curves).value)
  {
    var rows: Rows := map[];
    var n := |curves|;
    for i := 0 to n
      invariant rows == ById(curves[..i])
    {
      assert curves[..i + 1][..i] == curves[..i];
      rows := rows[curves[i].id := curves[i]];
    }
    assert curves[..n] == curves;
    var walk := new Orderer(rows);
    for i := 0 to n
      invariant walk.Valid() && walk.stack == {} && walk.rows == rows
      invariant VisitAll(rows, curves, []) == VisitAll(rows, curves[i..], walk.order)
    {
      assert curves[i..][1..] == curves[i + 1..];
      var refused := walk.Enter(curves[i].id);
      if refused != [] {
        return Err(refused[0]);
      }
    }
    OrderSound(curves);
    r := Ok(Looked(rows, walk.order));
  }

  function Looked(rows: Rows, order: seq<string>): (r: seq<CurveRow>)
    requires forall id :: id in order ==> id in rows
    ensures |r| == |order| && forall i :: 0 <= i < |r| ==> r[i] == rows[order[i]]
  {
    seq(|order|, i requires 0 <= i < |order| => rows[order[i]])
  }
}

/** Real lists sorted and stripped of duplicates, and the first position at or above a value. */
module Grids {
  ghost predicate Increasing(s: seq<real>) {
    forall i, j :: 0 <= i < j < |s| ==> s[i] < s[j]
  }

  /** `std::lower_bound`. */
  function LowerBound(s: seq<real>, t: real): nat {
    LowerBoundFrom(s, t, 0)
  }

  function LowerBoundFrom(s: seq<real>, t: real, i: nat): nat
    decreases |s| - i
  {
    if i >= |s| || t <= s[i] then i else LowerBoundFrom(s, t, i + 1)
  }

  lemma {:induction false} LowerBoundFromIs(s: seq<real>, t: real, i: nat)
    requires i <= |s|
    ensures var at := LowerBoundFrom(s, t, i);
            i <= at <= |s| && (forall j :: i <= j < at ==> s[j] < t) && (at < |s| ==> t <= s[at])
    decreases |s| - i
  {
    if i < |s| && s[i] < t {
      LowerBoundFromIs(s, t, i + 1);
    }
  }

  /** A time that is on the grid is found exactly, not merely bracketed. */
  lemma LowerBoundHits(s: seq<real>, t: real)
    requires Increasing(s) && t in s
    ensures LowerBound(s, t) < |s| && s[LowerBound(s, t)] == t
  {
    LowerBoundFromIs(s, t, 0);
    var k :| 0 <= k < |s| && s[k] == t;
    assert LowerBound(s, t) <= k;
  }

  function Insert(t: real, s: seq<real>): seq<real> {
    var at := LowerBound(s, t);
    if at < |s| && s[at] == t then s
    else if at <= |s| then s[..at] + [t] + s[at..]
    else s
  }

  /** `std::sort`, then `erase(unique(...))`. */
  function SortDistinct(s: seq<real>): seq<real> {
    SortFirst(s, |s|)
  }

  function SortFirst(s: seq<real>, n: nat): seq<real>
    requires n <= |s|
  {
    if n == 0 then [] else Insert(s[n - 1], SortFirst(s, n - 1))
  }

  lemma Inserts(t: real, s: seq<real>)
    requires Increasing(s)
    ensures Increasing(Insert(t, s))
    ensures forall u :: u in Insert(t, s) <==> u == t || u in s
  {
    LowerBoundFromIs(s, t, 0);
    var at := LowerBound(s, t);
    if !(at < |s| && s[at] == t) {
      InsertsAt(t, s, at);
    }
  }

  lemma InsertsAt(t: real, s: seq<real>, at: nat)
    requires Increasing(s) && at <= |s|
    requires (forall j :: 0 <= j < at ==> s[j] < t) && (at < |s| ==> t < s[at])
    ensures var r := s[..at] + [t] + s[at..]; Increasing(r) && forall u :: u in r <==> u == t || u in s
  {
    var r := s[..at] + [t] + s[at..];
    forall i, j | 0 <= i < j < |r| ensures r[i] < r[j] {
      assert r[j] == if j < at then s[j] else if j == at then t else s[j - 1];
      assert r[i] == if i < at then s[i] else if i == at then t else s[i - 1];
    }
    forall u ensures u in r <==> u == t || u in s {
      assert r[at] == t;
      if i :| 0 <= i < |s| && s[i] == u {
        assert r[if i < at then i else i + 1] == u;
      }
    }
  }

  lemma {:induction false} SortsFirst(s: seq<real>, n: nat)
    requires n <= |s|
    ensures Increasing(SortFirst(s, n))
    ensures forall t :: t in SortFirst(s, n) <==> exists i :: 0 <= i < n && s[i] == t
  {
    if n > 0 {
      SortsFirst(s, n - 1);
      Inserts(s[n - 1], SortFirst(s, n - 1));
    }
  }

  /** The result increases strictly and holds exactly the given values. */
  lemma Sorts(s: seq<real>)
    ensures Increasing(SortDistinct(s))
    ensures forall t :: t in SortDistinct(s) <==> t in s
  {
    SortsFirst(s, |s|);
  }
}

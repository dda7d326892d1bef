/** The text a session files its compiled surfaces under, and when two requests can share one. */
module VolKey {
  import opened VolModel
  import opened Wrappers

  // ---- decimal text (std::to_string) ----

  const DIGITS := "0123456789"

  function Digits(n: nat): string {
    if n < 10 then [DIGITS[n]] else Digits(n / 10) + [DIGITS[n % 10]]
  }

  function Decimal(i: int): string {
    if i < 0 then "-" + Digits(-i) else Digits(i)
  }

  predicate IsNumeral(s: string) {
    forall c :: c in s ==> c in DIGITS || c == '-'
  }

  lemma {:induction false} DigitsInjective(m: nat, n: nat)
    requires Digits(m) == Digits(n)
    ensures m == n
  {
    DigitsPlain(m);
    DigitsPlain(n);
    var last := |Digits(m)| - 1;
    assert Digits(m)[last] == DIGITS[m % 10] && Digits(n)[last] == DIGITS[n % 10];
    assert m % 10 == n % 10;
    if m >= 10 {
      assert Digits(m)[..last] == Digits(m / 10) && Digits(n)[..last] == Digits(n / 10);
      DigitsInjective(m / 10, n / 10);
    }
  }

  lemma {:induction false} DigitsPlain(n: nat)
    ensures Digits(n) != [] && (|Digits(n)| == 1 <==> n < 10)
    ensures forall c :: c in Digits(n) ==> c in DIGITS
  {
    if n >= 10 {
      DigitsPlain(n / 10);
    }
  }

  lemma DecimalInjective(m: int, n: int)
    requires Decimal(m) == Decimal(n)
    ensures m == n
  {
    SignShows(m);
    SignShows(n);
    if m < 0 {
      assert Decimal(m)[1..] == Digits(-m) && Decimal(n)[1..] == Digits(-n);
      DigitsInjective(-m, -n);
    } else {
      DigitsInjective(m, n);
    }
  }

  lemma SignShows(i: int)
    ensures Decimal(i) != "" && (Decimal(i)[0] == '-' <==> i < 0)
  {
    if i >= 0 {
      DigitsPlain(i);
      assert Decimal(i)[0] in Digits(i);
    }
  }

  lemma DecimalPlain(i: int)
    ensures IsNumeral(Decimal(i))
  {
    DigitsPlain(if i < 0 then -i else i);
  }

  // ---- the key ----

  /** The three shape numbers of a cell. */
  function CountsText(c: VolCell): string {
    Decimal(|c.strikes|) + "," + (Decimal(|c.moneyness|) + "," + (if c.atm then "1" else "0"))
  }

  function CellText(c: VolCell): string {
    c.expiry + "/" + (c.tenor + "/" + CountsText(c))
  }

  function CellsText(cells: seq<VolCell>): string {
    if cells == [] then "" else "|" + (CellText(cells[0]) + CellsText(cells[1..]))
  }

  function Key(spec: Spec): string {
    spec.valueDate + "|" + (spec.currency + "|" + (spec.index + "|" + (Decimal(spec.curve) + CellsText(spec.cells))))
  }

  /** The texts a surface can be compiled from: a value date and an index without a bar, cells without either separator.
      The currency is not looked up beside an index, so it may be any text. */
  ghost predicate Proper(spec: Spec) {
    '|' !in spec.valueDate && '|' !in spec.index && forall c :: c in spec.cells ==> PlainCell(c)
  }

  predicate PlainCell(c: VolCell) {
    '|' !in c.expiry && '/' !in c.expiry && '|' !in c.tenor && '/' !in c.tenor
  }

  /** What the resolvers demand of a text: a value date is digits and dashes, no index is registered under a name with a
      bar, and an expiry or tenor token has neither separator. */
  ghost predicate Lawful(k: Kernel) {
    && (forall date, currency, index :: k.opens(date, currency, index) ==> '|' !in date && '|' !in index)
    && (forall date, currency, index, expiry, tenor :: k.schedule(date, currency, index, expiry, tenor).Some? ==>
          '|' !in expiry && '/' !in expiry && '|' !in tenor && '/' !in tenor)
  }

  /** A surface is only ever compiled from a proper request; of an improper one some text is refused. */
  lemma ResolvedIsProper(k: Kernel, spec: Spec)
    requires Lawful(k)
    ensures Resolved(k, spec).Ok? ==> Proper(spec)
    ensures Resolved(k, spec).Refused? ==> Resolved(k, spec).why != OutOfBounds && Resolved(k, spec).why != NoCurve
  {
    if Resolved(k, spec).Ok? {
      forall c | c in spec.cells ensures PlainCell(c) {
        var i :| 0 <= i < |spec.cells| && spec.cells[i] == c;
        assert ScheduleOf(k, spec, i).Some?;
      }
    }
  }

  lemma EmptyShows(a: string, s: string, sep: char)
    requires sep !in a && (s == "" || s[0] == sep)
    ensures a == "" <==> a + s == "" || (a + s)[0] == sep
    ensures a == "" ==> a + s == s
  {
    if a != "" {
      assert (a + s)[0] == a[0] && a[0] in a;
    }
  }

  /** A text is cut at its first separator in one way only. */
  lemma {:induction false} OneCut(a: string, s: string, b: string, t: string, sep: char)
    requires sep !in a && sep !in b && a + s == b + t
    requires (s == "" || s[0] == sep) && (t == "" || t[0] == sep)
    ensures a == b && s == t
  {
    EmptyShows(a, s, sep);
    EmptyShows(b, t, sep);
    if a != "" {
      assert (a + s)[0] == a[0] && (b + t)[0] == b[0];
      assert (a + s)[1..] == a[1..] + s && (b + t)[1..] == b[1..] + t;
      OneCut(a[1..], s, b[1..], t, sep);
    }
  }

  /** A field, its separator and the rest. */
  lemma OneField(a: string, s: string, b: string, t: string, sep: char)
    requires sep !in a && sep !in b && a + [sep] + s == b + [sep] + t
    ensures a == b && s == t
  {
    assert a + [sep] + s == a + ([sep] + s) && b + [sep] + t == b + ([sep] + t);
    OneCut(a, [sep] + s, b, [sep] + t, sep);
    assert ([sep] + s)[1..] == s && ([sep] + t)[1..] == t;
  }

  lemma CountsTextInjective(a: VolCell, b: VolCell)
    requires CountsText(a) == CountsText(b)
    ensures |a.strikes| == |b.strikes| && |a.moneyness| == |b.moneyness| && a.atm == b.atm
  {
    var p, q := Decimal(|a.strikes|), Decimal(|b.strikes|);
    var r, s := Decimal(|a.moneyness|), Decimal(|b.moneyness|);
    DecimalPlain(|a.strikes|);
    DecimalPlain(|b.strikes|);
    DecimalPlain(|a.moneyness|);
    DecimalPlain(|b.moneyness|);
    OneField(p, r + "," + (if a.atm then "1" else "0"), q, s + "," + (if b.atm then "1" else "0"), ',');
    OneField(r, if a.atm then "1" else "0", s, if b.atm then "1" else "0", ',');
    DecimalInjective(|a.strikes|, |b.strikes|);
    DecimalInjective(|a.moneyness|, |b.moneyness|);
  }

  lemma CellTextInjective(a: VolCell, b: VolCell)
    requires PlainCell(a) && PlainCell(b) && CellText(a) == CellText(b)
    ensures SameCellShape(a, b)
  {
    OneField(a.expiry, a.tenor + "/" + CountsText(a), b.expiry, b.tenor + "/" + CountsText(b), '/');
    OneField(a.tenor, CountsText(a), b.tenor, CountsText(b), '/');
    CountsTextInjective(a, b);
  }

  lemma CellTextHasNoBar(c: VolCell)
    requires PlainCell(c)
    ensures '|' !in CellText(c)
  {
    DecimalPlain(|c.strikes|);
    DecimalPlain(|c.moneyness|);
    assert '|' !in CountsText(c);
  }

  /** A text is cut at its last separator in one way only. */
  lemma LastCut(a: string, s: string, b: string, t: string, sep: char)
    requires sep !in s && sep !in t && a + [sep] + s == b + [sep] + t
    ensures a == b && s == t
  {
    NoLaterCut(a, s, b, t, sep);
    NoLaterCut(b, t, a, s, sep);
    var p, q := a + [sep] + s, b + [sep] + t;
    assert p[..|a|] == a && p[|a| + 1..] == s && q[..|b|] == b && q[|b| + 1..] == t;
  }

  lemma NoLaterCut(a: string, s: string, b: string, t: string, sep: char)
    requires sep !in s && a + [sep] + s == b + [sep] + t
    ensures |b| <= |a|
  {
    var p := a + [sep] + s;
    assert p[|b|] == (b + [sep] + t)[|b|] == sep;
    assert forall i :: |a| < i < |p| ==> p[i] in s;
  }

  lemma {:induction false} CellsTextLast(cells: seq<VolCell>)
    requires cells != []
    ensures CellsText(cells) == CellsText(cells[..|cells| - 1]) + "|" + CellText(cells[|cells| - 1])
  {
    if |cells| == 1 {
      OneCellText(CellText(cells[0]));
    } else {
      CellsTextLast(cells[1..]);
      CellsTextGrows(cells);
    }
  }

  lemma CellsTextGrows(cells: seq<VolCell>)
    requires |cells| > 1
    requires var rest := cells[1..]; CellsText(rest) == CellsText(rest[..|rest| - 1]) + "|" + CellText(rest[|rest| - 1])
    ensures CellsText(cells) == CellsText(cells[..|cells| - 1]) + "|" + CellText(cells[|cells| - 1])
  {
    var rest, front, last := cells[1..], cells[..|cells| - 1], CellText(cells[|cells| - 1]);
    assert rest[..|rest| - 1] == front[1..] && rest[|rest| - 1] == cells[|cells| - 1];
    var middle := CellsText(front[1..]);
    assert CellsText(rest) == middle + "|" + last;
    assert CellsText(front) == "|" + (CellText(cells[0]) + middle);
    Regroup(CellText(cells[0]), middle, last);
  }

  lemma OneCellText(c: string)
    ensures "|" + (c + "") == "" + "|" + c
  {
  }

  lemma Regroup(a: string, b: string, c: string)
    ensures "|" + (a + (b + "|" + c)) == "|" + (a + b) + "|" + c
  {
  }

  lemma CellTextHasSlash(c: VolCell)
    ensures '/' in CellText(c)
  {
    assert CellText(c)[|c.expiry|] == '/';
  }

  /** A head that ends in a bar and a numeral, then the cells: the cells are read back from the right, since every
      cell's text has a slash and a numeral has none. */
  lemma {:induction false} CellsReadBack(h: string, a: seq<VolCell>, i: string, b: seq<VolCell>)
    requires EndsInNumeral(h) && EndsInNumeral(i) && h + CellsText(a) == i + CellsText(b)
    requires (forall c :: c in a ==> PlainCell(c)) && (forall c :: c in b ==> PlainCell(c))
    ensures h == i && SameCellShapes(a, b)
    decreases |a| + |b|
  {
    if a == [] && b == [] {
      assert h + CellsText(a) == h && i + CellsText(b) == i;
    } else if a == [] {
      OneSideEmpty(h, i, b);
    } else if b == [] {
      OneSideEmpty(i, h, a);
    } else {
      var c, d := a[..|a| - 1], b[..|b| - 1];
      LastCellsAgree(h, a, i, b);
      CellsReadBack(h, c, i, d);
      OneMoreShape(c, a, d, b);
    }
  }

  ghost predicate EndsInNumeral(h: string) {
    exists f, m :: IsNumeral(m) && h == f + "|" + m
  }

  lemma OneMoreShape(c: seq<VolCell>, a: seq<VolCell>, d: seq<VolCell>, b: seq<VolCell>)
    requires a != [] && b != [] && c == a[..|a| - 1] && d == b[..|b| - 1]
    requires SameCellShapes(c, d) && SameCellShape(a[|a| - 1], b[|b| - 1])
    ensures SameCellShapes(a, b)
  {
    forall k | 0 <= k < |a| ensures SameCellShape(a[k], b[k]) {
      assert k < |c| ==> SameCellShape(c[k], d[k]);
    }
  }

  lemma LastCellsAgree(h: string, a: seq<VolCell>, i: string, b: seq<VolCell>)
    requires a != [] && b != [] && PlainCell(a[|a| - 1]) && PlainCell(b[|b| - 1])
    requires h + CellsText(a) == i + CellsText(b)
    ensures SameCellShape(a[|a| - 1], b[|b| - 1])
    ensures h + CellsText(a[..|a| - 1]) == i + CellsText(b[..|b| - 1])
  {
    var p, q, c, d := a[|a| - 1], b[|b| - 1], a[..|a| - 1], b[..|b| - 1];
    CellsTextLast(a);
    CellsTextLast(b);
    CellTextHasNoBar(p);
    CellTextHasNoBar(q);
    ShiftLeft(h, CellsText(c), CellText(p));
    ShiftLeft(i, CellsText(d), CellText(q));
    LastCut(h + CellsText(c), CellText(p), i + CellsText(d), CellText(q), '|');
    CellTextInjective(p, q);
  }

  lemma ShiftLeft(h: string, c: string, p: string)
    ensures h + (c + "|" + p) == (h + c) + "|" + p
  {
  }

  /** A numeral is no cell's text. */
  lemma OneSideEmpty(g: string, h: string, cells: seq<VolCell>)
    requires EndsInNumeral(g) && cells != [] && forall c :: c in cells ==> PlainCell(c)
    ensures g + CellsText([]) != h + CellsText(cells)
  {
    var n := |cells| - 1;
    CellsTextLast(cells);
    CellTextHasNoBar(cells[n]);
    CellTextHasSlash(cells[n]);
    if g + CellsText([]) == h + CellsText(cells) {
      var f, m :| IsNumeral(m) && g == f + "|" + m;
      ShiftLeft(h, CellsText(cells[..n]), CellText(cells[n]));
      assert g + CellsText([]) == g;
      LastCut(f, m, h + CellsText(cells[..n]), CellText(cells[n]), '|');
      assert false;
    }
  }

  /** Requests a surface can be compiled from share a key exactly when they share a shape, whatever their currency
      text. */
  lemma KeyIffShape(a: Spec, b: Spec)
    requires Proper(a) && Proper(b)
    ensures Key(a) == Key(b) <==> SameShape(a, b)
  {
    if SameShape(a, b) {
      SameShapeCellsText(a.cells, b.cells);
    }
    if Key(a) == Key(b) {
      KeyShows(a, b);
    }
  }

  lemma KeyShows(a: Spec, b: Spec)
    requires Proper(a) && Proper(b) && Key(a) == Key(b)
    ensures SameShape(a, b)
  {
    var f, g := a.currency + "|" + a.index, b.currency + "|" + b.index;
    var m, n := Decimal(a.curve), Decimal(b.curve);
    KeySplits(a);
    KeySplits(b);
    OneField(a.valueDate, f + "|" + m + CellsText(a.cells), b.valueDate, g + "|" + n + CellsText(b.cells), '|');
    HeadsAgree(a.currency, a.index, a.curve, a.cells, b.currency, b.index, b.curve, b.cells);
  }

  lemma HeadsAgree(c: string, i: string, k: int, a: seq<VolCell>, d: string, j: string, l: int, b: seq<VolCell>)
    requires '|' !in i && '|' !in j
    requires (forall x :: x in a ==> PlainCell(x)) && (forall x :: x in b ==> PlainCell(x))
    requires c + "|" + i + "|" + Decimal(k) + CellsText(a) == d + "|" + j + "|" + Decimal(l) + CellsText(b)
    ensures c == d && i == j && k == l && SameCellShapes(a, b)
  {
    DecimalPlain(k);
    DecimalPlain(l);
    CellsReadBack(c + "|" + i + "|" + Decimal(k), a, d + "|" + j + "|" + Decimal(l), b);
    LastCut(c + "|" + i, Decimal(k), d + "|" + j, Decimal(l), '|');
    LastCut(c, i, d, j, '|');
    DecimalInjective(k, l);
  }

  lemma KeySplits(spec: Spec)
    ensures Key(spec) ==
            spec.valueDate + "|" + (spec.currency + "|" + spec.index + "|" + Decimal(spec.curve) +
                                    CellsText(spec.cells))
  {
    var r := Decimal(spec.curve) + CellsText(spec.cells);
    assert spec.currency + "|" + (spec.index + "|" + r) == spec.currency + "|" + spec.index + "|" + r;
  }

  lemma {:induction false} SameShapeCellsText(a: seq<VolCell>, b: seq<VolCell>)
    requires |a| == |b| && forall i :: 0 <= i < |a| ==> SameCellShape(a[i], b[i])
    ensures CellsText(a) == CellsText(b)
  {
    if a != [] {
      assert SameCellShape(a[0], b[0]);
      SameShapeCellsText(a[1..], b[1..]);
    }
  }

  // ---- two requests with one key ----

  /** Two neighbouring cells as one, the first one's text and the bar moved into the second one's expiry. */
  function MergedCell(a: VolCell, b: VolCell): VolCell {
    b.(expiry := CellText(a) + "|" + b.expiry)
  }

  function Merged(spec: Spec, i: nat): Spec
    requires i + 1 < |spec.cells|
  {
    spec.(cells := spec.cells[..i] + [MergedCell(spec.cells[i], spec.cells[i + 1])] + spec.cells[i + 2..])
  }

  /** A bar in an expiry reads as the start of the next cell: every request of two cells or more shares its key with one
      of a cell fewer. */
  lemma BarCollides(spec: Spec, i: nat)
    requires i + 1 < |spec.cells|
    ensures Key(Merged(spec, i)) == Key(spec) && !Proper(Merged(spec, i)) && |Merged(spec, i).cells| == |spec.cells| - 1
  {
    var m := MergedCell(spec.cells[i], spec.cells[i + 1]);
    assert Merged(spec, i).cells[i] == m && m in Merged(spec, i).cells && !PlainCell(m) by {
      assert m.expiry[|CellText(spec.cells[i])|] == '|';
    }
    MergedCellText(spec.cells[i], spec.cells[i + 1]);
    MergedCellsText(spec.cells, i, m);
  }

  lemma MergedCellText(a: VolCell, b: VolCell)
    ensures CellText(MergedCell(a, b)) == CellText(a) + "|" + CellText(b)
  {
    var rest := b.tenor + "/" + CountsText(b);
    assert CellText(a) + "|" + b.expiry + ("/" + rest) == CellText(a) + "|" + (b.expiry + "/" + rest);
  }

  lemma {:induction false} MergedCellsText(cells: seq<VolCell>, i: nat, m: VolCell)
    requires i + 1 < |cells| && CellText(m) == CellText(cells[i]) + "|" + CellText(cells[i + 1])
    ensures CellsText(cells[..i] + [m] + cells[i + 2..]) == CellsText(cells)
  {
    var merged := cells[..i] + [m] + cells[i + 2..];
    if i == 0 {
      assert merged[0] == m && merged[1..] == cells[2..];
      assert cells[1..][1..] == cells[2..];
    } else {
      assert merged[0] == cells[0] && merged[1..] == cells[1..][..i - 1] + [m] + cells[1..][i + 1..];
      MergedCellsText(cells[1..], i - 1, m);
    }
  }
}

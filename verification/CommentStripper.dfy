/** The literal gate's comment stripper (tools/check_no_literals.py, strip_comments): what it drops, what it keeps, and
    why the line numbers the gate reports are the source's. */
module CommentStripper {
  import opened Wrappers

  const QUOTES := "\"'"

  // ---- the reference lexer: one character at a time, one of lookahead ----

  /** `Opening` and `Closing` are the second character of a block comment's delimiters. */
  datatype State = Code | Literal(quote: char) | Escaped(quote: char) | Line | Opening | Block | Closing

  predicate InComment(st: State) {
    st.Line? || st.Opening? || st.Block? || st.Closing?
  }

  function Next(st: State, text: string): State
    requires text != ""
  {
    var c, ahead := text[0], text[1..];
    match st
    case Code =>
      if c == '/' && ahead != "" && ahead[0] == '/' then Line
      else if c == '/' && ahead != "" && ahead[0] == '*' then Opening
      else if c in QUOTES then Literal(c)
      else Code
    case Literal(q) => if c == '\\' then Escaped(q) else if c == q || c == '\n' then Code else st
    case Escaped(q) => Literal(q)
    case Line => if c == '\n' then Code else Line
    case Opening => Block
    case Block => if c == '*' && ahead != "" && ahead[0] == '/' then Closing else Block
    case Closing => Code
  }

  /** A character is comment when it is read in a comment or opens one; a newline is never comment. */
  predicate IsComment(st: State, text: string)
    requires text != ""
  {
    (InComment(st) || InComment(Next(st, text))) && text[0] != '\n'
  }

  /** The characters that are not comment. */
  function Kept(text: string, st: State): string {
    if text == "" then ""
    else if IsComment(st, text) then Kept(text[1..], Next(st, text))
    else [text[0]] + Kept(text[1..], Next(st, text))
  }

  /** States the lexer can be in before the rest of a text: a delimiter's second character is still to come. */
  predicate Fits(st: State, text: string) {
    && (st.Opening? ==> text != "" && text[0] == '*')
    && (st.Closing? ==> text != "" && text[0] == '/')
  }

  lemma NextFits(st: State, text: string)
    requires text != "" && Fits(st, text)
    ensures Fits(Next(st, text), text[1..])
  {
  }

  // ---- lines ----

  /** `split("\n")`. */
  function Lines(text: string): (lines: seq<string>)
    ensures lines != []
  {
    if text == "" then [""]
    else
      var rest := Lines(text[1..]);
      if text[0] == '\n' then [""] + rest else [[text[0]] + rest[0]] + rest[1..]
  }

  /** `a` is `b` with characters left out. */
  predicate Thinned(a: string, b: string) {
    if a == "" then true
    else if b == "" then false
    else if a[0] == b[0] && Thinned(a[1..], b[1..]) then true
    else Thinned(a, b[1..])
  }

  lemma {:induction false} ThinnedSkips(a: string, b: string, c: char)
    requires Thinned(a, b)
    ensures Thinned(a, [c] + b)
  {
    assert ([c] + b)[1..] == b;
  }

  lemma ThinnedKeeps(a: string, b: string, c: char)
    requires Thinned(a, b)
    ensures Thinned([c] + a, [c] + b)
  {
    assert ([c] + a)[1..] == a && ([c] + b)[1..] == b;
  }

  ghost predicate LineByLine(kept: seq<string>, source: seq<string>) {
    |kept| == |source| && forall k :: 0 <= k < |kept| ==> Thinned(kept[k], source[k])
  }

  lemma DropsFromFirst(kept: seq<string>, source: seq<string>, c: char)
    requires kept != [] && source != [] && LineByLine(kept, source)
    ensures LineByLine(kept, [[c] + source[0]] + source[1..])
  {
    ThinnedSkips(kept[0], source[0], c);
  }

  lemma KeepsInFirst(kept: seq<string>, source: seq<string>, c: char)
    requires kept != [] && source != [] && LineByLine(kept, source)
    ensures LineByLine([[c] + kept[0]] + kept[1..], [[c] + source[0]] + source[1..])
  {
    ThinnedKeeps(kept[0], source[0], c);
  }

  lemma LinesOf(c: char, rest: string)
    ensures Lines([c] + rest) == if c == '\n' then [""] + Lines(rest) else [[c] + Lines(rest)[0]] + Lines(rest)[1..]
  {
    assert ([c] + rest)[1..] == rest;
  }

  /** Stripping keeps every line in its place: line k of the output is line k of the source with comment left out. */
  lemma {:induction false} LinesStay(text: string, st: State)
    requires Fits(st, text)
    ensures LineByLine(Lines(Kept(text, st)), Lines(text))
  {
    if text != "" {
      var c, next := text[0], Next(st, text);
      NextFits(st, text);
      LinesStay(text[1..], next);
      var kept, source := Lines(Kept(text[1..], next)), Lines(text[1..]);
      assert text == [c] + text[1..];
      LinesOf(c, text[1..]);
      LinesOf(c, Kept(text[1..], next));
      if c != '\n' {
        if IsComment(st, text) {
          DropsFromFirst(kept, source, c);
        } else {
          KeepsInFirst(kept, source, c);
        }
      }
    }
  }

  // ---- what the lexer does to whole texts ----

  /** The inside of a literal: a backslash takes the next character along, whatever it is; there is no bare quote and no
      bare newline. */
  predicate Body(s: string, quote: char) {
    if s == "" then true
    else if s[0] == '\\' then |s| > 1 && Body(s[2..], quote)
    else s[0] != quote && s[0] != '\n' && Body(s[1..], quote)
  }

  lemma {:induction false} BodyIsKept(s: string, quote: char, rest: string)
    requires quote in QUOTES && Body(s, quote)
    ensures Kept(s + rest, Literal(quote)) == s + Kept(rest, Literal(quote))
    decreases |s|
  {
    if s == "" {
      assert s + rest == rest;
    } else if s[0] == '\\' {
      BodyIsKept(s[2..], quote, rest);
      assert (s + rest)[1..][1..] == s[2..] + rest && (s + rest)[1..][0] == s[1];
      assert s == [s[0]] + ([s[1]] + s[2..]);
    } else {
      BodyIsKept(s[1..], quote, rest);
      assert (s + rest)[1..] == s[1..] + rest;
      assert s == [s[0]] + s[1..];
    }
  }

  lemma Reads(c: char, rest: string, st: State)
    ensures Kept([c] + rest, st) == (if IsComment(st, [c] + rest) then "" else [c]) + Kept(rest, Next(st, [c] + rest))
  {
    assert ([c] + rest)[1..] == rest;
  }

  /** A literal is kept as it stands, whatever openers its body spells, and what follows is read as code: after the
      closing quote, or after the newline that ends an unclosed one. */
  lemma LiteralIsKept(quote: char, s: string, end: char, rest: string)
    requires quote in QUOTES && Body(s, quote) && (end == quote || end == '\n')
    ensures Kept([quote] + s + [end] + rest, Code) == [quote] + s + [end] + Kept(rest, Code)
  {
    Regroup(quote, s, end, rest);
    Regroup(quote, s, end, Kept(rest, Code));
    Reads(quote, s + ([end] + rest), Code);
    BodyIsKept(s, quote, [end] + rest);
    Reads(end, rest, Literal(quote));
  }

  lemma Regroup(c: char, s: string, d: char, rest: string)
    ensures [c] + s + [d] + rest == [c] + (s + ([d] + rest))
  {
  }

  /** A line comment goes up to its newline, whatever quotes or block openers it spells. */
  lemma LineCommentGoes(s: string, rest: string)
    requires '\n' !in s
    ensures Kept("//" + s + "\n" + rest, Code) == "\n" + Kept(rest, Code)
  {
    assert "//" + s + "\n" + rest == ['/'] + (['/'] + (s + ("\n" + rest)));
    Reads('/', ['/'] + (s + ("\n" + rest)), Code);
    Reads('/', s + ("\n" + rest), Line);
    LineGoes(s, "\n" + rest);
    Reads('\n', rest, Line);
  }

  lemma {:induction false} LineGoes(s: string, rest: string)
    requires '\n' !in s
    ensures Kept(s + rest, Line) == Kept(rest, Line)
  {
    if s == "" {
      assert s + rest == rest;
    } else {
      assert s + rest == [s[0]] + (s[1..] + rest);
      Reads(s[0], s[1..] + rest, Line);
      LineGoes(s[1..], rest);
    }
  }

  /** A literal ends with its line here, and a raw string does not: of one that spells a line comment on a later line,
      the comment is dropped. */
  lemma RawStringLosesComment(a: string, b: string, rest: string)
    requires Body("(" + a, '"') && '\n' !in b
    ensures Kept("R\"(" + a + "\n//" + b + "\n" + rest, Code) == "R\"(" + a + "\n\n" + Kept(rest, Code)
  {
    var tail := "//" + b + "\n" + rest;
    var text := ['"'] + ("(" + a) + ['\n'] + tail;
    assert "R\"(" + a + "\n//" + b + "\n" + rest == ['R'] + text;
    Reads('R', text, Code);
    LiteralIsKept('"', "(" + a, '\n', tail);
    LineCommentGoes(b, rest);
    assert ['R'] + (['"'] + ("(" + a) + ['\n'] + ("\n" + Kept(rest, Code))) == "R\"(" + a + "\n\n" + Kept(rest, Code);
  }

  /** No closing delimiter in `s`. */
  predicate Unclosed(s: string) {
    if s == "" then true else !(s[0] == '*' && |s| > 1 && s[1] == '/') && Unclosed(s[1..])
  }

  function Newlines(s: string): string {
    if s == "" then "" else (if s[0] == '\n' then "\n" else "") + Newlines(s[1..])
  }

  /** A block comment leaves its newlines behind and nothing else, whatever quotes or line openers it spells. */
  lemma BlockCommentGoes(s: string, rest: string)
    requires Unclosed(s)
    ensures Kept("/*" + s + "*/" + rest, Code) == Newlines(s) + Kept(rest, Code)
  {
    BlockSpelled(s, rest);
    DelimiterOpens(s + (['*'] + (['/'] + rest)));
    BlockGoes(s, rest);
    DelimiterCloses(rest);
  }

  lemma BlockSpelled(s: string, rest: string)
    ensures "/*" + s + "*/" + rest == ['/'] + (['*'] + (s + (['*'] + (['/'] + rest))))
  {
  }

  lemma DelimiterOpens(text: string)
    ensures Kept(['/'] + (['*'] + text), Code) == Kept(text, Block)
  {
    Reads('/', ['*'] + text, Code);
    Reads('*', text, Opening);
  }

  lemma DelimiterCloses(rest: string)
    ensures Kept(['*'] + (['/'] + rest), Block) == Kept(rest, Code)
  {
    Reads('*', ['/'] + rest, Block);
    Reads('/', rest, Closing);
  }

  lemma {:induction false} BlockGoes(s: string, rest: string)
    requires Unclosed(s)
    ensures Kept(s + (['*'] + (['/'] + rest)), Block) == Newlines(s) + Kept(['*'] + (['/'] + rest), Block)
  {
    var end := ['*'] + (['/'] + rest);
    if s == "" {
      assert s + end == end;
    } else {
      assert s + end == [s[0]] + (s[1..] + end);
      Reads(s[0], s[1..] + end, Block);
      BlockGoes(s[1..], rest);
      assert (s[1..] + end)[0] == if |s| > 1 then s[1] else '*';
    }
  }

  // ---- a grammar of C++ texts ----

  datatype Token = Other(c: char) | Quoted(quote: char, body: string,
                                           end: char) | LineComment(body: string) | BlockComment(body: string)

  function Spelled(t: Token): string {
    match t
    case Other(c) => [c]
    case Quoted(q, body, end) => [q] + body + [end]
    case LineComment(body) => "//" + body + "\n"
    case BlockComment(body) => "/*" + body + "*/"
  }

  function Survives(t: Token): string {
    match t
    case Other(c) => [c]
    case Quoted(q, body, end) => [q] + body + [end]
    case LineComment(_) => "\n"
    case BlockComment(body) => Newlines(body)
  }

  function SpelledAll(tokens: seq<Token>): string {
    if tokens == [] then "" else Spelled(tokens[0]) + SpelledAll(tokens[1..])
  }

  function SurviveAll(tokens: seq<Token>): string {
    if tokens == [] then "" else Survives(tokens[0]) + SurviveAll(tokens[1..])
  }

  /** A token that reads as itself before `rest`: a slash outside literals does not run into an opener. */
  predicate WellFormed(t: Token, rest: string) {
    match t
    case Other(c) => c !in QUOTES && (c == '/' && rest != "" ==> rest[0] != '/' && rest[0] != '*')
    case Quoted(q, body, end) => q in QUOTES && Body(body, q) && (end == q || end == '\n')
    case LineComment(body) => '\n' !in body
    case BlockComment(body) => Unclosed(body)
  }

  predicate AllWellFormed(tokens: seq<Token>) {
    tokens == [] || (WellFormed(tokens[0], SpelledAll(tokens[1..])) && AllWellFormed(tokens[1..]))
  }

  /** Stripping is what the grammar says: literals and other characters stand, a line comment leaves its newline, a
      block comment leaves the newlines in it. */
  lemma {:induction false} StripsByGrammar(tokens: seq<Token>)
    requires AllWellFormed(tokens)
    ensures Kept(SpelledAll(tokens), Code) == SurviveAll(tokens)
  {
    if tokens != [] {
      var rest := SpelledAll(tokens[1..]);
      StripsByGrammar(tokens[1..]);
      match tokens[0]
      case Other(c) => Reads(c, rest, Code);
      case Quoted(q, body, end) => LiteralIsKept(q, body, end, rest);
      case LineComment(body) => LineCommentGoes(body, rest);
      case BlockComment(body) => BlockCommentGoes(body, rest);
    }
  }

  // ---- the output has no comment left ----

  /** The state of a second reading at the same point: a comment is gone, so it reads code. */
  function Reread(st: State): State {
    if InComment(st) then Code else st
  }

  /** A kept character's successor in the output starts no opener with it. */
  lemma NoNewOpener(text: string)
    requires text != "" && !IsComment(Code, text) && text[0] == '/'
    ensures var rest := Kept(text[1..], Next(Code, text)); rest == "" || (rest[0] != '/' && rest[0] != '*')
  {
  }

  /** Reading the output again finds nothing to drop. */
  lemma {:induction false} StripTwice(text: string, st: State)
    requires Fits(st, text)
    ensures Kept(Kept(text, st), Reread(st)) == Kept(text, st)
  {
    if text != "" {
      NextFits(st, text);
      var next := Next(st, text);
      StripTwice(text[1..], next);
      if !IsComment(st, text) {
        var out, rest := Kept(text, st), Kept(text[1..], next);
        assert out[0] == text[0] && out[1..] == rest;
        if st == Code && text[0] == '/' {
          NoNewOpener(text);
        }
        assert Next(Reread(st), out) == Reread(next);
      }
    }
  }

  // ---- the program, C++ ----

  predicate StartsWith(text: string, i: nat, a: char, b: char) {
    i + 1 < |text| && text[i] == a && text[i + 1] == b
  }

  /** The state the loop's two variables stand for. */
  function LoopState(inBlock: bool, inStr: Option<char>): State {
    if inBlock then Block else if inStr.Some? then Literal(inStr.value) else Code
  }

  /** What is kept from position `i` on. */
  function From(text: string, i: nat, st: State): string
    requires i <= |text|
  {
    Kept(text[i..], st)
  }

  /** One reading step. */
  lemma Step(text: string, i: nat, st: State)
    requires i < |text|
    ensures text[i..] != "" && text[i..][0] == text[i] && text[i..][1..] == text[i + 1..]
    ensures From(text, i, st) == (if IsComment(st, text[i..]) then "" else [text[i]]) +
      From(text, i + 1, Next(st, text[i..]))
  {
    assert text[i..][1..] == text[i + 1..];
  }

  lemma BlockCloses(text: string, i: nat)
    requires StartsWith(text, i, '*', '/')
    ensures From(text, i, Block) == From(text, i + 2, Code)
  {
    Step(text, i, Block);
    Step(text, i + 1, Closing);
  }

  lemma BlockGoesOn(text: string, i: nat)
    requires i < |text| && !StartsWith(text, i, '*', '/')
    ensures From(text, i, Block) == (if text[i] == '\n' then "\n" else "") + From(text, i + 1, Block)
  {
    Step(text, i, Block);
  }

  lemma LiteralEscapes(text: string, i: nat, q: char)
    requires i < |text| && text[i] == '\\'
    ensures From(text, i, Literal(q)) ==
            if i + 1 < |text| then [text[i], text[i + 1]] + From(text, i + 2, Literal(q)) else [text[i]]
  {
    Step(text, i, Literal(q));
    if i + 1 < |text| {
      Step(text, i + 1, Escaped(q));
    }
  }

  lemma LiteralGoesOn(text: string, i: nat, q: char)
    requires i < |text| && text[i] != '\\'
    ensures From(text, i, Literal(q)) ==
            [text[i]] + From(text, i + 1, if text[i] == q || text[i] == '\n' then Code else Literal(q))
  {
    Step(text, i, Literal(q));
  }

  lemma BlockOpens(text: string, i: nat)
    requires StartsWith(text, i, '/', '*')
    ensures From(text, i, Code) == From(text, i + 2, Block)
  {
    Step(text, i, Code);
    Step(text, i + 1, Opening);
  }

  lemma CodeGoesOn(text: string, i: nat)
    requires i < |text| && !StartsWith(text, i, '/', '/') && !StartsWith(text, i, '/', '*')
    ensures From(text, i, Code) == [text[i]] + From(text, i + 1, if text[i] in QUOTES then Literal(text[i]) else Code)
  {
    Step(text, i, Code);
  }

  /** `find("\n", i)`, or the end, past a line comment's opener. */
  method LineEnd(text: string, i: nat) returns (j: nat)
    requires StartsWith(text, i, '/', '/')
    ensures i < j <= |text| && From(text, i, Code) == From(text, j, Code)
  {
    Step(text, i, Code);
    j := i + 1;
    while j < |text| && text[j] != '\n'
      invariant i < j <= |text|
      invariant From(text, i, Code) == From(text, j, Line)
    {
      Step(text, j, Line);
      j := j + 1;
    }
    if j < |text| {
      Step(text, j, Line);
      Step(text, j, Code);
    }
  }

  /** One iteration inside a block comment. */
  method ReadBlock(text: string, i: nat) returns (piece: string, j: nat, inBlock: bool)
    requires i < |text|
    ensures i < j <= |text| && From(text, i, Block) == piece + From(text, j, LoopState(inBlock, None))
  {
    if StartsWith(text, i, '*', '/') {
      BlockCloses(text, i);
      piece, j, inBlock := "", i + 2, false;
    } else {
      BlockGoesOn(text, i);
      piece, j, inBlock := if text[i] == '\n' then "\n" else "", i + 1, true;
    }
  }

  /** One iteration inside a literal: an escape takes the next character along, whatever it is. */
  method ReadLiteral(text: string, i: nat, q: char) returns (piece: string, j: nat, inStr: Option<char>)
    requires i < |text|
    ensures i < j <= |text| && From(text, i, Literal(q)) == piece + From(text, j, LoopState(false, inStr))
  {
    var ch := text[i];
    if ch == '\\' {
      LiteralEscapes(text, i, q);
      piece, j, inStr := if i + 1 < |text| then [ch, text[i + 1]] else [ch], if i + 1 < |text| then i + 2 else i + 1,
        Some(q);
    } else {
      LiteralGoesOn(text, i, q);
      piece, j, inStr := [ch], i + 1, if ch == q || ch == '\n' then None else Some(q);
    }
  }

  /** One iteration in code: a comment is entered or skipped, a literal is entered, or a character is kept. */
  method ReadCode(text: string, i: nat) returns (piece: string, j: nat, inBlock: bool, inStr: Option<char>)
    requires i < |text|
    ensures i < j <= |text| && !(inBlock && inStr.Some?)
    ensures From(text, i, Code) == piece + From(text, j, LoopState(inBlock, inStr))
  {
    piece, inBlock, inStr := "", false, None;
    if StartsWith(text, i, '/', '/') {
      j := LineEnd(text, i);
    } else if StartsWith(text, i, '/', '*') {
      BlockOpens(text, i);
      inBlock, j := true, i + 2;
    } else {
      CodeGoesOn(text, i);
      if text[i] in QUOTES {
        inStr := Some(text[i]);
      }
      piece, j := [text[i]], i + 1;
    }
  }

  /** The index loop over a C++ text keeps exactly what the reference lexer keeps. */
  method StripCpp(text: string) returns (out: string)
    ensures out == Kept(text, Code)
  {
    var i, n, inBlock, inStr := 0, |text|, false, None;
    out := "";
    assert text[0..] == text;
    while i < n
      invariant 0 <= i <= n && !(inBlock && inStr.Some?)
      invariant out + From(text, i, LoopState(inBlock, inStr)) == Kept(text, Code)
    {
      var piece;
      if inBlock {
        piece, i, inBlock := ReadBlock(text, i);
      } else if inStr.Some? {
        piece, i, inStr := ReadLiteral(text, i, inStr.value);
      } else {
        piece, i, inBlock, inStr := ReadCode(text, i);
      }
      out := out + piece;
    }
    assert From(text, n, LoopState(inBlock, inStr)) == "";
  }

  // ---- the program, Python ----

  /** The part of a line before its first `#` outside a quoted literal; literals end with their line. */
  function BeforeHash(line: string, quote: Option<char>): string {
    if line == "" then ""
    else if quote.Some? then
      if line[0] == '\\' then
        if |line| == 1 then line else line[..2] + BeforeHash(line[2..], quote)
      else [line[0]] + BeforeHash(line[1..], if line[0] == quote.value then None else quote)
    else if line[0] in QUOTES then [line[0]] + BeforeHash(line[1..], Some(line[0]))
    else if line[0] == '#' then ""
    else [line[0]] + BeforeHash(line[1..], None)
  }

  /** The quote the end of a text stands in, when its beginning stood in `quote`. */
  function QuoteAfter(text: string, quote: Option<char>): Option<char> {
    if text == "" then quote
    else if quote.Some? then
      if text[0] == '\\' then if |text| == 1 then quote else QuoteAfter(text[2..], quote)
      else QuoteAfter(text[1..], if text[0] == quote.value then None else quote)
    else QuoteAfter(text[1..], if text[0] in QUOTES then Some(text[0]) else None)
  }

  /** A `#` outside every literal at position m. */
  predicate BareHash(line: string, quote: Option<char>, m: nat) {
    m < |line| && line[m] == '#' && QuoteAfter(line[..m], quote).None?
  }

  lemma HashBelow(line: string, quote: Option<char>, m: nat)
    requires 0 < m < |line|
    ensures !(quote.Some? && line[0] == '\\') ==>
      var next := if quote.Some? then if line[0] == quote.value then None else quote
                  else if line[0] in QUOTES then Some(line[0]) else None;
      BareHash(line, quote, m) <==> BareHash(line[1..], next, m - 1)
    ensures quote.Some? && line[0] == '\\' ==>
      if m == 1 then !BareHash(line, quote, m) else BareHash(line, quote, m) <==> BareHash(line[2..], quote, m - 2)
  {
    assert line[..m][1..] == line[1..][..m - 1];
    if m > 1 {
      assert line[..m][2..] == line[2..][..m - 2];
    }
  }

  /** What is kept is the line up to its first `#` outside a literal, or the whole line when it has none. */
  lemma {:induction false} CutAtFirstBareHash(line: string, quote: Option<char>)
    ensures var kept := BeforeHash(line, quote);
            && kept <= line
            && (kept != line ==> BareHash(line, quote, |kept|))
            && forall m: nat :: m < |kept| ==> !BareHash(line, quote, m)
    decreases |line|
  {
    if line != "" {
      var kept := BeforeHash(line, quote);
      var two := quote.Some? && line[0] == '\\';
      if two && |line| > 1 {
        CutAtFirstBareHash(line[2..], quote);
        assert kept[2..] == BeforeHash(line[2..], quote) && kept[..2] == line[..2];
      } else if !two && (quote.Some? || line[0] != '#') {
        var next := if quote.Some? then if line[0] == quote.value then None else quote
                    else if line[0] in QUOTES then Some(line[0]) else None;
        CutAtFirstBareHash(line[1..], next);
        assert kept[1..] == BeforeHash(line[1..], next);
      }
      forall m: nat | m < |kept| ensures !BareHash(line, quote, m) {
        if m > 0 {
          HashBelow(line, quote, m);
        }
      }
      if 0 < |kept| < |line| {
        HashBelow(line, quote, |kept|);
      }
    }
  }

  lemma {:induction false} PlainUpToHash(a: string, b: string)
    requires '#' !in a && '"' !in a && '\'' !in a
    ensures BeforeHash(a + "#" + b, None) == a
  {
    if a != "" {
      assert (a + "#" + b)[1..] == a[1..] + "#" + b;
      PlainUpToHash(a[1..], b);
    }
  }

  lemma {:induction false} FirstLine(a: string, rest: string)
    requires '\n' !in a
    ensures Lines(a + "\n" + rest) == [a] + Lines(rest)
  {
    if a == "" {
      assert a + "\n" + rest == ['\n'] + rest;
      LinesOf('\n', rest);
    } else {
      assert a + "\n" + rest == [a[0]] + (a[1..] + "\n" + rest);
      LinesOf(a[0], a[1..] + "\n" + rest);
      FirstLine(a[1..], rest);
      var tail := [a[1..]] + Lines(rest);
      assert tail[0] == a[1..] && tail[1..] == Lines(rest) && [a[0]] + a[1..] == a;
    }
  }

  /** A Python line is stripped on its own: a docstring's line that spells a hash is cut at it. */
  lemma DocstringIsCut(a: string, b: string, rest: string)
    requires '#' !in a && '"' !in a && '\'' !in a && '\n' !in a && '\n' !in b
    ensures var lines := Lines("\"\"\"\n" + (a + "#" + b + "\n" + rest));
            |lines| > 1 && lines[1] == a + "#" + b && BeforeHash(lines[1], None) == a
  {
    var rest' := a + "#" + b + "\n" + rest;
    assert "\"\"\"\n" + rest' == "\"\"\"" + "\n" + rest';
    FirstLine("\"\"\"", rest');
    FirstLine(a + "#" + b, rest);
    PlainUpToHash(a, b);
  }

  function FromHash(line: string, i: nat, quote: Option<char>): string
    requires i <= |line|
  {
    BeforeHash(line[i..], quote)
  }

  /** One character, or an escape with the character after it. */
  method ReadLineAt(line: string, i: nat, quote: Option<char>) returns (piece: string, j: nat, next: Option<char>)
    requires i < |line| && !(quote.None? && line[i] == '#')
    ensures i < j <= |line| && FromHash(line, i, quote) == piece + FromHash(line, j, next)
  {
    var ch := line[i];
    assert line[i..][1..] == line[i + 1..];
    if quote.Some? && ch == '\\' {
      if i + 1 < |line| {
        assert line[i..][2..] == line[i + 2..] && line[i..][..2] == [ch, line[i + 1]];
        piece, j, next := [ch, line[i + 1]], i + 2, quote;
      } else {
        assert line[i..] == [ch];
        piece, j, next := [ch], i + 1, quote;
      }
    } else {
      piece, j := [ch], i + 1;
      next := if quote.Some? then if ch == quote.value then None else quote else if ch in QUOTES then Some(ch)
        else None;
    }
  }

  method StripLine(line: string) returns (kept: string)
    ensures kept == BeforeHash(line, None)
  {
    var inq: Option<char>, i := None, 0;
    kept := "";
    assert line[0..] == line;
    while i < |line| && !(inq.None? && line[i] == '#')
      invariant 0 <= i <= |line| && kept + FromHash(line, i, inq) == BeforeHash(line, None)
    {
      var piece;
      piece, i, inq := ReadLineAt(line, i, inq);
      kept := kept + piece;
    }
  }

  method StripPython(text: string) returns (out: seq<string>)
    ensures |out| == |Lines(text)| && forall k :: 0 <= k < |out| ==> out[k] == BeforeHash(Lines(text)[k], None)
  {
    var lines := Lines(text);
    out := [];
    var n := |lines|;
    for k := 0 to n
      invariant |out| == k && forall j :: 0 <= j < k ==> out[j] == BeforeHash(lines[j], None)
    {
      var kept := StripLine(lines[k]);
      out := out + [kept];
    }
  }

  /** Both languages: one output line per source line, each the source line of the same number with comment left out. */
  method StripComments(text: string, python: bool) returns (out: seq<string>)
    ensures LineByLine(out, Lines(text))
    ensures !python ==> out == Lines(Kept(text, Code))
    ensures python ==> forall k :: 0 <= k < |out| ==> out[k] == BeforeHash(Lines(text)[k], None)
  {
    if python {
      out := StripPython(text);
      forall k | 0 <= k < |out| ensures Thinned(out[k], Lines(text)[k]) {
        CutAtFirstBareHash(Lines(text)[k], None);
        PrefixIsThinned(out[k], Lines(text)[k]);
      }
    } else {
      var kept := StripCpp(text);
      LinesStay(text, Code);
      out := Lines(kept);
    }
  }

  lemma {:induction false} PrefixIsThinned(a: string, b: string)
    requires a <= b
    ensures Thinned(a, b)
  {
    if a != "" {
      PrefixIsThinned(a[1..], b[1..]);
    }
  }
}

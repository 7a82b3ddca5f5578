/**
  The derived-table extraction of internal/config/query.go, and why its text can stand in
  another query: placed in parentheses it brings exactly the tokens of its statement.
*/
module DerivedTable {
  import opened Basics
  import opened SqlLexer
  import opened SqlTokens
  import opened SqlValidate

  // ------------------------------------------------------------ the extraction

  datatype Refusal = NotReadOnly(reason: Reason) | LedByWith | HasOption | HasFor(clause: string) | OrderWithoutTop

  datatype Extraction = Accepted(text: string) | Refused(why: Refusal)

  /** ss[i] is the top-level word w. */
  predicate TopWord(ss: seq<Sign>, i: nat, w: string)
    requires i < |ss|
  {
    ss[i].IsWord(w) && !ss[i].afterDot && Depth(ss, i) <= 0
  }

  predicate ForClause(ss: seq<Sign>, i: nat)
    requires i < |ss|
  {
    TopWord(ss, i, "FOR") && i + 1 < |ss| && ss[i + 1].text in ["XML", "JSON", "BROWSE"]
  }

  predicate OrderBy(ss: seq<Sign>, i: nat)
    requires i < |ss|
  {
    TopWord(ss, i, "ORDER") && i + 1 < |ss| && ss[i + 1].text == "BY"
  }

  ghost predicate SomeTop(ss: seq<Sign>, n: nat)
    requires n <= |ss|
  {
    exists i | 0 <= i < n :: TopWord(ss, i, "TOP")
  }

  ghost predicate SomeOrderBy(ss: seq<Sign>, n: nat)
    requires n <= |ss|
  {
    exists i | 0 <= i < n :: OrderBy(ss, i)
  }

  ghost predicate SomeOffset(ss: seq<Sign>, n: nat)
    requires n <= |ss|
  {
    exists i, j | 0 <= i < j < n :: OrderBy(ss, i) && TopWord(ss, j, "OFFSET")
  }

  /** A derived table can hold the read-only statement ss. */
  ghost predicate Holdable(ss: seq<Sign>)
    requires ss != []
  {
    && ss[0].text != "WITH"
    && (forall i | 0 <= i < |ss| :: !TopWord(ss, i, "OPTION") && !ForClause(ss, i))
    && (SomeOrderBy(ss, |ss|) ==> SomeTop(ss, |ss|) || SomeOffset(ss, |ss|))
  }

  /** The query is one read-only SELECT that a derived table can hold. */
  ghost predicate Accepts(cc: Classes, query: string) {
    && Tokens(cc, query).Good?
    && ReadOnly(Signs(Statement(cc, query)))
    && Holdable(Signs(Statement(cc, query)))
  }

  /** What the extraction returns for a query it accepts: the statement, without what is around it. */
  function Span(query: string, statement: seq<Token>): string
    requires statement != [] && statement[0].start <= statement[|statement| - 1].end <= |query|
  {
    query[statement[0].start..statement[|statement| - 1].end]
  }

  method DerivedTable(cc: Classes, query: string) returns (r: Extraction)
    ensures r.Accepted? <==> Accepts(cc, query)
    ensures r.Accepted? ==> Placed(cc, query) && r.text == Span(query, Statement(cc, query))
  {
    var reason := ValidateReadOnlySelect(cc, query);
    if reason.Some? {
      return Refused(NotReadOnly(reason.value));
    }
    var tokens := Tokenize(cc, query);
    var statement := TrimSemicolons(tokens.value);
    StatementPlaced(cc, query);
    var ss := Signs(statement);
    if ss[0].text == "WITH" {
      return Refused(LedByWith);
    }
    var refusal := RefuseClauses(ss);
    if refusal.Some? {
      return Refused(refusal.value);
    }
    return Accepted(query[statement[0].start..statement[|statement| - 1].end]);
  }

  /** The loop that looks for clauses a derived table cannot hold. */
  method RefuseClauses(ss: seq<Sign>) returns (r: Option<Refusal>)
    requires ReadOnly(ss) && ss[0].text != "WITH"
    ensures r.None? <==> Holdable(ss)
  {
    var depth, top, orderBy, offset := 0, false, false, false;
    for i := 0 to |ss|
      invariant depth == Depth(ss, i)
      invariant forall j | 0 <= j < i :: !TopWord(ss, j, "OPTION") && !ForClause(ss, j)
      invariant top <==> SomeTop(ss, i)
      invariant orderBy <==> SomeOrderBy(ss, i)
      invariant offset <==> SomeOffset(ss, i)
    {
      var t := ss[i];
      assert Clean(ss, i);
      FlagsStep(ss, i);
      if t.IsPunct("(") {
        depth := depth + 1;
      } else if t.IsPunct(")") {
        depth := depth - 1;
      } else if depth > 0 || t.kind != Word || t.afterDot {
      } else if t.text == "OPTION" {
        assert TopWord(ss, i, "OPTION");
        return Some(HasOption);
      } else if t.text == "FOR" && i + 1 < |ss| && ss[i + 1].text in ["XML", "JSON", "BROWSE"] {
        assert ForClause(ss, i);
        return Some(HasFor(ss[i + 1].text));
      } else if t.text == "TOP" {
        top := true;
      } else if t.text == "ORDER" && i + 1 < |ss| && ss[i + 1].text == "BY" {
        orderBy := true;
      } else if t.text == "OFFSET" && orderBy {
        offset := true;
      }
    }
    return if orderBy && !top && !offset then Some(OrderWithoutTop) else None;
  }

  lemma {:induction false} FlagsStep(ss: seq<Sign>, i: nat)
    requires i < |ss|
    ensures SomeTop(ss, i + 1) <==> SomeTop(ss, i) || TopWord(ss, i, "TOP")
    ensures SomeOrderBy(ss, i + 1) <==> SomeOrderBy(ss, i) || OrderBy(ss, i)
    ensures SomeOffset(ss, i + 1) <==> SomeOffset(ss, i) || (SomeOrderBy(ss, i) && TopWord(ss, i, "OFFSET"))
  {
    if TopWord(ss, i, "TOP") { assert SomeTop(ss, i + 1); }
    if OrderBy(ss, i) { assert SomeOrderBy(ss, i + 1); }
    if SomeOrderBy(ss, i) && TopWord(ss, i, "OFFSET") {
      var k :| 0 <= k < i && OrderBy(ss, k);
      assert OrderBy(ss, k) && TopWord(ss, i, "OFFSET");
    }
  }

  ghost predicate Placed(cc: Classes, query: string) {
    && Tokens(cc, query).Good?
    && var st := Statement(cc, query);
       st != [] && st[0].start <= st[|st| - 1].end <= |query|
  }

  // ------------------------------------------------------------ the statement as a stretch of the query

  lemma {:induction false} StatementPlaced(cc: Classes, query: string)
    requires Tokens(cc, query).Good? && Statement(cc, query) != []
    ensures Placed(cc, query)
  {
    var p, q := TrimShape(Tokens(cc, query).value);
    TokensSpaced(cc, query);
  }

  /** The lexeme that gives the k-th token, and where it is. */
  lemma {:induction false} TokenOrigin(cc: Classes, ts: seq<Token>, ls: seq<Lexeme>, off: nat, k: nat) returns (m: nat)
    requires |ts| <= k < |EmitAll(cc, ts, ls, off)|
    ensures m < |ls| && ls[m].Token() && |ts| + |Bare(cc, ls[..m])| == k
    ensures EmitAll(cc, ts, ls, off)[k].start == off + |Render(ls[..m])|
    ensures EmitAll(cc, ts, ls, off)[k].end == off + |Render(ls[..m + 1])|
    decreases |ls|
  {
    var next := Emit(cc, ts, ls[0], off);
    if k < |next| {
      m := 0;
      EmitAllKeeps(cc, next, ls[1..], off + |ls[0].body|);
      assert Render(ls[..1]) == ls[0].body by { assert ls[..1] == [ls[0]]; }
    } else {
      m := TokenOrigin(cc, next, ls[1..], off + |ls[0].body|, k);
      m := m + 1;
      assert ls[..m] == [ls[0]] + ls[1..][..m - 1];
      assert ls[..m + 1] == [ls[0]] + ls[1..][..m];
    }
  }

  lemma {:induction false} EmitAllKeeps(cc: Classes, ts: seq<Token>, ls: seq<Lexeme>, off: nat)
    ensures ts <= EmitAll(cc, ts, ls, off)
    decreases |ls|
  {
    if ls != [] {
      EmitAllKeeps(cc, Emit(cc, ts, ls[0], off), ls[1..], off + |ls[0].body|);
    }
  }

  /** The statement is a window of the tokens, after nothing or a ';'. */
  lemma {:induction false} StatementWindow(cc: Classes, query: string) returns (ts: seq<Token>, p: nat, q: nat)
    requires Placed(cc, query)
    ensures Tokens(cc, query) == Good(ts) && p < q <= |ts| && Statement(cc, query) == ts[p..q]
    ensures p > 0 ==> ts[p - 1].sign.IsPunct(";")
    ensures ts[p] == Statement(cc, query)[0]
    ensures ts[p].start <= ts[q - 1].end <= |query|
    ensures Span(query, Statement(cc, query)) == query[ts[p].start..ts[q - 1].end]
  {
    ts := Tokens(cc, query).value;
    p, q := TrimShape(ts);
    assert ts[p..q][0] == ts[p] && ts[p..q][q - p - 1] == ts[q - 1];
  }

  /** The statement's text is a run of the query's lexemes, from a token to a token. */
  lemma {:induction false} StatementLexemes(cc: Classes, query: string) returns (ls: seq<Lexeme>, a: nat, b: nat)
    requires Placed(cc, query) && Statement(cc, query)[0].sign.kind == Word
    ensures Lexemes(cc, query) == Good(ls) && a < b <= |ls|
    ensures ls[a].Token() && ls[b - 1].Token()
    ensures Render(ls[a..b]) == Span(query, Statement(cc, query))
    ensures Signed(Bare(cc, ls[a..b])) == Signs(Statement(cc, query))
  {
    var ts, p, q := StatementWindow(cc, query);
    ls, a, b := WindowText(cc, query, ts, p, q);
  }

  lemma {:induction false} WindowText(cc: Classes, query: string, ts: seq<Token>, p: nat, q: nat)
    returns (ls: seq<Lexeme>, a: nat, b: nat)
    requires Tokens(cc, query) == Good(ts) && p < q <= |ts| && ts[p].start <= ts[q - 1].end <= |query|
    requires ts[p].sign.kind == Word && (p > 0 ==> ts[p - 1].sign.IsPunct(";"))
    ensures Lexemes(cc, query) == Good(ls) && a < b <= |ls|
    ensures ls[a].Token() && ls[b - 1].Token()
    ensures Render(ls[a..b]) == query[ts[p].start..ts[q - 1].end]
    ensures Signed(Bare(cc, ls[a..b])) == Signs(ts[p..q])
  {
    ls := Lexemes(cc, query).value;
    var c;
    a, c := WindowLexemes(cc, ls, ts, p, q);
    b := c + 1;
    assert Render(ls[a..b]) == query[ts[p].start..ts[q - 1].end] by { RenderSlice(cc, query, ls, a, b); }
    assert Signed(Bare(cc, ls[a..b])) == Signs(ts[p..q]) by { WindowSigns(cc, query, ls, ts, a, c, p, q); }
  }

  lemma {:induction false} WindowLexemes(cc: Classes, ls: seq<Lexeme>, ts: seq<Token>, p: nat, q: nat)
      returns (a: nat, c: nat)
    requires ts == EmitAll(cc, [], ls, 0) && p < q <= |ts|
    ensures a <= c < |ls| && ls[a].Token() && ls[c].Token()
    ensures |Bare(cc, ls[..a])| == p && |Bare(cc, ls[..c])| == q - 1
    ensures ts[p].start == |Render(ls[..a])| && ts[q - 1].end == |Render(ls[..c + 1])|
  {
    a := TokenOrigin(cc, [], ls, 0, p);
    c := TokenOrigin(cc, [], ls, 0, q - 1);
    BareOrder(cc, ls, a, c, p, q - 1);
  }

  lemma {:induction false} WindowSigns(cc: Classes, query: string, ls: seq<Lexeme>, ts: seq<Token>, a: nat, c: nat,
      p: nat, q: nat)
    requires Tokens(cc, query) == Good(ts) && Lexemes(cc, query) == Good(ls) && a <= c < |ls| && p < q <= |ts|
    requires |Bare(cc, ls[..a])| == p && |Bare(cc, ls[..c])| == q - 1 && ls[c].Token()
    requires ts[p].sign.kind == Word && (p > 0 ==> ts[p - 1].sign.IsPunct(";"))
    ensures Signed(Bare(cc, ls[a..c + 1])) == Signs(ts[p..q])
  {
    TokensSigns(cc, query, ls);
    BareWindow(cc, ls, a, c, p, q);
    SignsWindow(ts, Bare(cc, ls), p, q);
  }

  lemma {:induction false} BareWindow(cc: Classes, ls: seq<Lexeme>, a: nat, c: nat, p: nat, q: nat)
    requires a <= c < |ls| && p < q && ls[c].Token()
    requires |Bare(cc, ls[..a])| == p && |Bare(cc, ls[..c])| == q - 1
    ensures q <= |Bare(cc, ls)| && Bare(cc, ls[a..c + 1]) == Bare(cc, ls)[p..q]
  {
    BareSlice(cc, ls, a, c + 1);
    BareSlice(cc, ls, c, c + 1);
    assert ls[c..c + 1] == [ls[c]];
    assert |Bare(cc, [ls[c]])| == 1;
  }

  lemma {:induction false} SignsWindow(ts: seq<Token>, bs: seq<(Kind, string)>, p: nat, q: nat)
    requires Signs(ts) == Signed(bs) && p < q <= |bs|
    requires |ts| == |bs| && ts[p].sign.kind == Word && (p > 0 ==> ts[p - 1].sign.IsPunct(";"))
    ensures Signs(ts[p..q]) == Signed(bs[p..q])
  {
    assert ts[p].sign == Signs(ts)[p] == Signed(bs)[p];
    assert p > 0 ==> ts[p - 1].sign == Signs(ts)[p - 1] == Signed(bs)[p - 1];
    SignedWindow(bs, p, q);
    assert Signs(ts[p..q]) == Signs(ts)[p..q];
  }

  /** A token between two places makes a difference to how many come before them. */
  lemma {:induction false} BareMore(cc: Classes, ls: seq<Lexeme>, c: nat, a: nat)
    requires c < a <= |ls| && ls[c].Token()
    ensures |Bare(cc, ls[..c])| < |Bare(cc, ls[..a])|
  {
    assert ls[..a] == ls[..c] + ls[c..a];
    assert Bare(cc, ls[c..a]) != [];
    BareAppend(cc, ls[..c], ls[c..a]);
  }

  lemma {:induction false} BareOrder(cc: Classes, ls: seq<Lexeme>, a: nat, c: nat, j: nat, k: nat)
    requires a < |ls| && c < |ls| && ls[c].Token()
    requires |Bare(cc, ls[..a])| == j && |Bare(cc, ls[..c])| == k && j <= k
    ensures a <= c
  {
    if c < a { BareMore(cc, ls, c, a); }
  }

  lemma {:induction false} SliceMiddle(x: string, y: string, z: string)
    ensures (x + y + z)[|x|..|x + y|] == y
  {
  }

  lemma {:induction false} RenderSlice(cc: Classes, query: string, ls: seq<Lexeme>, a: nat, b: nat)
    requires Lexemes(cc, query) == Good(ls) && a <= b <= |ls|
    ensures |Render(ls[..a])| <= |Render(ls[..b])| <= |query|
    ensures Render(ls[a..b]) == query[|Render(ls[..a])|..|Render(ls[..b])|]
  {
    var x, y, z := Render(ls[..a]), Render(ls[a..b]), Render(ls[b..]);
    assert query == Render(ls) by { LexemesCharacterized(cc, query, ls); }
    assert Render(ls[..b]) == x + y by {
      assert ls[..b] == ls[..a] + ls[a..b];
      RenderAppend(ls[..a], ls[a..b]);
    }
    assert Render(ls) == Render(ls[..b]) + z by {
      assert ls == ls[..b] + ls[b..];
      RenderAppend(ls[..b], ls[b..]);
    }
    SliceMiddle(x, y, z);
  }

  lemma {:induction false} BareSlice(cc: Classes, ls: seq<Lexeme>, a: nat, b: nat)
    requires a <= b <= |ls|
    ensures Bare(cc, ls[..b]) == Bare(cc, ls[..a]) + Bare(cc, ls[a..b])
    ensures Bare(cc, ls) == Bare(cc, ls[..b]) + Bare(cc, ls[b..])
  {
    assert ls[..b] == ls[..a] + ls[a..b];
    assert ls == ls[..b] + ls[b..];
    BareAppend(cc, ls[..a], ls[a..b]);
    BareAppend(cc, ls[..b], ls[b..]);
  }

  /** Which words continue a name does not depend on what is around a stretch that starts with a
      word that continues none. */
  lemma {:induction false} SignedWindow(bs: seq<(Kind, string)>, p: nat, q: nat)
    requires p < q <= |bs| && bs[p].0 == Word
    requires p > 0 ==> bs[p - 1] != (Punct, ".")
    ensures Signed(bs[p..q]) == Signed(bs)[p..q]
  {
    var w := bs[p..q];
    forall i | 0 <= i < q - p ensures Signed(w)[i] == Signed(bs)[p + i] {
      assert DotAfter(w[..i]) == DotAfter(bs[..p + i]) by {
        if i >= 2 {
          assert w[..i][i - 1] == bs[..p + i][p + i - 1];
          assert w[..i][i - 2] == bs[..p + i][p + i - 2];
        }
      }
    }
  }

  // ------------------------------------------------------------ embedding

  function Embedded(text: string): string {
    "FROM (\n" + text + "\n) AS q"
  }

  function Opening(): seq<Lexeme> {
    [Lexeme(Word, "FROM"), Lexeme(Blank, " "), Lexeme(Punct, "("), Lexeme(Blank, "\n")]
  }

  function Closing(): seq<Lexeme> {
    [Lexeme(Blank, "\n"), Lexeme(Punct, ")"), Lexeme(Blank, " "), Lexeme(Word, "AS"), Lexeme(Blank, " "),
      Lexeme(Word, "q")]
  }

  /** One more piece in front of a chain. */
  lemma {:induction false} Prepend(cc: Classes, x: Lexeme, rest: seq<Lexeme>, next: Option<char>)
    requires Chain(cc, rest, next) && Fits(cc, x, if rest == [] then next else First(rest[0].body))
    ensures Chain(cc, [x] + rest, next)
    ensures Render([x] + rest) == x.body + Render(rest)
    ensures Bare(cc, [x] + rest) == (if x.Token() then [(x.kind, TokenText(cc, x))] else []) + Bare(cc, rest)
  {
    var ls := [x] + rest;
    assert ls[1..] == rest;
    forall i | 0 <= i < |ls| ensures Fits(cc, ls[i], After(ls, i, next)) {
      if i > 0 {
        assert After(ls, i, next) == After(rest, i - 1, next) && ls[i] == rest[i - 1];
      }
    }
  }

  /** White space and the words and parentheses of the embedding fit before a space or a line end. */
  lemma {:induction false} EmbeddingFits(cc: Classes, next: Option<char>)
    requires cc.AgreeOnAscii()
    ensures Fits(cc, Lexeme(Blank, " "), next) && Fits(cc, Lexeme(Blank, "\n"), next)
    ensures Fits(cc, Lexeme(Punct, "("), Some('\n')) && Fits(cc, Lexeme(Punct, ")"), Some(' '))
    ensures Fits(cc, Lexeme(Word, "FROM"), Some(' ')) && Fits(cc, Lexeme(Word, "AS"), Some(' '))
    ensures Fits(cc, Lexeme(Word, "q"), None)
    ensures cc.UpperText("FROM") == "FROM" && cc.UpperText("AS") == "AS" && cc.UpperText("q") == "Q"
  {
  }

  lemma {:induction false} OpeningTail(cc: Classes, next: char) returns (r: seq<Lexeme>)
    requires cc.AgreeOnAscii()
    ensures r == [Lexeme(Punct, "("), Lexeme(Blank, "\n")]
    ensures Chain(cc, r, Some(next)) && Render(r) == "(\n" && Bare(cc, r) == [(Punct, "(")]
  {
    EmbeddingFits(cc, Some(next));
    Prepend(cc, Lexeme(Blank, "\n"), [], Some(next));
    var r1 := [Lexeme(Blank, "\n")] + [];
    Prepend(cc, Lexeme(Punct, "("), r1, Some(next));
    r := [Lexeme(Punct, "(")] + r1;
  }

  lemma {:induction false} OpeningFits(cc: Classes, next: char)
    requires cc.AgreeOnAscii()
    ensures Chain(cc, Opening(), Some(next)) && Render(Opening()) == "FROM (\n"
    ensures Bare(cc, Opening()) == [(Word, "FROM"), (Punct, "(")]
  {
    var tail := OpeningTail(cc, next);
    EmbeddingFits(cc, Some('('));
    Prepend(cc, Lexeme(Blank, " "), tail, Some(next));
    Prepend(cc, Lexeme(Word, "FROM"), [Lexeme(Blank, " ")] + tail, Some(next));
    assert Opening() == [Lexeme(Word, "FROM")] + ([Lexeme(Blank, " ")] + tail);
  }

  lemma {:induction false} ClosingFits(cc: Classes)
    requires cc.AgreeOnAscii()
    ensures Chain(cc, Closing(), None) && Render(Closing()) == "\n) AS q"
    ensures Bare(cc, Closing()) == [(Punct, ")"), (Word, "AS"), (Word, "Q")]
  {
    var r1 := ClosingTail(cc);
    EmbeddingFits(cc, Some('A'));
    Prepend(cc, Lexeme(Blank, " "), r1, None);
    var r2 := [Lexeme(Blank, " ")] + r1;
    Prepend(cc, Lexeme(Punct, ")"), r2, None);
    var r3 := [Lexeme(Punct, ")")] + r2;
    EmbeddingFits(cc, Some(')'));
    Prepend(cc, Lexeme(Blank, "\n"), r3, None);
    assert Closing() == [Lexeme(Blank, "\n")] + r3;
  }

  lemma {:induction false} ClosingTail(cc: Classes) returns (r: seq<Lexeme>)
    requires cc.AgreeOnAscii()
    ensures r == [Lexeme(Word, "AS"), Lexeme(Blank, " "), Lexeme(Word, "q")]
    ensures Chain(cc, r, None) && Render(r) == "AS q" && Bare(cc, r) == [(Word, "AS"), (Word, "Q")]
  {
    EmbeddingFits(cc, Some('q'));
    Prepend(cc, Lexeme(Word, "q"), [], None);
    var r1 := [Lexeme(Word, "q")] + [];
    Prepend(cc, Lexeme(Blank, " "), r1, None);
    var r2 := [Lexeme(Blank, " ")] + r1;
    Prepend(cc, Lexeme(Word, "AS"), r2, None);
    r := [Lexeme(Word, "AS")] + r2;
  }

  /** What the text of a derived table brings into the query it is embedded in. */
  function EmbeddedSigns(statement: seq<Sign>): seq<Sign> {
    [Sign(Word, "FROM", false), Sign(Punct, "(", false)] + statement
    + [Sign(Punct, ")", false), Sign(Word, "AS", false), Sign(Word, "Q", false)]
  }

  lemma {:induction false} LexemesChain(cc: Classes, query: string, ls: seq<Lexeme>)
    requires Lexemes(cc, query) == Good(ls)
    ensures Chain(cc, ls, None)
  {
    LexemesCharacterized(cc, query, ls);
  }

  lemma {:induction false} ChainLexemes(cc: Classes, s: string, ls: seq<Lexeme>)
    requires Render(ls) == s && Chain(cc, ls, None)
    ensures Lexemes(cc, s) == Good(ls)
  {
    LexemesCharacterized(cc, s, ls);
  }

  /** Lexemes of the query from a token to a token are a chain that may end the text, or stand
      before white space. */
  lemma {:induction false} MiddleChain(cc: Classes, query: string, ls: seq<Lexeme>, a: nat, b: nat)
    requires cc.AgreeOnAscii() && Lexemes(cc, query) == Good(ls) && a < b <= |ls| && ls[b - 1].Token()
    ensures Chain(cc, ls[a..b], None) && Chain(cc, ls[a..b], Some('\n'))
    ensures ls[a..b][0].body != []
  {
    LexemesChain(cc, query, ls);
    MiddleOfChain(cc, ls, a, b);
  }

  lemma {:induction false} MiddleOfChain(cc: Classes, ls: seq<Lexeme>, a: nat, b: nat)
    requires cc.AgreeOnAscii() && Chain(cc, ls, None) && a < b <= |ls| && ls[b - 1].Token()
    ensures Chain(cc, ls[a..b], None) && Chain(cc, ls[a..b], Some('\n'))
    ensures ls[a..b][0].body != []
  {
    var mid := ls[a..b];
    var next := if b < |ls| then First(ls[b].body) else None;
    ChainSlice(cc, ls, a, b, None);
    assert mid[|mid| - 1] == ls[b - 1];
    ChainBeforeSpace(cc, mid, next, Some('\n'));
    ChainBeforeSpace(cc, mid, next, None);
    assert Fits(cc, mid[0], After(mid, 0, None));
  }

  /** Embedded, the text of a chain of lexemes brings its tokens and no others. */
  lemma {:induction false} EmbeddedText(cc: Classes, mid: seq<Lexeme>)
    requires cc.AgreeOnAscii() && mid != [] && mid[0].body != [] && Chain(cc, mid, Some('\n'))
    requires !HasLineBreakLike(cc, Embedded(Render(mid))) && Bare(cc, mid) != [] && Bare(cc, mid)[0].0 == Word
    ensures var e := Tokens(cc, Embedded(Render(mid)));
      e.Good? && Signs(e.value) == EmbeddedSigns(Signed(Bare(cc, mid)))
  {
    var text, all := Embedded(Render(mid)), Opening() + (mid + Closing());
    EmbeddedChain(cc, mid);
    ChainLexemes(cc, text, all);
    TokensSigns(cc, text, all);
    EmbeddedSigned(Bare(cc, mid));
  }

  lemma {:induction false} FirstBare(bs: seq<(Kind, string)>, st: seq<Token>)
    requires Signed(bs) == Signs(st) && st != [] && st[0].sign.kind == Word
    ensures bs != [] && bs[0].0 == Word
  {
    assert |bs| == |st| && Signed(bs)[0] == Signs(st)[0];
  }

  /** Embedded, an accepted query's text brings the tokens of its statement and no others. */
  lemma {:induction false} EmbeddedTokens(cc: Classes, query: string)
    requires cc.AgreeOnAscii() && Placed(cc, query) && ReadOnly(Signs(Statement(cc, query)))
    ensures var e := Tokens(cc, Embedded(Span(query, Statement(cc, query))));
      e.Good? && Signs(e.value) == EmbeddedSigns(Signs(Statement(cc, query)))
  {
    StartsWithWord(Statement(cc, query));
    NoLineBreaks(cc, query, Span(query, Statement(cc, query)));
    var ls, a, b := StatementLexemes(cc, query);
    MiddleChain(cc, query, ls, a, b);
    FirstBare(Bare(cc, ls[a..b]), Statement(cc, query));
    EmbeddedText(cc, ls[a..b]);
  }

  lemma {:induction false} EmbeddedChain(cc: Classes, mid: seq<Lexeme>)
    requires cc.AgreeOnAscii() && mid != [] && mid[0].body != [] && Chain(cc, mid, Some('\n'))
    ensures var all := Opening() + (mid + Closing());
      && Chain(cc, all, None) && Render(all) == Embedded(Render(mid))
      && Bare(cc, all) == [(Word, "FROM"), (Punct, "(")] + (Bare(cc, mid) + [(Punct, ")"), (Word, "AS"), (Word, "Q")])
  {
    ClosingFits(cc);
    ChainAppend(cc, mid, Closing(), None);
    OpeningFits(cc, mid[0].body[0]);
    ChainAppend(cc, Opening(), mid + Closing(), None);
    RenderAppend(mid, Closing());
    RenderAppend(Opening(), mid + Closing());
    BareAppend(cc, mid, Closing());
    BareAppend(cc, Opening(), mid + Closing());
  }

  lemma {:induction false} NoLineBreaks(cc: Classes, query: string, text: string)
    requires cc.AgreeOnAscii() && !HasLineBreakLike(cc, query) && forall c | c in text :: c in query
    ensures !HasLineBreakLike(cc, Embedded(text)) && !HasLineBreakLike(cc, text)
  {
    forall c | c in Embedded(text) ensures !cc.LineBreakLike(c) {
      if c in query {
        var i :| 0 <= i < |query| && query[i] == c;
      } else {
        assert c in "FROM (\n" || c in "\n) AS q";
      }
    }
    forall i | 0 <= i < |Embedded(text)| ensures !cc.LineBreakLike(Embedded(text)[i]) {
      assert Embedded(text)[i] in Embedded(text);
    }
    forall i | 0 <= i < |text| ensures !cc.LineBreakLike(text[i]) {
      assert text[i] in query;
      var k :| 0 <= k < |query| && query[k] == text[i];
    }
  }

  lemma {:induction false} EmbeddedSigned(bs: seq<(Kind, string)>)
    requires bs != [] && bs[0].0 == Word
    ensures Signed([(Word, "FROM"), (Punct, "(")] + (bs + [(Punct, ")"), (Word, "AS"), (Word, "Q")]))
         == EmbeddedSigns(Signed(bs))
  {
    var n := |bs|;
    var all := [(Word, "FROM"), (Punct, "(")] + (bs + [(Punct, ")"), (Word, "AS"), (Word, "Q")]);
    assert all[2..2 + n] == bs;
    SignedWindow(all, 2, 2 + n);
    forall i | 0 <= i < |all| ensures Signed(all)[i] == EmbeddedSigns(Signed(bs))[i] {
      if 2 <= i < 2 + n {
        assert Signed(all)[i] == Signed(all)[2..2 + n][i - 2];
      } else if i == 1 || i > 2 + n {
        NoDot(all, i);
      }
    }
  }

  /** A word after anything but a dot does not continue a name. */
  lemma {:induction false} NoDot(bs: seq<(Kind, string)>, i: nat)
    requires 0 < i < |bs| && bs[i - 1] != (Punct, ".")
    ensures Signed(bs)[i] == Sign(bs[i].0, bs[i].1, false)
  {
    assert bs[..i][i - 1] == bs[i - 1];
  }

  /** The ')' at j closes the '(' at i. */
  ghost predicate Closes(ss: seq<Sign>, i: nat, j: nat) {
    && i < j < |ss| && ss[i].IsPunct("(") && ss[j].IsPunct(")")
    && Depth(ss, j + 1) == Depth(ss, i)
    && forall k | i < k <= j :: Depth(ss, k) > Depth(ss, i)
  }

  /** The parenthesis put before the text is closed by the one put after it. */
  lemma {:induction false} EmbeddedParentheses(statement: seq<Sign>)
    requires ReadOnly(statement)
    ensures Closes(EmbeddedSigns(statement), 1, |statement| + 2)
  {
    var e, n := EmbeddedSigns(statement), |statement|;
    assert Depth(e, 1) == 0;
    forall k | 0 <= k <= n ensures Depth(e, 2 + k) == 1 + Depth(statement, k) {
      DepthShift(e, statement, k);
    }
    forall k | 1 < k <= n + 2 ensures Depth(e, k) > 0 {
      assert Depth(e, 2 + (k - 2)) == 1 + Depth(statement, k - 2);
      assert k > 2 ==> Clean(statement, k - 3);
    }
  }

  lemma {:induction false} DepthShift(e: seq<Sign>, ss: seq<Sign>, k: nat)
    requires k <= |ss| && e == EmbeddedSigns(ss)
    ensures Depth(e, 2 + k) == 1 + Depth(ss, k)
  {
    if k == 0 {
      assert Depth(e, 1) == 0;
    } else {
      DepthShift(e, ss, k - 1);
      assert e[2 + k - 1] == ss[k - 1];
    }
  }

  // ------------------------------------------------------------ extracting twice

  /** The text is a query of the statement st, from end to end. */
  ghost predicate IsWhole(cc: Classes, text: string, st: seq<Token>) {
    && Placed(cc, text) && Signs(Statement(cc, text)) == Signs(st)
    && Span(text, Statement(cc, text)) == text
  }

  /** The text of an accepted query is accepted again, and extracts to itself. */
  lemma {:induction false} ExtractedTwice(cc: Classes, query: string)
    requires cc.AgreeOnAscii() && Accepts(cc, query)
    ensures Placed(cc, query)
    ensures var text := Span(query, Statement(cc, query));
      Accepts(cc, text) && Placed(cc, text) && Span(text, Statement(cc, text)) == text
  {
    StatementPlaced(cc, query);
    ExtractedStatement(cc, query);
  }

  /** The text of a read-only query is a query of the same statement, from end to end. */
  lemma {:induction false} ExtractedStatement(cc: Classes, query: string)
    requires cc.AgreeOnAscii() && Placed(cc, query) && ReadOnly(Signs(Statement(cc, query)))
    ensures IsWhole(cc, Span(query, Statement(cc, query)), Statement(cc, query))
  {
    StartsWithWord(Statement(cc, query));
    NoLineBreaks(cc, query, Span(query, Statement(cc, query)));
    var ls, a, b := StatementLexemes(cc, query);
    MiddleChain(cc, query, ls, a, b);
    assert ls[a..b][0] == ls[a] && ls[a..b][b - a - 1] == ls[b - 1];
    ExtractedFrom(cc, ls[a..b], Statement(cc, query));
  }

  /** A text that a chain of lexemes spells, with a read-only statement's tokens, is that statement. */
  lemma {:induction false} ExtractedFrom(cc: Classes, mid: seq<Lexeme>, st: seq<Token>)
    requires mid != [] && mid[0].Token() && mid[|mid| - 1].Token() && Chain(cc, mid, None)
    requires !HasLineBreakLike(cc, Render(mid)) && ReadOnly(Signs(st)) && Signed(Bare(cc, mid)) == Signs(st)
    ensures IsWhole(cc, Render(mid), st)
  {
    var ts := ExtractedTokens(cc, mid);
    NothingToTrim(ts);
    FirstAndLast(cc, mid, ts);
    WholeText(cc, Render(mid), ts);
  }

  lemma {:induction false} StartsWithWord(st: seq<Token>)
    requires ReadOnly(Signs(st)) && st != []
    ensures st[0].sign.kind == Word
  {
    assert Signs(st)[0] == st[0].sign;
  }

  /** A text whose tokens go from end to end, with nothing to trim, is its own statement. */
  lemma {:induction false} WholeText(cc: Classes, text: string, ts: seq<Token>)
    requires Tokens(cc, text) == Good(ts) && TrimEnd(TrimStart(ts)) == ts
    requires ts != [] && ts[0].start == 0 && ts[|ts| - 1].end == |text|
    ensures Placed(cc, text) && Statement(cc, text) == ts && Span(text, ts) == text
  {
  }

  lemma {:induction false} ExtractedTokens(cc: Classes, mid: seq<Lexeme>) returns (ts: seq<Token>)
    requires Chain(cc, mid, None) && !HasLineBreakLike(cc, Render(mid))
    ensures Tokens(cc, Render(mid)) == Good(ts) && ts == EmitAll(cc, [], mid, 0) && Signs(ts) == Signed(Bare(cc, mid))
  {
    ChainLexemes(cc, Render(mid), mid);
    TokensSigns(cc, Render(mid), mid);
    ts := Tokens(cc, Render(mid)).value;
  }

  lemma {:induction false} NothingToTrim(ts: seq<Token>)
    requires ReadOnly(Signs(ts))
    ensures TrimEnd(TrimStart(ts)) == ts
  {
    if ts != [] {
      assert Clean(Signs(ts), 0) && Clean(Signs(ts), |ts| - 1);
      assert Signs(ts)[0] == ts[0].sign && Signs(ts)[|ts| - 1] == ts[|ts| - 1].sign;
    }
  }

  lemma {:induction false} FirstAndLast(cc: Classes, ls: seq<Lexeme>, ts: seq<Token>)
    requires ls != [] && ls[0].Token() && ls[|ls| - 1].Token() && ts == EmitAll(cc, [], ls, 0)
    ensures ts != [] && ts[0].start == 0 && ts[|ts| - 1].end == |Render(ls)|
  {
    var n := |ls| - 1;
    EmitAllSigns(cc, [], ls, 0, []);
    assert |ts| == |Signs(ts)| == |Bare(cc, ls)| by { assert [] + Bare(cc, ls) == Bare(cc, ls); }
    assert ls[..n + 1] == ls;
    LastBare(cc, ls);
    var m := TokenOrigin(cc, [], ls, 0, |ts| - 1);
    BareOrder(cc, ls, n, m, |ts| - 1, |ts| - 1);
    var k := TokenOrigin(cc, [], ls, 0, 0);
    BareOrder(cc, ls, k, 0, 0, 0);
  }

  lemma {:induction false} LastBare(cc: Classes, ls: seq<Lexeme>)
    requires ls != [] && ls[|ls| - 1].Token()
    ensures |Bare(cc, ls)| == |Bare(cc, ls[..|ls| - 1])| + 1
  {
    var n := |ls| - 1;
    assert ls == ls[..n] + [ls[n]];
    BareAppend(cc, ls[..n], [ls[n]]);
    assert [ls[n]][1..] == [];
  }
}

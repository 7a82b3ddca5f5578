/**
  The token list of a query: the lexemes that are tokens, each with its text, its place
  and whether it continues a multi-part name, and the loops that compute them.
*/
module SqlTokens {
  import opened Basics
  import opened SqlLexer

  /** A token apart from its place: all the validator looks at. */
  datatype Sign = Sign(kind: Kind, text: string, afterDot: bool) {
    predicate IsWord(w: string) { kind == Word && text == w }
    predicate IsPunct(p: string) { kind == Punct && text == p }
    predicate IsName() { kind == Word || kind == Quoted || kind == Variable }
  }

  datatype Token = Token(sign: Sign, start: nat, end: nat)

  /** A word keeps its upper-cased text and a punctuation its character; the rest keep none. */
  function TokenText(cc: Classes, x: Lexeme): string {
    if x.kind == Word then cc.UpperText(x.body) else if x.kind == Punct then x.body else []
  }

  /** The tokens so far end in a '.' that continues a name. */
  predicate DotBefore(ts: seq<Token>) {
    var n := |ts|;
    n >= 2 && ts[n - 1].sign.IsPunct(".") && (ts[n - 2].sign.IsName() || ts[n - 2].sign.IsPunct("."))
  }

  /** The tokens so far and the one x adds, if it is one, at offset off. */
  function Emit(cc: Classes, ts: seq<Token>, x: Lexeme, off: nat): seq<Token> {
    if x.Token()
    then ts + [Token(Sign(x.kind, TokenText(cc, x), x.kind == Word && DotBefore(ts)), off, off + |x.body|)]
    else ts
  }

  function EmitAll(cc: Classes, ts: seq<Token>, ls: seq<Lexeme>, off: nat): seq<Token>
    decreases |ls|
  {
    if ls == [] then ts else EmitAll(cc, Emit(cc, ts, ls[0], off), ls[1..], off + |ls[0].body|)
  }

  predicate HasLineBreakLike(cc: Classes, s: string) {
    exists i | 0 <= i < |s| :: cc.LineBreakLike(s[i])
  }

  /** The tokens of a query, or why it has none. */
  function Tokens(cc: Classes, query: string): Outcome<seq<Token>> {
    if HasLineBreakLike(cc, query) then Bad(ControlCharacter)
    else TokensFrom(cc, query, [], 0)
  }

  /** What the scan of the text s, at offset off, makes of the tokens so far. */
  function TokensFrom(cc: Classes, s: string, ts: seq<Token>, off: nat): Outcome<seq<Token>> {
    match Lexemes(cc, s)
    case Bad(e) => Bad(e)
    case Good(ls) => Good(EmitAll(cc, ts, ls, off))
  }

  // ------------------------------------------------------------ the loops

  /** The end of the name that goes on at query[i..]. */
  method WordEnd(cc: Classes, query: string, i: nat) returns (end: nat)
    requires i <= |query|
    ensures end == i + WordLen(cc, query[i..])
  {
    end := i;
    while end < |query| && cc.WordChar(query[end])
      invariant i <= end <= |query|
      invariant WordLen(cc, query[i..]) == end - i + WordLen(cc, query[end..])
    {
      assert query[end..][1..] == query[end + 1..];
      end := end + 1;
    }
  }

  /** The end of the run of digits, or hexadecimal digits, at query[i..], in a number in state q. */
  method DigitsEnd(query: string, i: nat, hex: bool, ghost q: NumberState) returns (end: nat)
    requires i <= |query|
    requires q == Hex || q == Digits || q == Fraction || q == Exponent
    requires hex <==> q == Hex
    ensures i <= end <= |query|
    ensures NumberLen(q, query[i..]) == end - i + NumberLen(q, query[end..])
    ensures end < |query| ==> !IsDigit(query[end]) && (hex ==> NumberStep(Hex, query[end]).None?)
  {
    end := i;
    while end < |query| && (IsDigit(query[end]) || (hex && ('a' <= query[end] <= 'f' || 'A' <= query[end] <= 'F')))
      invariant i <= end <= |query|
      invariant NumberLen(q, query[i..]) == end - i + NumberLen(q, query[end..])
    {
      assert query[end..][1..] == query[end + 1..];
      end := end + 1;
    }
  }

  /** The end of the number that starts at query[i] with a digit. */
  method NumberEnd(query: string, i: nat) returns (end: nat)
    requires i < |query| && IsDigit(query[i])
    ensures end == i + NumberLen(Start, query[i..])
  {
    assert query[i..][1..] == query[i + 1..];
    if i + 1 < |query| && query[i] == '0' && (query[i + 1] == 'x' || query[i + 1] == 'X') {
      assert query[i + 1..][1..] == query[i + 2..];
      end := DigitsEnd(query, i + 2, true, Hex);
      return;
    }
    ZeroIsDigits(query[i + 1..]);
    end := DigitsEnd(query, i, false, Digits);
    if end < |query| && query[end] == '.' {
      assert query[end..][1..] == query[end + 1..];
      end := DigitsEnd(query, end + 1, false, Fraction);
      end := ExponentEnd(query, end, Fraction);
    } else {
      end := ExponentEnd(query, end, Digits);
    }
  }

  /** The end of the exponent, if there is one, of a number whose digits in state q ended at query[i..]. */
  method ExponentEnd(query: string, i: nat, ghost q: NumberState) returns (end: nat)
    requires i <= |query| && (q == Digits || q == Fraction)
    requires i < |query| ==> !IsDigit(query[i]) && (q == Digits ==> query[i] != '.')
    ensures end == i + NumberLen(q, query[i..])
  {
    if i == |query| || !(query[i] == 'e' || query[i] == 'E') {
      return i;
    }
    assert query[i..][1..] == query[i + 1..];
    end := i + 1;
    if end < |query| && (query[end] == '+' || query[end] == '-') {
      assert query[end..][1..] == query[end + 1..];
      end := end + 1;
    } else {
      SignIsOptional(query[end..]);
    }
    end := DigitsEnd(query, end, false, Exponent);
  }

  lemma {:induction false} ZeroIsDigits(s: string)
    ensures First(s) != Some('x') && First(s) != Some('X') ==> NumberLen(Zero, s) == NumberLen(Digits, s)
  {
  }

  lemma {:induction false} SignIsOptional(s: string)
    ensures First(s) != Some('+') && First(s) != Some('-') ==> NumberLen(ExponentSign, s) == NumberLen(Exponent, s)
  {
  }

  /** The end of the quoted text that opens at query[start], or none when it is not closed. */
  method QuotedEnd(query: string, start: nat, closer: char) returns (end: Option<nat>)
    requires start < |query|
    ensures end == Plus(start + 1, QuotedLen(query[start + 1..], closer))
  {
    var i := start + 1;
    while i < |query|
      invariant start < i <= |query|
      invariant QuotedLen(query[start + 1..], closer) == Plus(i - start - 1, QuotedLen(query[i..], closer))
    {
      assert query[i..][1..] == query[i + 1..];
      if query[i] != closer {
        i := i + 1;
      } else if i + 1 < |query| && query[i + 1] == closer {
        assert query[i..][2..] == query[i + 2..];
        i := i + 2;
      } else {
        return Some(i + 1);
      }
    }
    return None;
  }

  /** How far a block comment goes on from query[i]. */
  function BlockFrom(query: string, i: nat, depth: nat): Option<nat>
    decreases |query| - i
  {
    if i + 1 >= |query| then None
    else if query[i] == '/' && query[i + 1] == '*' then Plus(2, BlockFrom(query, i + 2, depth + 1))
    else if query[i] == '*' && query[i + 1] == '/' then
      if depth <= 1 then Some(2) else Plus(2, BlockFrom(query, i + 2, depth - 1))
    else Plus(1, BlockFrom(query, i + 1, depth))
  }

  lemma {:induction false} BlockFromLen(query: string, i: nat, depth: nat)
    requires i <= |query|
    ensures BlockFrom(query, i, depth) == BlockLen(query[i..], depth)
    decreases |query| - i
  {
    if i + 1 < |query| {
      assert query[i..][1..] == query[i + 1..] && query[i..][2..] == query[i + 2..];
      BlockFromLen(query, i + 1, depth);
      BlockFromLen(query, i + 2, depth + 1);
      if depth > 1 { BlockFromLen(query, i + 2, depth - 1); }
    }
  }

  /** The end of the block comment that opens at query[start], or none; block comments nest. */
  method BlockCommentEnd(query: string, start: nat) returns (end: Option<nat>)
    requires start + 1 < |query| && query[start] == '/' && query[start + 1] == '*'
    ensures end == Plus(start, BlockLen(query[start..], 0))
  {
    var i, depth := start, 0;
    BlockFromLen(query, start, 0);
    ghost var length := BlockFrom(query, start, 0);
    while i + 1 < |query|
      invariant start <= i <= |query|
      invariant 0 <= depth && (i == start <==> depth == 0)
      invariant length == Plus(i - start, BlockFrom(query, i, depth))
    {
      if query[i] == '/' && query[i + 1] == '*' {
        depth, i := depth + 1, i + 2;
      } else if query[i] == '*' && query[i + 1] == '/' {
        depth, i := depth - 1, i + 2;
        if depth == 0 {
          return Some(i);
        }
      } else {
        i := i + 1;
      }
    }
    return None;
  }

  /** The end of the line comment at query[start..]: the first CR or LF, or the end of the query. */
  method LineCommentEnd(query: string, start: nat) returns (end: nat)
    requires start + 1 < |query| && query[start] == '-' && query[start + 1] == '-'
    ensures end == start + LineCommentLen(query[start..])
  {
    end := start + 2;
    assert query[start..][2..] == query[end..];
    while end < |query| && !EndsLine(query[end])
      invariant start + 2 <= end <= |query|
      invariant LineLen(query[start + 2..]) == end - start - 2 + LineLen(query[end..])
    {
      assert query[end..][1..] == query[end + 1..];
      end := end + 1;
    }
  }

  /** The end of the piece at query[i..], and its kind. */
  method ScanAt(cc: Classes, query: string, i: nat) returns (r: Outcome<(Kind, nat)>)
    requires i < |query|
    ensures r.Bad? ==> Scan(cc, query[i..]) == Bad(r.error)
    ensures r.Good? ==> i < r.value.1 <= |query| && Scan(cc, query[i..]) == Good(Lexeme(r.value.0, query[i..r.value.1]))
  {
    var c, s := query[i], query[i..];
    assert forall n: nat | n <= |s| :: s[..n] == query[i..i + n];
    assert s[1..] == query[i + 1..];
    if c in cc.spaces {
      return Good((Blank, i + 1));
    } else if i + 1 < |query| && c == '-' && query[i + 1] == '-' {
      var end := LineCommentEnd(query, i);
      return Good((LineComment, end));
    } else if i + 1 < |query| && c == '/' && query[i + 1] == '*' {
      var end := BlockCommentEnd(query, i);
      return if end.Some? then Good((BlockComment, end.value)) else Bad(UnterminatedComment);
    } else if c == '\'' {
      var end := QuotedEnd(query, i, '\'');
      return if end.Some? then Good((Str, end.value)) else Bad(UnterminatedString);
    } else if c == '[' {
      var end := QuotedEnd(query, i, ']');
      return if end.Some? then Good((Quoted, end.value)) else Bad(UnterminatedBracket);
    } else if c == '"' {
      var end := QuotedEnd(query, i, '"');
      return if end.Some? then Good((Quoted, end.value)) else Bad(UnterminatedQuote);
    } else if c == '@' || c == '#' {
      var end := WordEnd(cc, query, i + 1);
      return Good((Variable, end));
    } else if cc.WordStart(c) {
      var end := WordEnd(cc, query, i);
      return Good((Word, end));
    } else if IsDigit(c) {
      var end := NumberEnd(query, i);
      return Good((Number, end));
    } else {
      return Good((Punct, i + 1));
    }
  }

  /** The tokenizer: it moves i past one piece after another and appends its token. */
  method Tokenize(cc: Classes, query: string) returns (r: Outcome<seq<Token>>)
    ensures r == Tokens(cc, query)
  {
    if HasLineBreakLike(cc, query) {
      return Bad(ControlCharacter);
    }
    var tokens, i := [], 0;
    while i < |query|
      invariant 0 <= i <= |query|
      invariant TokensFrom(cc, query[i..], tokens, i) == Tokens(cc, query)
    {
      var piece := ScanAt(cc, query, i);
      if piece.Bad? {
        return Bad(piece.error);
      }
      var (kind, end) := piece.value;
      TokensStep(cc, query, i, Lexeme(kind, query[i..end]), end, tokens);
      tokens := Emit(cc, tokens, Lexeme(kind, query[i..end]), i);
      i := end;
    }
    return Good(tokens);
  }

  lemma {:induction false} TokensStep(cc: Classes, query: string, i: nat, x: Lexeme, end: nat, ts: seq<Token>)
    requires i < end <= |query| && x.body == query[i..end] && Scan(cc, query[i..]) == Good(x)
    ensures TokensFrom(cc, query[i..], ts, i) == TokensFrom(cc, query[end..], Emit(cc, ts, x, i), end)
  {
    assert query[i..][|x.body|..] == query[end..];
    var rest := Lexemes(cc, query[end..]);
    if rest.Good? {
      assert ([x] + rest.value)[1..] == rest.value;
    }
  }

  // ------------------------------------------------------------ tokens without their places

  function Signs(ts: seq<Token>): (r: seq<Sign>)
    ensures |r| == |ts|
  {
    seq(|ts|, i requires 0 <= i < |ts| => ts[i].sign)
  }

  /** What the tokens of ls are, apart from their places and the names they continue. */
  function Bare(cc: Classes, ls: seq<Lexeme>): seq<(Kind, string)> {
    if ls == [] then []
    else (if ls[0].Token() then [(ls[0].kind, TokenText(cc, ls[0]))] else []) + Bare(cc, ls[1..])
  }

  /** Whether the token after bs, were it a word, would continue a name. */
  predicate DotAfter(bs: seq<(Kind, string)>) {
    var n := |bs|;
    && n >= 2 && bs[n - 1] == (Punct, ".")
    && (bs[n - 2].0 == Word || bs[n - 2].0 == Quoted || bs[n - 2].0 == Variable || bs[n - 2] == (Punct, "."))
  }

  /** The signs of a token list, from its kinds and texts alone. */
  function Signed(bs: seq<(Kind, string)>): (r: seq<Sign>)
    ensures |r| == |bs|
  {
    seq(|bs|, i requires 0 <= i < |bs| => Sign(bs[i].0, bs[i].1, bs[i].0 == Word && DotAfter(bs[..i])))
  }

  lemma {:induction false} EmitAllSigns(cc: Classes, ts: seq<Token>, ls: seq<Lexeme>, off: nat, bs: seq<(Kind, string)>)
    requires Signs(ts) == Signed(bs)
    ensures Signs(EmitAll(cc, ts, ls, off)) == Signed(bs + Bare(cc, ls))
    decreases |ls|
  {
    if ls == [] {
      assert bs + Bare(cc, ls) == bs;
    } else {
      var x := ls[0];
      var next := if x.Token() then bs + [(x.kind, TokenText(cc, x))] else bs;
      SignsLast(ts, bs);
      assert Signs(Emit(cc, ts, x, off)) == Signed(next) by {
        forall i | 0 <= i < |bs| ensures Signs(Emit(cc, ts, x, off))[i] == Signed(next)[i] {
          assert next[..i] == bs[..i];
          assert Signs(ts)[i] == Signed(bs)[i];
        }
        assert next[..|bs|] == bs;
      }
      EmitAllSigns(cc, Emit(cc, ts, x, off), ls[1..], off + |x.body|, next);
      assert bs + Bare(cc, ls) == next + Bare(cc, ls[1..]);
    }
  }

  lemma {:induction false} SignsLast(ts: seq<Token>, bs: seq<(Kind, string)>)
    requires Signs(ts) == Signed(bs)
    ensures DotBefore(ts) <==> DotAfter(bs)
  {
    var n := |ts|;
    assert n == |bs|;
    if n >= 2 {
      assert ts[n - 1].sign == Signs(ts)[n - 1] == Signed(bs)[n - 1];
      assert ts[n - 2].sign == Signs(ts)[n - 2] == Signed(bs)[n - 2];
      assert bs[n - 1] == (bs[n - 1].0, bs[n - 1].1);
      assert bs[n - 2] == (bs[n - 2].0, bs[n - 2].1);
    }
  }

  /** The signs of a query's tokens are those of its lexemes. */
  lemma {:induction false} TokensSigns(cc: Classes, s: string, ls: seq<Lexeme>)
    requires !HasLineBreakLike(cc, s) && Lexemes(cc, s) == Good(ls)
    ensures Tokens(cc, s).Good? && Signs(Tokens(cc, s).value) == Signed(Bare(cc, ls))
  {
    EmitAllSigns(cc, [], ls, 0, []);
    assert [] + Bare(cc, ls) == Bare(cc, ls);
  }

  lemma {:induction false} BareAppend(cc: Classes, a: seq<Lexeme>, b: seq<Lexeme>)
    ensures Bare(cc, a + b) == Bare(cc, a) + Bare(cc, b)
  {
    if a == [] {
      assert a + b == b;
    } else {
      assert (a + b)[1..] == a[1..] + b;
      BareAppend(cc, a[1..], b);
    }
  }

  // ------------------------------------------------------------ where the tokens are

  /** Token spans are non-empty, in order, disjoint and inside the text. */
  predicate Spaced(ts: seq<Token>, off: nat) {
    && (forall i | 0 <= i < |ts| :: ts[i].start < ts[i].end <= off)
    && (forall i, j | 0 <= i < j < |ts| :: ts[i].end <= ts[j].start)
  }

  lemma {:induction false} EmitAllSpaced(cc: Classes, ts: seq<Token>, ls: seq<Lexeme>, off: nat)
    requires Spaced(ts, off)
    requires forall x | x in ls :: x.body != []
    ensures Spaced(EmitAll(cc, ts, ls, off), off + |Render(ls)|)
    decreases |ls|
  {
    if ls != [] {
      assert ls[0] in ls;
      EmitAllSpaced(cc, Emit(cc, ts, ls[0], off), ls[1..], off + |ls[0].body|);
    }
  }

  /** The tokens of a query are non-empty stretches of it, in order and disjoint. */
  lemma {:induction false} TokensSpaced(cc: Classes, query: string)
    requires Tokens(cc, query).Good?
    ensures Spaced(Tokens(cc, query).value, |query|)
  {
    var ls := Lexemes(cc, query).value;
    LexemesCharacterized(cc, query, ls);
    EmitAllSpaced(cc, [], ls, 0);
  }
}

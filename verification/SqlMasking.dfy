/**
  What the read-only check does not see: the inside of strings and quoted identifiers, and
  comments.  Replacing any of them leaves the token list, apart from places, and the verdict
  as they are.
*/
module SqlMasking {
  import opened Basics
  import opened SqlLexer
  import opened SqlTokens
  import opened SqlValidate

  /** A body with every closer doubled. */
  function Doubled(b: string, closer: char): string {
    if b == [] then [] else (if b[0] == closer then [closer, closer] else [b[0]]) + Doubled(b[1..], closer)
  }

  /** The quoted lexeme x with another body. */
  function Requoted(x: Lexeme, b: string): Lexeme
    requires x.body != []
  {
    Lexeme(x.kind, [x.body[0]] + Doubled(b, CloserOf(x.body[0])) + [CloserOf(x.body[0])])
  }

  lemma {:induction false} DoubledCloses(b: string, closer: char)
    ensures QuotedLen(Doubled(b, closer) + [closer], closer) == Some(|Doubled(b, closer)| + 1)
  {
    if b != [] {
      var rest := Doubled(b[1..], closer) + [closer];
      var s := Doubled(b, closer) + [closer];
      DoubledCloses(b[1..], closer);
      if b[0] == closer {
        assert s == [closer, closer] + rest;
        assert s[2..] == rest;
      } else {
        assert s == [b[0]] + rest;
        assert s[1..] == rest;
      }
    }
  }

  lemma {:induction false} RequotedFits(cc: Classes, x: Lexeme, b: string, next: Option<char>)
    requires (x.kind == Str || x.kind == Quoted) && Fits(cc, x, next)
    ensures Fits(cc, Requoted(x, b), next)
  {
    var closer := CloserOf(x.body[0]);
    DoubledCloses(b, closer);
    assert Requoted(x, b).body[1..] == Doubled(b, closer) + [closer];
  }

  /** The text with the piece ls[i] replaced by x. */
  function Replaced(ls: seq<Lexeme>, i: nat, x: Lexeme): string
    requires i < |ls|
  {
    Render(ls[..i]) + x.body + Render(ls[i + 1..])
  }

  lemma {:induction false} RenderUpdate(ls: seq<Lexeme>, i: nat, x: Lexeme)
    requires i < |ls|
    ensures Render(ls[i := x]) == Replaced(ls, i, x)
  {
    var tail := [x] + ls[i + 1..];
    assert ls[i := x] == ls[..i] + tail;
    RenderAppend(ls[..i], tail);
    assert tail[1..] == ls[i + 1..];
  }

  lemma {:induction false} BareUpdate(cc: Classes, ls: seq<Lexeme>, i: nat, x: Lexeme)
    requires i < |ls| && Bare(cc, [x]) == Bare(cc, [ls[i]])
    ensures Bare(cc, ls[i := x]) == Bare(cc, ls)
  {
    assert ls[i := x] == ls[..i] + ([x] + ls[i + 1..]);
    assert ls == ls[..i] + ([ls[i]] + ls[i + 1..]);
    BareAppend(cc, ls[..i], [x] + ls[i + 1..]);
    BareAppend(cc, ls[..i], [ls[i]] + ls[i + 1..]);
    BareAppend(cc, [x], ls[i + 1..]);
    BareAppend(cc, [ls[i]], ls[i + 1..]);
  }

  /** Two queries with the same tokens, apart from places, get the same verdict. */
  lemma {:induction false} SameSignsSameVerdict(cc: Classes, s: string, t: string)
    requires Tokens(cc, s).Good? && Tokens(cc, t).Good?
    requires Signs(Tokens(cc, s).value) == Signs(Tokens(cc, t).value)
    ensures QueryVerdict(cc, s) == QueryVerdict(cc, t)
  {
    TrimSigns(Tokens(cc, s).value, Tokens(cc, t).value);
  }

  lemma {:induction false} TrimSigns(a: seq<Token>, b: seq<Token>)
    requires Signs(a) == Signs(b)
    ensures Signs(TrimEnd(TrimStart(a))) == Signs(TrimEnd(TrimStart(b)))
  {
    TrimStartSigns(a, b);
    TrimEndSigns(TrimStart(a), TrimStart(b));
  }

  lemma {:induction false} TrimStartSigns(a: seq<Token>, b: seq<Token>)
    requires Signs(a) == Signs(b)
    ensures Signs(TrimStart(a)) == Signs(TrimStart(b))
    decreases |a|
  {
    assert |a| == |Signs(a)| == |Signs(b)| == |b|;
    if a != [] {
      assert a[0].sign == Signs(a)[0] == Signs(b)[0] == b[0].sign;
      assert Signs(a[1..]) == Signs(a)[1..] && Signs(b[1..]) == Signs(b)[1..];
      TrimStartSigns(a[1..], b[1..]);
    }
  }

  lemma {:induction false} TrimEndSigns(a: seq<Token>, b: seq<Token>)
    requires Signs(a) == Signs(b)
    ensures Signs(TrimEnd(a)) == Signs(TrimEnd(b))
    decreases |a|
  {
    assert |a| == |Signs(a)| == |Signs(b)| == |b|;
    if a != [] {
      var n := |a| - 1;
      assert a[n].sign == Signs(a)[n] == Signs(b)[n] == b[n].sign;
      assert Signs(a[..n]) == Signs(a)[..n] && Signs(b[..n]) == Signs(b)[..n];
      TrimEndSigns(a[..n], b[..n]);
    }
  }

  lemma {:induction false} NoBreaksReplaced(cc: Classes, before: string, x: string, y: string, after: string)
    requires !HasLineBreakLike(cc, before + x + after) && !HasLineBreakLike(cc, y)
    ensures !HasLineBreakLike(cc, before + y + after) && !HasLineBreakLike(cc, x)
  {
    var s, t, n := before + x + after, before + y + after, |before|;
    forall j | 0 <= j < |t| ensures !cc.LineBreakLike(t[j]) {
      if j < n {
        assert t[j] == s[j];
      } else if j < n + |y| {
        assert t[j] == y[j - n];
      } else {
        assert t[j] == s[j - |y| + |x|];
      }
    }
    forall j | 0 <= j < |x| ensures !cc.LineBreakLike(x[j]) {
      assert x[j] == s[n + j];
    }
  }

  /** Replacing a piece by one that fits in its place and gives the same token changes nothing else. */
  lemma {:induction false} ReplacePiece(cc: Classes, query: string, ls: seq<Lexeme>, i: nat, x: Lexeme)
    requires Lexemes(cc, query) == Good(ls) && i < |ls| && !HasLineBreakLike(cc, query)
    requires !HasLineBreakLike(cc, x.body)
    requires Chain(cc, ls[i := x], None) && Bare(cc, [x]) == Bare(cc, [ls[i]])
    ensures var masked := Replaced(ls, i, x);
      && Lexemes(cc, masked) == Good(ls[i := x])
      && Tokens(cc, masked).Good? && Tokens(cc, query).Good?
      && Signs(Tokens(cc, masked).value) == Signs(Tokens(cc, query).value)
      && QueryVerdict(cc, masked) == QueryVerdict(cc, query)
  {
    var masked := Replaced(ls, i, x);
    RenderUpdate(ls, i, x);
    LexemesCharacterized(cc, masked, ls[i := x]);
    assert ls[i := ls[i]] == ls;
    RenderUpdate(ls, i, ls[i]);
    LexemesCharacterized(cc, query, ls);
    NoBreaksReplaced(cc, Render(ls[..i]), ls[i].body, x.body, Render(ls[i + 1..]));
    BareUpdate(cc, ls, i, x);
    TokensSigns(cc, masked, ls[i := x]);
    TokensSigns(cc, query, ls);
    SameSignsSameVerdict(cc, masked, query);
  }

  lemma {:induction false} ChainUpdate(cc: Classes, ls: seq<Lexeme>, i: nat, x: Lexeme)
    requires Chain(cc, ls, None) && i < |ls|
    requires Fits(cc, x, After(ls, i, None))
    requires i > 0 ==> Fits(cc, ls[i - 1], First(x.body))
    ensures Chain(cc, ls[i := x], None)
  {
    var m := ls[i := x];
    forall j | 0 <= j < |m| ensures Fits(cc, m[j], After(m, j, None)) {
      assert Fits(cc, ls[j], After(ls, j, None));
      if j + 1 != i && j != i {
        assert After(m, j, None) == After(ls, j, None);
      }
    }
  }

  /** Any string or quoted identifier may hold any text, with its closers doubled, without a change
      to the tokens or the verdict. */
  lemma {:induction false} MaskQuoted(cc: Classes, query: string, ls: seq<Lexeme>, i: nat, b: string)
    requires Lexemes(cc, query) == Good(ls) && i < |ls| && (ls[i].kind == Str || ls[i].kind == Quoted)
    requires !HasLineBreakLike(cc, query) && !HasLineBreakLike(cc, b)
    ensures ls[i].body != []
    ensures var masked := Replaced(ls, i, Requoted(ls[i], b));
      && Lexemes(cc, masked) == Good(ls[i := Requoted(ls[i], b)])
      && Tokens(cc, masked).Good? && Tokens(cc, query).Good?
      && Signs(Tokens(cc, masked).value) == Signs(Tokens(cc, query).value)
      && QueryVerdict(cc, masked) == QueryVerdict(cc, query)
  {
    LexemesCharacterized(cc, query, ls);
    assert Fits(cc, ls[i], After(ls, i, None));
    var x := Requoted(ls[i], b);
    RequotedFits(cc, ls[i], b, After(ls, i, None));
    assert i > 0 ==> Fits(cc, ls[i - 1], After(ls, i - 1, None));
    ChainUpdate(cc, ls, i, x);
    RequotedChars(cc, query, ls, i, b);
    ReplacePiece(cc, query, ls, i, x);
  }

  lemma {:induction false} PieceFits(cc: Classes, query: string, ls: seq<Lexeme>, i: nat)
    requires Lexemes(cc, query) == Good(ls) && i < |ls|
    ensures Render(ls) == query && Fits(cc, ls[i], After(ls, i, None))
  {
    LexemesCharacterized(cc, query, ls);
  }

  lemma {:induction false} PieceBreaks(cc: Classes, ls: seq<Lexeme>, i: nat)
    requires i < |ls| && !HasLineBreakLike(cc, Render(ls))
    ensures !HasLineBreakLike(cc, ls[i].body)
  {
    assert ls[i := ls[i]] == ls;
    RenderUpdate(ls, i, ls[i]);
    NoBreaksReplaced(cc, Render(ls[..i]), ls[i].body, [], Render(ls[i + 1..]));
  }

  lemma {:induction false} RequotedChars(cc: Classes, query: string, ls: seq<Lexeme>, i: nat, b: string)
    requires Lexemes(cc, query) == Good(ls) && i < |ls| && (ls[i].kind == Str || ls[i].kind == Quoted)
    requires !HasLineBreakLike(cc, query) && !HasLineBreakLike(cc, b) && ls[i].body != []
    ensures !HasLineBreakLike(cc, Requoted(ls[i], b).body)
  {
    PieceFits(cc, query, ls, i);
    PieceBreaks(cc, ls, i);
    QuotedBody(cc, ls[i], After(ls, i, None));
    RequotedBreaks(cc, ls[i], b);
  }

  lemma {:induction false} QuotedBody(cc: Classes, x: Lexeme, next: Option<char>)
    requires Fits(cc, x, next) && (x.kind == Str || x.kind == Quoted)
    ensures |x.body| > 1 && QuotedLen(x.body[1..], CloserOf(x.body[0])) == Some(|x.body| - 1)
  {
  }

  lemma {:induction false} RequotedBreaks(cc: Classes, x: Lexeme, b: string)
    requires |x.body| > 1 && QuotedLen(x.body[1..], CloserOf(x.body[0])) == Some(|x.body| - 1)
    requires !HasLineBreakLike(cc, x.body) && !HasLineBreakLike(cc, b)
    ensures !HasLineBreakLike(cc, Requoted(x, b).body)
  {
    var t, closer := Requoted(x, b).body, CloserOf(x.body[0]);
    QuotedEndsInCloser(x.body[1..], closer);
    assert closer == x.body[|x.body| - 1] && !cc.LineBreakLike(closer) && !cc.LineBreakLike(x.body[0]);
    DoubledChars(b, closer);
    forall j | 0 <= j < |t| ensures !cc.LineBreakLike(t[j]) {
      if 0 < j < |t| - 1 {
        assert t[j] == Doubled(b, closer)[j - 1];
        assert t[j] in Doubled(b, closer);
        if t[j] != closer {
          var m :| 0 <= m < |b| && b[m] == t[j];
        }
      }
    }
  }

  lemma {:induction false} QuotedEndsInCloser(s: string, closer: char)
    requires QuotedLen(s, closer) == Some(|s|)
    ensures s[|s| - 1] == closer
    decreases |s|
  {
    if s[0] != closer {
      QuotedEndsInCloser(s[1..], closer);
    } else if |s| > 1 && s[1] == closer {
      QuotedEndsInCloser(s[2..], closer);
    }
  }

  lemma {:induction false} DoubledChars(b: string, closer: char)
    ensures forall c | c in Doubled(b, closer) :: c == closer || c in b
  {
    if b != [] {
      DoubledChars(b[1..], closer);
      assert b == [b[0]] + b[1..];
    }
  }

  /** Any comment may be a space instead, without a change to the tokens or the verdict. */
  lemma {:induction false} MaskComment(cc: Classes, query: string, ls: seq<Lexeme>, i: nat)
    requires cc.AgreeOnAscii() && !HasLineBreakLike(cc, query)
    requires Lexemes(cc, query) == Good(ls) && i < |ls| && (ls[i].kind == LineComment || ls[i].kind == BlockComment)
    ensures var space := Lexeme(Blank, " ");
      var masked := Replaced(ls, i, space);
      && Lexemes(cc, masked) == Good(ls[i := space])
      && Tokens(cc, masked).Good? && Tokens(cc, query).Good?
      && Signs(Tokens(cc, masked).value) == Signs(Tokens(cc, query).value)
      && QueryVerdict(cc, masked) == QueryVerdict(cc, query)
  {
    LexemesCharacterized(cc, query, ls);
    var space := Lexeme(Blank, " ");
    assert Fits(cc, ls[i], After(ls, i, None));
    if i > 0 {
      assert Fits(cc, ls[i - 1], After(ls, i - 1, None));
      assert ls[i - 1].kind != LineComment;
      FitsBeforeSpace(cc, ls[i - 1], After(ls, i - 1, None), Some(' '));
    }
    ChainUpdate(cc, ls, i, space);
    ReplacePiece(cc, query, ls, i, space);
  }
}

/**
  The T-SQL tokenizer of internal/config/query.go, as a grammar of lexemes and as the
  scanning loop that computes it.

  A lexeme is a piece of the text: a white-space character, a comment, or a token with
  the characters it is made of.  `Fits` says, kind by kind and without any scanning,
  which lexemes may stand before a given next character; `LexemesCharacterized` proves
  that the scanner computes the one cut of the text into fitting lexemes.
*/
module SqlLexer {
  import opened Basics

  // ------------------------------------------------------------ characters

  /** The Unicode classes the tokenizer consults, and the upper-case mapping. */
  datatype Classes = Classes(
    letters: set<char>, digits: set<char>, spaces: set<char>, controls: set<char>,
    upper: map<char, char>)
  {
    /** The classes are Go's on ASCII; on other characters they may be anything. */
    ghost predicate AgreeOnAscii() {
      forall c: char | c < '\U{80}' ::
        && (c in letters <==> 'A' <= c <= 'Z' || 'a' <= c <= 'z')
        && (c in digits <==> '0' <= c <= '9')
        && (c in spaces <==> '\t' <= c <= '\r' || c == ' ')
        && (c in controls <==> c < ' ' || c == '\U{7f}')
        && Upper(c) == (if 'a' <= c <= 'z' then c - 'a' + 'A' else c)
    }

    function Upper(c: char): char {
      if c in upper then upper[c] else c
    }

    function UpperText(s: string): (r: string)
      ensures |r| == |s|
    {
      seq(|s|, i requires 0 <= i < |s| => Upper(s[i]))
    }

    /** A control character other than tab, CR and LF, or a Unicode line separator. */
    predicate LineBreakLike(c: char) {
      c != '\t' && c != '\r' && c != '\n' && (c in controls || c == '\U{2028}' || c == '\U{2029}')
    }

    predicate WordChar(c: char) {
      c in letters || c in digits || c == '_' || c == '@' || c == '#' || c == '$'
    }

    predicate WordStart(c: char) {
      c == '_' || c in letters
    }
  }

  // ------------------------------------------------------------ lexemes

  datatype Kind = Blank | LineComment | BlockComment | Word | Quoted | Str | Variable | Number | Punct

  datatype Lexeme = Lexeme(kind: Kind, body: string) {
    /** Blanks and comments are dropped; the rest are tokens. */
    predicate Token() {
      kind != Blank && kind != LineComment && kind != BlockComment
    }
  }

  datatype LexError =
    ControlCharacter | UnterminatedComment | UnterminatedString | UnterminatedBracket | UnterminatedQuote

  datatype Outcome<+T> = Good(value: T) | Bad(error: LexError)

  function First(s: string): Option<char> {
    if s == [] then None else Some(s[0])
  }

  function Render(ls: seq<Lexeme>): string {
    if ls == [] then [] else ls[0].body + Render(ls[1..])
  }

  // ------------------------------------------------------------ lengths of the pieces

  /** How many characters of s, from its start, continue a name. */
  function WordLen(cc: Classes, s: string): (n: nat)
    ensures n <= |s|
  {
    if s != [] && cc.WordChar(s[0]) then 1 + WordLen(cc, s[1..]) else 0
  }

  predicate EndsLine(c: char) { c == '\r' || c == '\n' }

  /** How far the line that s starts in goes on: up to the first CR or LF. */
  function LineLen(s: string): (n: nat)
    ensures n <= |s|
  {
    if s != [] && !EndsLine(s[0]) then 1 + LineLen(s[1..]) else 0
  }

  /** The length of the rest of a quoted text, closer included; s starts after the opener. */
  function QuotedLen(s: string, closer: char): (n: Option<nat>)
    ensures n.Some? ==> 0 < n.value <= |s|
  {
    if s == [] then None
    else if s[0] != closer then Plus(1, QuotedLen(s[1..], closer))
    else if |s| > 1 && s[1] == closer then Plus(2, QuotedLen(s[2..], closer))
    else Some(1)
  }

  /** The length of the rest of a block comment whose nesting depth is `depth` where s starts. */
  function BlockLen(s: string, depth: nat): (n: Option<nat>)
    ensures n.Some? ==> 1 < n.value <= |s|
  {
    if |s| < 2 then None
    else if s[0] == '/' && s[1] == '*' then Plus(2, BlockLen(s[2..], depth + 1))
    else if s[0] == '*' && s[1] == '/' then
      if depth <= 1 then Some(2) else Plus(2, BlockLen(s[2..], depth - 1))
    else Plus(1, BlockLen(s[1..], depth))
  }

  function Plus(k: nat, n: Option<nat>): Option<nat> {
    if n.Some? then Some(k + n.value) else None
  }

  /** The states of a number literal: what may follow the characters read so far. */
  datatype NumberState = Start | Zero | Hex | Digits | Fraction | ExponentSign | Exponent

  predicate IsDigit(c: char) { '0' <= c <= '9' }

  function NumberStep(q: NumberState, c: char): Option<NumberState> {
    match q
    case Start => if c == '0' then Some(Zero) else if IsDigit(c) then Some(Digits) else None
    case Zero => if c == 'x' || c == 'X' then Some(Hex) else DigitStep(c)
    case Hex => if IsDigit(c) || 'a' <= c <= 'f' || 'A' <= c <= 'F' then Some(Hex) else None
    case Digits => DigitStep(c)
    case Fraction => if IsDigit(c) then Some(Fraction) else ExponentMark(c)
    case ExponentSign => if c == '+' || c == '-' || IsDigit(c) then Some(Exponent) else None
    case Exponent => if IsDigit(c) then Some(Exponent) else None
  }

  function DigitStep(c: char): Option<NumberState> {
    if c == '.' then Some(Fraction) else if IsDigit(c) then Some(Digits) else ExponentMark(c)
  }

  function ExponentMark(c: char): Option<NumberState> {
    if c == 'e' || c == 'E' then Some(ExponentSign) else None
  }

  /** How many characters of s a number in state q goes on for. */
  function NumberLen(q: NumberState, s: string): (n: nat)
    ensures n <= |s|
    decreases |s|
  {
    if s != [] && NumberStep(q, s[0]).Some? then 1 + NumberLen(NumberStep(q, s[0]).value, s[1..]) else 0
  }

  /** The state of a number after the characters s, all of which continue it. */
  function NumberAfter(q: NumberState, s: string): NumberState
    requires NumberLen(q, s) == |s|
    decreases |s|
  {
    if s == [] then q else NumberAfter(NumberStep(q, s[0]).value, s[1..])
  }

  // ------------------------------------------------------------ the scanner

  /** The piece a non-empty text starts with. */
  function Scan(cc: Classes, s: string): (r: Outcome<Lexeme>)
    requires s != []
    ensures r.Good? ==> 0 < |r.value.body| <= |s| && r.value.body == s[..|r.value.body|]
  {
    var c := s[0];
    if c in cc.spaces then Good(Lexeme(Blank, s[..1]))
    else if |s| > 1 && c == '-' && s[1] == '-' then Good(Lexeme(LineComment, s[..LineCommentLen(s)]))
    else if |s| > 1 && c == '/' && s[1] == '*' then Piece(s, BlockComment, BlockLen(s, 0), UnterminatedComment)
    else if c == '\'' then Piece(s, Str, Plus(1, QuotedLen(s[1..], '\'')), UnterminatedString)
    else if c == '[' then Piece(s, Quoted, Plus(1, QuotedLen(s[1..], ']')), UnterminatedBracket)
    else if c == '"' then Piece(s, Quoted, Plus(1, QuotedLen(s[1..], '"')), UnterminatedQuote)
    else if c == '@' || c == '#' then Good(Lexeme(Variable, s[..1 + WordLen(cc, s[1..])]))
    else if cc.WordStart(c) then Good(Lexeme(Word, s[..WordLen(cc, s)]))
    else if IsDigit(c) then Good(Lexeme(Number, s[..NumberLen(Start, s)]))
    else Good(Lexeme(Punct, s[..1]))
  }

  function LineCommentLen(s: string): (n: nat)
    requires |s| > 1 && s[0] == '-' && s[1] == '-'
    ensures 1 < n <= |s|
  {
    2 + LineLen(s[2..])
  }

  function Piece(s: string, kind: Kind, n: Option<nat>, error: LexError): (r: Outcome<Lexeme>)
    requires n.Some? ==> 0 < n.value <= |s|
    ensures r.Good? ==> n.Some? && r.value == Lexeme(kind, s[..n.value])
  {
    if n.Some? then Good(Lexeme(kind, s[..n.value])) else Bad(error)
  }

  /** Every piece of the text, in order. */
  function Lexemes(cc: Classes, s: string): Outcome<seq<Lexeme>>
    decreases |s|
  {
    if s == [] then Good([])
    else match Scan(cc, s)
      case Bad(e) => Bad(e)
      case Good(x) =>
        match Lexemes(cc, s[|x.body|..])
        case Bad(e) => Bad(e)
        case Good(rest) => Good([x] + rest)
  }

  // ------------------------------------------------------------ the grammar

  /** x is a piece of its kind and ends where the next character is `next`. */
  predicate Fits(cc: Classes, x: Lexeme, next: Option<char>) {
    var b := x.body;
    && b != []
    && (b[0] in cc.spaces <==> x.kind == Blank)
    && match x.kind
       case Blank => |b| == 1
       case LineComment =>
         && |b| > 1 && b[0] == '-' && b[1] == '-'
         && (forall c | c in b :: !EndsLine(c))
         && (next.Some? ==> EndsLine(next.value))
       case BlockComment => OpensComment(b) && BlockLen(b, 0) == Some(|b|)
       case Str => FitsQuoted(b, '\'', '\'', next)
       case Quoted => FitsQuoted(b, '[', ']', next) || FitsQuoted(b, '"', '"', next)
       case Variable =>
         && (b[0] == '@' || b[0] == '#')
         && (forall c | c in b :: cc.WordChar(c))
         && EndsWord(cc, next)
       case Word =>
         && cc.WordStart(b[0]) && !Special(b[0], if |b| > 1 then Some(b[1]) else next)
         && (forall c | c in b :: cc.WordChar(c))
         && EndsWord(cc, next)
       case Number =>
         && IsDigit(b[0]) && !cc.WordStart(b[0])
         && NumberLen(Start, b) == |b|
         && (next.Some? ==> NumberStep(NumberAfter(Start, b), next.value).None?)
       case Punct =>
         |b| == 1 && !Special(b[0], next) && !cc.WordStart(b[0]) && !IsDigit(b[0])
  }

  /** c, followed by next, opens a comment, a quoted text or a variable. */
  predicate Special(c: char, next: Option<char>) {
    || c == '\'' || c == '[' || c == '"' || c == '@' || c == '#'
    || (c == '-' && next == Some('-')) || (c == '/' && next == Some('*'))
  }

  predicate OpensComment(b: string) {
    |b| > 1 && b[0] == '/' && b[1] == '*'
  }

  predicate FitsQuoted(b: string, opener: char, closer: char, next: Option<char>) {
    |b| > 1 && b[0] == opener && QuotedLen(b[1..], closer) == Some(|b| - 1) && next != Some(closer)
  }

  predicate EndsWord(cc: Classes, next: Option<char>) {
    next.Some? ==> !cc.WordChar(next.value)
  }

  /** Every piece of ls fits before the one after it, and the last one before `next`. */
  predicate Chain(cc: Classes, ls: seq<Lexeme>, next: Option<char>) {
    forall i | 0 <= i < |ls| :: Fits(cc, ls[i], After(ls, i, next))
  }

  /** The character after the piece ls[i]. */
  function After(ls: seq<Lexeme>, i: nat, next: Option<char>): Option<char>
    requires i < |ls|
  {
    if i + 1 < |ls| then First(ls[i + 1].body) else next
  }

  // ------------------------------------------------------------ one character of look-ahead

  lemma {:induction false} WordLenAppend(cc: Classes, b: string, rest: string)
    ensures WordLen(cc, b + rest) == (if WordLen(cc, b) < |b| then WordLen(cc, b) else |b| + WordLen(cc, rest))
  {
    if b == [] {
      assert b + rest == rest;
    } else {
      assert (b + rest)[1..] == b[1..] + rest;
      WordLenAppend(cc, b[1..], rest);
    }
  }

  lemma {:induction false} WordLenAll(cc: Classes, b: string)
    ensures WordLen(cc, b) == |b| <==> forall c | c in b :: cc.WordChar(c)
  {
    if b != [] {
      assert b == [b[0]] + b[1..];
      WordLenAll(cc, b[1..]);
    }
  }

  lemma {:induction false} LineLenAppend(b: string, rest: string)
    ensures LineLen(b + rest) == (if LineLen(b) < |b| then LineLen(b) else |b| + LineLen(rest))
  {
    if b == [] {
      assert b + rest == rest;
    } else {
      assert (b + rest)[1..] == b[1..] + rest;
      LineLenAppend(b[1..], rest);
    }
  }

  lemma {:induction false} LineLenAll(b: string)
    ensures LineLen(b) == |b| <==> forall c | c in b :: !EndsLine(c)
  {
    if b != [] {
      assert b == [b[0]] + b[1..] && b[0] in b;
      LineLenAll(b[1..]);
    }
  }

  lemma {:induction false} NumberLenAppend(q: NumberState, b: string, rest: string)
    ensures NumberLen(q, b) < |b| ==> NumberLen(q, b + rest) == NumberLen(q, b)
    ensures NumberLen(q, b) == |b| ==> NumberLen(q, b + rest) == |b| + NumberLen(NumberAfter(q, b), rest)
    decreases |b|
  {
    if b == [] {
      assert b + rest == rest;
    } else {
      assert (b + rest)[1..] == b[1..] + rest;
      if NumberStep(q, b[0]).Some? {
        NumberLenAppend(NumberStep(q, b[0]).value, b[1..], rest);
      }
    }
  }

  /** A quoted text ends at the end of b exactly when it does in b alone and no closer follows. */
  lemma {:induction false} QuotedLenAppend(b: string, rest: string, closer: char)
    requires b != []
    ensures QuotedLen(b + rest, closer) == Some(|b|)
       <==> QuotedLen(b, closer) == Some(|b|) && First(rest) != Some(closer)
    decreases |b|
  {
    var s := b + rest;
    assert s[1..] == b[1..] + rest;
    if b[0] != closer {
      if |b| > 1 { QuotedLenAppend(b[1..], rest, closer); } else { assert b[1..] == []; }
    } else if |b| > 1 && b[1] == closer {
      assert s[2..] == b[2..] + rest;
      if |b| > 2 { QuotedLenAppend(b[2..], rest, closer); } else { assert b[2..] == []; }
    } else if |b| == 1 && First(rest) == Some(closer) {
      assert s[1] == closer;
    }
  }

  lemma {:induction false} BlockLenAppend(b: string, rest: string, depth: nat)
    requires b != []
    ensures BlockLen(b + rest, depth) == Some(|b|) <==> BlockLen(b, depth) == Some(|b|)
    decreases |b|
  {
    var s := b + rest;
    assert s[1..] == b[1..] + rest;
    if |b| == 1 {
    } else if (b[0] == '/' && b[1] == '*') || (b[0] == '*' && b[1] == '/' && depth > 1) {
      assert s[2..] == b[2..] + rest;
      if |b| > 2 {
        BlockLenAppend(b[2..], rest, if b[0] == '/' then depth + 1 else depth - 1);
      }
    } else if !(b[0] == '*' && b[1] == '/') {
      BlockLenAppend(b[1..], rest, depth);
    }
  }

  /** The scanner takes x off the front of a text exactly when x fits before what follows. */
  lemma {:induction false} ScanCharacterized(cc: Classes, x: Lexeme, rest: string)
    requires x.body != []
    ensures Scan(cc, x.body + rest) == Good(x) <==> Fits(cc, x, First(rest))
  {
    var b, s := x.body, x.body + rest;
    if s[0] in cc.spaces {
      assert s[..1] == b <==> |b| == 1;
    } else if |s| > 1 && s[0] == '-' && s[1] == '-' {
      ScanLineComment(cc, x, rest);
    } else if |s| > 1 && s[0] == '/' && s[1] == '*' {
      ScanBlockComment(cc, x, rest);
    } else if s[0] == '\'' || s[0] == '[' || s[0] == '"' {
      ScanQuoted(cc, x, rest);
    } else {
      ScanNames(cc, x, rest);
    }
  }

  lemma {:induction false} ScanBlockComment(cc: Classes, x: Lexeme, rest: string)
    requires x.body != [] && x.body[0] == '/' && x.body[0] !in cc.spaces && First((x.body + rest)[1..]) == Some('*')
    ensures Scan(cc, x.body + rest) == Good(x) <==> Fits(cc, x, First(rest))
  {
    var b, s := x.body, x.body + rest;
    BlockLenAppend(b, rest, 0);
    assert s[1..] == b[1..] + rest;
    assert BlockLen(s, 0) == Some(|b|) ==> s[..|b|] == b;
  }

  lemma {:induction false} ScanQuoted(cc: Classes, x: Lexeme, rest: string)
    requires x.body != [] && x.body[0] !in cc.spaces
    requires x.body[0] == '\'' || x.body[0] == '[' || x.body[0] == '"'
    ensures Scan(cc, x.body + rest) == Good(x) <==> Fits(cc, x, First(rest))
  {
    ScanOfQuoted(cc, x, rest);
    FitsOfQuoted(cc, x, First(rest));
    QuotedEnd(x.body, rest, CloserOf(x.body[0]));
  }

  function CloserOf(opener: char): char {
    if opener == '[' then ']' else opener
  }

  lemma {:induction false} ScanOfQuoted(cc: Classes, x: Lexeme, rest: string)
    requires x.body != [] && x.body[0] !in cc.spaces
    requires x.body[0] == '\'' || x.body[0] == '[' || x.body[0] == '"'
    ensures Scan(cc, x.body + rest) == Good(x) <==>
      QuotedLen(x.body[1..] + rest, CloserOf(x.body[0])) == Some(|x.body| - 1)
        && x.kind == (if x.body[0] == '\'' then Str else Quoted)
  {
    var b, s := x.body, x.body + rest;
    assert s[1..] == b[1..] + rest;
    var n := QuotedLen(s[1..], CloserOf(b[0]));
    if n.Some? && 1 + n.value == |b| { assert s[..1 + n.value] == b; }
  }

  lemma {:induction false} FitsOfQuoted(cc: Classes, x: Lexeme, next: Option<char>)
    requires x.body != [] && x.body[0] !in cc.spaces
    requires x.body[0] == '\'' || x.body[0] == '[' || x.body[0] == '"'
    ensures Fits(cc, x, next) <==>
      FitsQuoted(x.body, x.body[0], CloserOf(x.body[0]), next) && x.kind == (if x.body[0] == '\'' then Str else Quoted)
  {
  }

  /** A quoted text ends with b exactly when it closes there and is not reopened. */
  lemma {:induction false} QuotedEnd(b: string, rest: string, closer: char)
    requires b != []
    ensures QuotedLen(b[1..] + rest, closer) == Some(|b| - 1) <==>
      |b| > 1 && QuotedLen(b[1..], closer) == Some(|b| - 1) && First(rest) != Some(closer)
  {
    if |b| > 1 { QuotedLenAppend(b[1..], rest, closer); }
  }

  lemma {:induction false} ScanLineComment(cc: Classes, x: Lexeme, rest: string)
    requires x.body != [] && x.body[0] == '-' && x.body[0] !in cc.spaces && First((x.body + rest)[1..]) == Some('-')
    ensures Scan(cc, x.body + rest) == Good(x) <==> Fits(cc, x, First(rest))
  {
    var b, s := x.body, x.body + rest;
    var n := LineCommentLen(s);
    assert Scan(cc, s) == Good(Lexeme(LineComment, s[..n]));
    if |b| > 1 {
      LineCommentEnd(b, rest);
      if n == |b| { assert s[..n] == b; }
    } else {
      assert |s[..n]| > 1;
    }
  }

  lemma {:induction false} LineCommentEnd(b: string, rest: string)
    requires |b| > 1 && b[0] == '-' && b[1] == '-'
    ensures (b + rest)[0] == '-' && (b + rest)[1] == '-'
    ensures LineCommentLen(b + rest) == |b| <==>
      (forall c | c in b :: !EndsLine(c)) && (First(rest).Some? ==> EndsLine(First(rest).value))
  {
    assert (b + rest)[2..] == b[2..] + rest;
    LineLenAppend(b[2..], rest);
    LineLenAll(b[2..]);
    assert b == [b[0], b[1]] + b[2..];
    assert forall c | c in b[2..] :: c in b;
  }

  /** The word characters end with b exactly when b is all of them. */
  lemma {:induction false} WordEnds(cc: Classes, b: string, rest: string)
    ensures WordLen(cc, b + rest) == |b| <==> (forall c | c in b :: cc.WordChar(c)) && EndsWord(cc, First(rest))
  {
    WordLenAppend(cc, b, rest);
    WordLenAll(cc, b);
  }

  lemma {:induction false} ScanVariable(cc: Classes, x: Lexeme, rest: string)
    requires x.body != [] && x.body[0] !in cc.spaces && (x.body[0] == '@' || x.body[0] == '#')
    ensures Scan(cc, x.body + rest) == Good(x) <==> Fits(cc, x, First(rest))
  {
    var b, s := x.body, x.body + rest;
    WordEnds(cc, b[1..], rest);
    assert s[..|b|] == b && s[1..] == b[1..] + rest && b == [b[0]] + b[1..];
    assert Scan(cc, s) == Good(Lexeme(Variable, s[..1 + WordLen(cc, s[1..])]));
  }

  lemma {:induction false} ScanWord(cc: Classes, x: Lexeme, rest: string)
    requires x.body != [] && x.body[0] !in cc.spaces && cc.WordStart(x.body[0])
    requires !Special(x.body[0], First((x.body + rest)[1..]))
    ensures Scan(cc, x.body + rest) == Good(x) <==> Fits(cc, x, First(rest))
  {
    var b, s := x.body, x.body + rest;
    WordEnds(cc, b, rest);
    assert s[..|b|] == b;
    assert Scan(cc, s) == Good(Lexeme(Word, s[..WordLen(cc, s)]));
  }

  lemma {:induction false} ScanNumber(cc: Classes, x: Lexeme, rest: string)
    requires x.body != [] && x.body[0] !in cc.spaces && IsDigit(x.body[0]) && !cc.WordStart(x.body[0])
    requires !Special(x.body[0], First((x.body + rest)[1..]))
    ensures Scan(cc, x.body + rest) == Good(x) <==> Fits(cc, x, First(rest))
  {
    var b, s := x.body, x.body + rest;
    assert s[..|b|] == b;
    NumberLenAppend(Start, b, rest);
    assert Scan(cc, s) == Good(Lexeme(Number, s[..NumberLen(Start, s)]));
  }

  lemma {:induction false} ScanPunct(cc: Classes, x: Lexeme, rest: string)
    requires x.body != [] && x.body[0] !in cc.spaces && !IsDigit(x.body[0]) && !cc.WordStart(x.body[0])
    requires !Special(x.body[0], First((x.body + rest)[1..]))
    ensures Scan(cc, x.body + rest) == Good(x) <==> Fits(cc, x, First(rest))
  {
    var b, s := x.body, x.body + rest;
    assert s[..|b|] == b;
    assert Scan(cc, s) == Good(Lexeme(Punct, s[..1]));
  }

  lemma {:induction false} ScanNames(cc: Classes, x: Lexeme, rest: string)
    requires x.body != [] && x.body[0] !in cc.spaces
    requires x.body[0] != '\'' && x.body[0] != '[' && x.body[0] != '"'
    requires x.body[0] == '-' ==> First((x.body + rest)[1..]) != Some('-')
    requires x.body[0] == '/' ==> First((x.body + rest)[1..]) != Some('*')
    ensures Scan(cc, x.body + rest) == Good(x) <==> Fits(cc, x, First(rest))
  {
    var c := x.body[0];
    if c == '@' || c == '#' { ScanVariable(cc, x, rest); }
    else if cc.WordStart(c) { ScanWord(cc, x, rest); }
    else if IsDigit(c) { ScanNumber(cc, x, rest); }
    else { ScanPunct(cc, x, rest); }
  }

  /** The scanner computes exactly the cuts of the text into pieces that fit. */
  lemma {:induction false} LexemesCharacterized(cc: Classes, s: string, ls: seq<Lexeme>)
    ensures Lexemes(cc, s) == Good(ls) <==> Render(ls) == s && Chain(cc, ls, None)
    decreases |s|, |ls|
  {
    if ls == [] {
    } else if ls[0].body == [] {
      assert !Fits(cc, ls[0], After(ls, 0, None));
    } else {
      var x, rest := ls[0], Render(ls[1..]);
      assert ls == [x] + ls[1..];
      if Render(ls) == s {
        assert s[|x.body|..] == rest;
        ScanCharacterized(cc, x, rest);
        LexemesCharacterized(cc, rest, ls[1..]);
        ChainTail(cc, ls);
      } else if s != [] && Scan(cc, s) == Good(x) {
        assert s == x.body + s[|x.body|..];
        LexemesCharacterized(cc, s[|x.body|..], ls[1..]);
      }
    }
  }

  lemma {:induction false} ChainTail(cc: Classes, ls: seq<Lexeme>)
    requires ls != []
    ensures Chain(cc, ls, None) <==> Fits(cc, ls[0], First(Render(ls[1..]))) && Chain(cc, ls[1..], None)
  {
    var tail := ls[1..];
    forall i | 0 <= i < |tail| ensures After(tail, i, None) == After(ls, i + 1, None) && tail[i] == ls[i + 1] {
    }
    if tail != [] && tail[0].body == [] {
      assert !Fits(cc, tail[0], After(tail, 0, None));
      assert !Fits(cc, ls[1], After(ls, 1, None));
    } else {
      assert First(Render(tail)) == After(ls, 0, None);
      assert forall i | 0 < i < |ls| :: ls[i] == tail[i - 1];
    }
  }

  // ------------------------------------------------------------ putting texts together

  lemma {:induction false} RenderAppend(a: seq<Lexeme>, b: seq<Lexeme>)
    ensures Render(a + b) == Render(a) + Render(b)
  {
    if a == [] {
      assert a + b == b;
    } else {
      assert (a + b)[1..] == a[1..] + b;
      RenderAppend(a[1..], b);
    }
  }

  lemma {:induction false} ChainAppend(cc: Classes, a: seq<Lexeme>, b: seq<Lexeme>, next: Option<char>)
    requires b != []
    requires Chain(cc, a, First(b[0].body)) && Chain(cc, b, next)
    ensures Chain(cc, a + b, next)
  {
    var ls := a + b;
    forall i | 0 <= i < |ls| ensures Fits(cc, ls[i], After(ls, i, next)) {
      if i < |a| {
        assert After(ls, i, next) == After(a, i, First(b[0].body));
      } else {
        assert After(ls, i, next) == After(b, i - |a|, next) && ls[i] == b[i - |a|];
      }
    }
  }

  lemma {:induction false} ChainSlice(cc: Classes, ls: seq<Lexeme>, a: nat, b: nat, next: Option<char>)
    requires a <= b <= |ls| && Chain(cc, ls, next)
    ensures Chain(cc, ls[a..b], if b < |ls| then First(ls[b].body) else next)
  {
    var part, last := ls[a..b], if b < |ls| then First(ls[b].body) else next;
    forall i | 0 <= i < |part| ensures Fits(cc, part[i], After(part, i, last)) {
      assert After(part, i, last) == After(ls, a + i, next) && part[i] == ls[a + i];
    }
  }

  /** A piece other than a line comment may as well end the text, or stand before white space. */
  lemma {:induction false} FitsBeforeSpace(cc: Classes, x: Lexeme, next: Option<char>, space: Option<char>)
    requires cc.AgreeOnAscii() && Fits(cc, x, next) && x.kind != LineComment
    requires space in {None, Some(' '), Some('\n')}
    ensures Fits(cc, x, space)
  {
  }

  /** A chain that does not end in a line comment may end the text, or stand before white space. */
  lemma {:induction false} ChainBeforeSpace(cc: Classes, ls: seq<Lexeme>, next: Option<char>, space: Option<char>)
    requires cc.AgreeOnAscii() && Chain(cc, ls, next) && (ls != [] ==> ls[|ls| - 1].kind != LineComment)
    requires space in {None, Some(' '), Some('\n')}
    ensures Chain(cc, ls, space)
  {
    forall i | 0 <= i < |ls| ensures Fits(cc, ls[i], After(ls, i, space)) {
      assert Fits(cc, ls[i], After(ls, i, next));
      if i == |ls| - 1 {
        FitsBeforeSpace(cc, ls[i], next, space);
      }
    }
  }
}

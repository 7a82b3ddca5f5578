/**
  The read-only check and the derived-table extraction of internal/config/query.go:
  the one-pass loops, and what they accept, stated over the whole statement.
*/
module SqlValidate {
  import opened Basics
  import opened SqlLexer
  import opened SqlTokens

  // ------------------------------------------------------------ words

  predicate Forbidden(w: string) {
    || w in ["INSERT", "UPDATE", "DELETE", "MERGE", "TRUNCATE", "BULK", "WRITETEXT", "UPDATETEXT"]
    || w in ["CREATE", "ALTER", "DROP", "ADD", "GRANT", "DENY", "REVOKE"]
    || w in ["EXEC", "EXECUTE", "INTO", "OPENROWSET", "OPENQUERY", "OPENDATASOURCE"]
    || w in ["SHUTDOWN", "DBCC", "BACKUP", "RESTORE", "KILL", "RECONFIGURE", "CHECKPOINT", "DISK", "LOAD", "DUMP"]
    || w in ["WAITFOR", "USE", "SET", "SETUSER", "REVERT"]
    || w in ["BEGIN", "COMMIT", "ROLLBACK", "SAVE", "TRAN", "TRANSACTION"]
    || w in ["DECLARE", "IF", "WHILE", "GOTO", "RETURN", "BREAK", "CONTINUE", "PRINT", "RAISERROR", "READTEXT",
             "OPEN", "CLOSE", "DEALLOCATE", "RECEIVE", "SEND"]
  }

  predicate RoutinePrefix(w: string) {
    "SP_" <= w || "XP_" <= w
  }

  predicate WordAt(ss: seq<Sign>, i: nat, w: string) {
    i < |ss| && ss[i].IsWord(w)
  }

  /** ss[i] is the MERGE or USE of a query hint. */
  predicate QueryHint(ss: seq<Sign>, i: nat)
    requires i < |ss|
  {
    if ss[i].text == "MERGE" then WordAt(ss, i + 1, "JOIN") || WordAt(ss, i + 1, "UNION")
    else if ss[i].text == "USE" then
      WordAt(ss, i + 1, "PLAN") || (WordAt(ss, i + 1, "HINT") && i + 2 < |ss| && ss[i + 2].IsPunct("("))
    else false
  }

  /** The tokens before ss[i] end with UNION [ALL], EXCEPT or INTERSECT. */
  predicate FollowsSetOperator(ss: seq<Sign>, i: nat)
    requires i <= |ss|
  {
    && i > 0 && ss[i - 1].kind == Word
    && (ss[i - 1].text in ["UNION", "EXCEPT", "INTERSECT"]
      || (ss[i - 1].text == "ALL" && i > 1 && ss[i - 2].IsWord("UNION")))
  }

  // ------------------------------------------------------------ what is accepted

  /** How deep in parentheses the token after the first n is. */
  function Depth(ss: seq<Sign>, n: nat): int
    requires n <= |ss|
  {
    if n == 0 then 0
    else Depth(ss, n - 1) + (if ss[n - 1].IsPunct("(") then 1 else if ss[n - 1].IsPunct(")") then -1 else 0)
  }

  /** How many CASEs the first n tokens leave open. */
  function OpenCases(ss: seq<Sign>, n: nat): int
    requires n <= |ss|
  {
    if n == 0 then 0 else OpenCases(ss, n - 1) + CaseStep(ss[n - 1])
  }

  function CaseStep(t: Sign): int {
    if t.afterDot then 0 else if t.IsWord("CASE") then 1 else if t.IsWord("END") then -1 else 0
  }

  predicate TopSelect(ss: seq<Sign>, i: nat)
    requires i < |ss|
  {
    ss[i].IsWord("SELECT") && !ss[i].afterDot && Depth(ss, i) <= 0
  }

  predicate TopSelectBefore(ss: seq<Sign>, n: nat)
    requires n <= |ss|
  {
    exists i | 0 <= i < n :: TopSelect(ss, i)
  }

  /** Nothing is wrong with the token ss[i] where it stands. */
  predicate Clean(ss: seq<Sign>, i: nat)
    requires i < |ss|
  {
    && !ss[i].IsPunct(";")
    && Depth(ss, i + 1) >= 0
    && (ss[i].kind == Word ==> !RoutinePrefix(ss[i].text) && (Forbidden(ss[i].text) ==> QueryHint(ss, i)))
    && OpenCases(ss, i + 1) >= 0
    && (TopSelect(ss, i) && TopSelectBefore(ss, i) ==> FollowsSetOperator(ss, i))
  }

  /** ss is one read-only SELECT, as far as its tokens say. */
  predicate ReadOnly(ss: seq<Sign>) {
    && ss != [] && (ss[0].IsWord("SELECT") || ss[0].IsWord("WITH"))
    && (forall i | 0 <= i < |ss| :: Clean(ss, i))
    && Depth(ss, |ss|) == 0
    && TopSelectBefore(ss, |ss|)
  }

  // ------------------------------------------------------------ the one-pass check

  datatype Reason =
    | Unreadable(lex: LexError) | Empty | BadStart | ManyStatements | Unbalanced | SystemProcedure
    | ForbiddenWord(word: string) | EndWithoutCase | SecondSelect | NoSelect

  function TrimStart(ts: seq<Token>): seq<Token> {
    if ts != [] && ts[0].sign.IsPunct(";") then TrimStart(ts[1..]) else ts
  }

  function TrimEnd(ts: seq<Token>): seq<Token> {
    if ts != [] && ts[|ts| - 1].sign.IsPunct(";") then TrimEnd(ts[..|ts| - 1]) else ts
  }

  /** r is the stretch of ts from p to q, and all around it is semicolons. */
  predicate StretchOf(ts: seq<Token>, r: seq<Token>, p: nat, q: nat) {
    && p <= q <= |ts| && r == ts[p..q]
    && (forall i | 0 <= i < p :: ts[i].sign.IsPunct(";"))
    && (forall i | q <= i < |ts| :: ts[i].sign.IsPunct(";"))
  }

  lemma {:induction false} TrimStartShape(ts: seq<Token>) returns (p: nat)
    ensures p <= |ts| && TrimStart(ts) == ts[p..]
    ensures forall i | 0 <= i < p :: ts[i].sign.IsPunct(";")
    ensures p < |ts| ==> !ts[p].sign.IsPunct(";")
  {
    p := 0;
    if ts != [] && ts[0].sign.IsPunct(";") {
      p := TrimStartShape(ts[1..]);
      p := p + 1;
      assert ts[1..][p - 1..] == ts[p..];
      assert forall i | 0 < i < |ts| :: ts[i] == ts[1..][i - 1];
    }
  }

  lemma {:induction false} TrimEndShape(ts: seq<Token>) returns (q: nat)
    ensures q <= |ts| && TrimEnd(ts) == ts[..q]
    ensures forall i | q <= i < |ts| :: ts[i].sign.IsPunct(";")
    ensures q > 0 ==> !ts[q - 1].sign.IsPunct(";")
  {
    q := |ts|;
    if ts != [] && ts[|ts| - 1].sign.IsPunct(";") {
      q := TrimEndShape(ts[..|ts| - 1]);
      assert ts[..|ts| - 1][..q] == ts[..q];
      assert forall i | 0 <= i < |ts| - 1 :: ts[i] == ts[..|ts| - 1][i];
    }
  }

  /** Trimming keeps a stretch of the tokens that no semicolon starts or ends, with nothing else around it. */
  lemma {:induction false} TrimShape(ts: seq<Token>) returns (p: nat, q: nat)
    ensures StretchOf(ts, TrimEnd(TrimStart(ts)), p, q)
    ensures p < q ==> !ts[p].sign.IsPunct(";") && !ts[q - 1].sign.IsPunct(";")
  {
    p := TrimStartShape(ts);
    var n := TrimEndShape(ts[p..]);
    q := p + n;
    assert forall i | p <= i < |ts| :: ts[i] == ts[p..][i - p];
  }

  method TrimSemicolons(ts: seq<Token>) returns (r: seq<Token>)
    ensures r == TrimEnd(TrimStart(ts))
    ensures exists p, q :: StretchOf(ts, r, p, q)
    ensures r != [] ==> !r[0].sign.IsPunct(";") && !r[|r| - 1].sign.IsPunct(";")
  {
    ghost var p, q := TrimShape(ts);
    r := ts;
    while |r| > 0 && r[0].sign.IsPunct(";")
      invariant TrimStart(r) == TrimStart(ts)
    {
      r := r[1..];
    }
    while |r| > 0 && r[|r| - 1].sign.IsPunct(";")
      invariant TrimEnd(r) == TrimEnd(TrimStart(ts))
    {
      r := r[..|r| - 1];
    }
  }

  /** What the pass finds from token i on, having counted depth, cases and selects before it. */
  function Findings(ss: seq<Sign>, i: nat, depth: int, cases: int, selects: nat): Option<Reason>
    requires i <= |ss|
    decreases |ss| - i
  {
    if i == |ss| then
      if depth != 0 then Some(Unbalanced) else if selects == 0 then Some(NoSelect) else None
    else
      var t := ss[i];
      if t.IsPunct(";") then Some(ManyStatements)
      else if t.IsPunct("(") then Findings(ss, i + 1, depth + 1, cases, selects)
      else if t.IsPunct(")") then
        if depth - 1 < 0 then Some(Unbalanced) else Findings(ss, i + 1, depth - 1, cases, selects)
      else if t.kind != Word then Findings(ss, i + 1, depth, cases, selects)
      else if RoutinePrefix(t.text) then Some(SystemProcedure)
      else if Forbidden(t.text) && !QueryHint(ss, i) then Some(ForbiddenWord(t.text))
      else if t.afterDot then Findings(ss, i + 1, depth, cases, selects)
      else if t.text == "CASE" then Findings(ss, i + 1, depth, cases + 1, selects)
      else if t.text == "END" then
        if cases - 1 < 0 then Some(EndWithoutCase) else Findings(ss, i + 1, depth, cases - 1, selects)
      else if t.text == "SELECT" && depth <= 0 then
        if selects > 0 && !FollowsSetOperator(ss, i) then Some(SecondSelect)
        else Findings(ss, i + 1, depth, cases, selects + 1)
      else Findings(ss, i + 1, depth, cases, selects)
  }

  /** What is wrong with a statement, or none. */
  function Verdict(ss: seq<Sign>): Option<Reason> {
    if ss == [] then Some(Empty)
    else if !ss[0].IsWord("SELECT") && !ss[0].IsWord("WITH") then Some(BadStart)
    else Findings(ss, 0, 0, 0, 0)
  }

  function QueryVerdict(cc: Classes, query: string): Option<Reason> {
    match Tokens(cc, query)
    case Bad(e) => Some(Unreadable(e))
    case Good(ts) => Verdict(Signs(TrimEnd(TrimStart(ts))))
  }

  /** The statement of a query: its tokens without the ';' around them. */
  function Statement(cc: Classes, query: string): seq<Token>
    requires Tokens(cc, query).Good?
  {
    TrimEnd(TrimStart(Tokens(cc, query).value))
  }

  method ValidateReadOnlySelect(cc: Classes, query: string) returns (r: Option<Reason>)
    ensures r == QueryVerdict(cc, query)
    ensures r.None? <==> Tokens(cc, query).Good? && ReadOnly(Signs(Statement(cc, query)))
  {
    var tokens := Tokenize(cc, query);
    if tokens.Bad? {
      return Some(Unreadable(tokens.error));
    }
    var statement := TrimSemicolons(tokens.value);
    var ss := Signs(statement);
    VerdictCharacterized(ss);
    if |statement| == 0 {
      return Some(Empty);
    }
    if !statement[0].sign.IsWord("SELECT") && !statement[0].sign.IsWord("WITH") {
      return Some(BadStart);
    }
    r := CheckStatement(ss);
  }

  /** The loop over the statement's tokens. */
  method CheckStatement(ss: seq<Sign>) returns (r: Option<Reason>)
    ensures r == Findings(ss, 0, 0, 0, 0)
    ensures ss != [] && (ss[0].IsWord("SELECT") || ss[0].IsWord("WITH")) ==> (r.None? <==> ReadOnly(ss))
  {
    VerdictCharacterized(ss);
    var depth, cases, selects := 0, 0, 0;
    for i := 0 to |ss|
      invariant selects >= 0
      invariant Findings(ss, i, depth, cases, selects) == Findings(ss, 0, 0, 0, 0)
    {
      var t := ss[i];
      if t.kind == Punct {
        if t.text == ";" {
          return Some(ManyStatements);
        } else if t.text == "(" {
          depth := depth + 1;
        } else if t.text == ")" {
          depth := depth - 1;
          if depth < 0 {
            return Some(Unbalanced);
          }
        }
      } else if t.kind == Word {
        if RoutinePrefix(t.text) {
          return Some(SystemProcedure);
        }
        if Forbidden(t.text) && !QueryHint(ss, i) {
          return Some(ForbiddenWord(t.text));
        }
        if t.afterDot {
          continue;
        }
        if t.text == "CASE" {
          cases := cases + 1;
        } else if t.text == "END" {
          cases := cases - 1;
          if cases < 0 {
            return Some(EndWithoutCase);
          }
        } else if t.text == "SELECT" {
          if depth > 0 {
            continue;
          }
          if selects > 0 && !FollowsSetOperator(ss, i) {
            return Some(SecondSelect);
          }
          selects := selects + 1;
        }
      }
    }
    if depth != 0 {
      return Some(Unbalanced);
    }
    return if selects == 0 then Some(NoSelect) else None;
  }

  /** The pass accepts exactly the read-only statements. */
  lemma {:induction false} VerdictCharacterized(ss: seq<Sign>)
    ensures Verdict(ss).None? <==> ReadOnly(ss)
  {
    if ss != [] {
      FindingsCharacterized(ss, 0, 0);
    }
  }

  lemma {:induction false} FindingsCharacterized(ss: seq<Sign>, i: nat, selects: nat)
    requires i <= |ss| && Depth(ss, i) >= 0 && OpenCases(ss, i) >= 0
    requires selects > 0 <==> TopSelectBefore(ss, i)
    ensures Findings(ss, i, Depth(ss, i), OpenCases(ss, i), selects).None?
       <==> (forall j | i <= j < |ss| :: Clean(ss, j)) && Depth(ss, |ss|) == 0 && TopSelectBefore(ss, |ss|)
    decreases |ss| - i
  {
    if i < |ss| && Clean(ss, i) {
      TopSelectStep(ss, i);
      FindingsCharacterized(ss, i + 1, if TopSelect(ss, i) then selects + 1 else selects);
      FindingsStep(ss, i, selects);
    } else if i < |ss| {
      FindingsStop(ss, i, selects);
    }
  }

  lemma {:induction false} TopSelectStep(ss: seq<Sign>, i: nat)
    requires i < |ss|
    ensures TopSelectBefore(ss, i + 1) <==> TopSelectBefore(ss, i) || TopSelect(ss, i)
  {
    if TopSelect(ss, i) {
      assert TopSelectBefore(ss, i + 1);
    }
  }

  lemma {:induction false} FindingsStep(ss: seq<Sign>, i: nat, selects: nat)
    requires i < |ss| && Clean(ss, i)
    requires selects > 0 <==> TopSelectBefore(ss, i)
    ensures Findings(ss, i, Depth(ss, i), OpenCases(ss, i), selects)
         == Findings(ss, i + 1, Depth(ss, i + 1), OpenCases(ss, i + 1), if TopSelect(ss, i) then selects + 1
           else selects)
  {
  }

  lemma {:induction false} FindingsStop(ss: seq<Sign>, i: nat, selects: nat)
    requires i < |ss| && !Clean(ss, i)
    requires Depth(ss, i) >= 0 && OpenCases(ss, i) >= 0
    requires selects > 0 <==> TopSelectBefore(ss, i)
    ensures Findings(ss, i, Depth(ss, i), OpenCases(ss, i), selects).Some?
  {
  }
}

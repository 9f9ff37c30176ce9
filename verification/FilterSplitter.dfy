/** Splitting a filter expression at its top-level ANDs. */
module FilterSplitter {
  import opened Wrappers
  import opened Strings

  datatype SplitError = InvalidFilterExpression

  // ---------- the scanner ----------

  // isSpaceBoundary
  predicate Boundary(c: char) {
    c == ' ' || c == '\t' || c == '\n' || c == '\r'
  }

  // "AND" in any case
  predicate IsAnd(s: string) {
    |s| == 3 && s[0] in "aA" && s[1] in "nN" && s[2] in "dD"
  }

  // hasStandaloneAnd: the ends of the text count as boundaries
  predicate StandaloneAnd(e: string, i: nat) {
    && i + 3 <= |e|
    && IsAnd(e[i..i + 3])
    && (i > 0 ==> Boundary(e[i - 1]))
    && (i + 3 < |e| ==> Boundary(e[i + 3]))
  }

  function Prepend(clauses: seq<string>, rest: Result<seq<string>, SplitError>): Result<seq<string>, SplitError> {
    match rest
    case Err(e) => Err(e)
    case Ok(more) => Ok(clauses + more)
  }

  function Clause(text: string): Result<seq<string>, SplitError> {
    if TrimSpace(text) == "" then Err(InvalidFilterExpression) else Ok([TrimSpace(text)])
  }

  // the clauses from start on, when the scan has come to i
  function Scan(e: string, i: nat, start: nat, depth: nat): Result<seq<string>, SplitError>
    requires start <= i <= |e|
    decreases |e| - i
  {
    if i == |e| then Clause(e[start..])
    else if e[i] == '(' then Scan(e, i + 1, start, depth + 1)
    else if e[i] == ')' then if depth == 0 then Err(InvalidFilterExpression) else Scan(e, i + 1, start, depth - 1)
    else if depth == 0 && StandaloneAnd(e, i) then
      match Clause(e[start..i])
      case Err(error) => Err(error)
      case Ok(clause) => Prepend(clause, Scan(e, i + 3, i + 3, 0))
    else Scan(e, i + 1, start, depth)
  }

  function Split(expression: string): Result<seq<string>, SplitError> {
    var e := TrimSpace(expression);
    if e == "" then Ok([]) else Scan(e, 0, 0, 0)
  }

  // splitFilterExpression
  method SplitFilterExpression(expression: string) returns (r: Result<seq<string>, SplitError>)
    ensures r == Split(expression)
  {
    var e := TrimSpace(expression);
    if e == "" {
      return Ok([]);
    }
    var clauses: seq<string> := [];
    var start, depth, i := 0, 0, 0;
    PrependNone(Scan(e, 0, 0, 0));
    while i < |e|
      invariant 0 <= start <= i <= |e| && depth >= 0
      invariant Scan(e, 0, 0, 0) == Prepend(clauses, Scan(e, i, start, depth))
    {
      if e[i] == '(' {
        depth := depth + 1;
      } else if e[i] == ')' {
        depth := depth - 1;
        if depth < 0 {
          return Err(InvalidFilterExpression);
        }
      } else if depth == 0 && StandaloneAnd(e, i) {
        var clause := TrimSpace(e[start..i]);
        if clause == "" {
          return Err(InvalidFilterExpression);
        }
        PrependTwice(clauses, [clause], Scan(e, i + 3, i + 3, 0));
        clauses := clauses + [clause];
        i := i + 2;
        start := i + 1;
      }
      i := i + 1;
    }
    var clause := TrimSpace(e[start..]);
    if clause == "" {
      return Err(InvalidFilterExpression);
    }
    r := Ok(clauses + [clause]);
  }

  lemma PrependNone(rest: Result<seq<string>, SplitError>)
    ensures Prepend([], rest) == rest
  {
    if rest.Ok? {
      assert [] + rest.value == rest.value;
    }
  }

  lemma PrependTwice(a: seq<string>, b: seq<string>, rest: Result<seq<string>, SplitError>)
    ensures Prepend(a, Prepend(b, rest)) == Prepend(a + b, rest)
  {
    if rest.Ok? {
      assert a + (b + rest.value) == a + b + rest.value;
    }
  }

  // ---------- clauses ----------

  // opening less closing parentheses
  function Balance(s: string): int {
    if s == "" then 0
    else
      var last := s[|s| - 1];
      Balance(s[..|s| - 1]) + (if last == '(' then 1 else if last == ')' then -1 else 0)
  }

  // A clause is trimmed, closes no parenthesis it has not opened, and has a standalone AND inside parentheses only.
  ghost predicate IsClause(c: string) {
    && c != "" && Trimmed(c)
    && (forall k | 0 <= k <= |c| :: Balance(c[..k]) >= 0)
    && (forall k | 0 <= k < |c| && StandaloneAnd(c, k) :: Balance(c[..k]) > 0)
  }

  // a clause with the white space around it
  datatype Piece = Piece(lead: string, clause: string, trail: string) {
    function Text(): string {
      lead + clause + trail
    }
  }

  // Pieces joined by ANDs: an AND has a boundary on both sides, and only the last clause may leave parentheses open.
  datatype Joined = Last(piece: Piece) | And(piece: Piece, keyword: string, more: Joined) {
    function Text(): string {
      if Last? then piece.Text() else piece.Text() + keyword + more.Text()
    }

    function Clauses(): seq<string> {
      if Last? then [piece.clause] else [piece.clause] + more.Clauses()
    }

    ghost predicate Valid() {
      && IsClause(piece.clause) && AllSpace(piece.lead) && AllSpace(piece.trail)
      && (And? ==>
            && Balance(piece.clause) == 0
            && piece.trail != "" && Boundary(piece.trail[|piece.trail| - 1])
            && IsAnd(keyword)
            && more.piece.lead != "" && Boundary(more.piece.lead[0])
            && more.Valid())
    }
  }

  // ---------- scanning a piece ----------

  lemma AndHasLetters(e: string, i: nat)
    requires StandaloneAnd(e, i)
    ensures e[i] in "aA" && e[i + 1] in "nN" && e[i + 2] in "dD"
    ensures !IsSpace(e[i]) && !IsSpace(e[i + 1]) && !IsSpace(e[i + 2])
  {
    var word := e[i..i + 3];
    assert word[0] == e[i] && word[1] == e[i + 1] && word[2] == e[i + 2];
  }

  // Over white space the scan only advances.
  lemma {:induction false} ScanSpace(e: string, i: nat, j: nat, start: nat, depth: nat)
    requires start <= i <= j <= |e| && AllSpace(e[i..j])
    ensures Scan(e, i, start, depth) == Scan(e, j, start, depth)
    decreases j - i
  {
    if i < j {
      assert e[i..j][0] == e[i] && IsSpace(e[i]);
      assert e[i + 1..j] == e[i..j][1..];
      if StandaloneAnd(e, i) {
        AndHasLetters(e, i);
      }
      ScanSpace(e, i + 1, j, start, depth);
    }
  }

  // An AND that stands alone in the text stands alone in the clause it begins in.
  lemma AndInClause(e: string, p: nat, c: string, k: nat)
    requires p + |c| <= |e| && e[p..p + |c|] == c && k < |c|
    requires p + |c| < |e| ==> IsSpace(e[p + |c|])
    requires StandaloneAnd(e, p + k)
    ensures StandaloneAnd(c, k)
  {
    AndHasLetters(e, p + k);
    assert forall n | 0 <= n < |c| :: c[n] == e[p + n];
    assert c[k..k + 3] == e[p + k..p + k + 3];
  }

  lemma BalanceNext(c: string, k: nat)
    requires k < |c|
    ensures Balance(c[..k + 1]) == Balance(c[..k]) + if c[k] == '(' then 1 else if c[k] == ')' then -1 else 0
  {
    assert c[..k + 1][..k] == c[..k];
  }

  lemma ClauseBalanced(c: string, k: nat)
    requires IsClause(c) && k <= |c|
    ensures Balance(c[..k]) >= 0 && Balance(c) >= 0
    ensures k < |c| && StandaloneAnd(c, k) ==> Balance(c[..k]) > 0
  {
    assert c[..|c|] == c;
    hide Balance, StandaloneAnd;
    assert Balance(c[..|c|]) >= 0;
  }

  lemma ScanNext(e: string, i: nat, start: nat, depth: nat)
    requires start <= i < |e|
    ensures e[i] == '(' ==> Scan(e, i, start, depth) == Scan(e, i + 1, start, depth + 1)
    ensures e[i] == ')' && depth > 0 ==> Scan(e, i, start, depth) == Scan(e, i + 1, start, depth - 1)
    ensures e[i] !in "()" && (depth > 0 || !StandaloneAnd(e, i)) ==> Scan(e, i, start, depth) == Scan(e, i + 1, start, depth)
  {
    hide StandaloneAnd, Clause, Prepend;
  }

  // Over a clause the scan only follows the parentheses.
  lemma {:induction false} ScanClause(e: string, p: nat, c: string, k: nat, start: nat)
    requires start <= p && p + |c| <= |e| && e[p..p + |c|] == c && k <= |c|
    requires p + |c| < |e| ==> IsSpace(e[p + |c|])
    requires IsClause(c)
    ensures Balance(c[..k]) >= 0 && Balance(c) >= 0
    ensures Scan(e, p + k, start, Balance(c[..k])) == Scan(e, p + |c|, start, Balance(c))
    decreases |c| - k
  {
    hide *;
    ClauseBalanced(c, k);
    if k < |c| {
      BalanceNext(c, k);
      ClauseBalanced(c, k + 1);
      assert c[k] == e[p..p + |c|][k] == e[p + k];
      if StandaloneAnd(e, p + k) {
        AndInClause(e, p, c, k);
      }
      ScanNext(e, p + k, start, Balance(c[..k]));
      ScanClause(e, p, c, k + 1, start);
    } else {
      assert c[..k] == c;
    }
  }

  // Over a piece the scan comes to its end with the parentheses its clause leaves open.
  lemma ScanPiece(e: string, start: nat, piece: Piece)
    requires start + |piece.Text()| <= |e| && e[start..start + |piece.Text()|] == piece.Text()
    requires IsClause(piece.clause) && AllSpace(piece.lead) && AllSpace(piece.trail)
    requires piece.trail == "" ==> start + |piece.Text()| == |e|
    ensures Balance(piece.clause) >= 0
    ensures Scan(e, start, start, 0) == Scan(e, start + |piece.Text()|, start, Balance(piece.clause))
  {
    hide *;
    PieceText(piece);
    var p, q := start + |piece.lead|, start + |piece.lead| + |piece.clause|;
    var r := q + |piece.trail|;
    TwoParts(e, start, piece.lead + piece.clause, piece.trail);
    TwoParts(e, start, piece.lead, piece.clause);
    ScanParts(e, start, p, q, r, piece.clause);
  }

  lemma PieceText(piece: Piece)
    ensures piece.Text() == piece.lead + piece.clause + piece.trail
  {
  }

  lemma TwoParts(e: string, i: nat, a: string, b: string)
    requires i + |a| + |b| <= |e| && e[i..i + |a| + |b|] == a + b
    ensures e[i..i + |a|] == a && e[i + |a|..i + |a| + |b|] == b
  {
    var whole := e[i..i + |a| + |b|];
    assert e[i..i + |a|] == whole[..|a|];
    assert e[i + |a|..i + |a| + |b|] == whole[|a|..];
  }

  lemma ScanParts(e: string, start: nat, p: nat, q: nat, r: nat, c: string)
    requires start <= p <= q <= r <= |e| && e[p..q] == c && IsClause(c)
    requires AllSpace(e[start..p]) && AllSpace(e[q..r]) && (q == r ==> r == |e|)
    ensures Balance(c) >= 0 && Scan(e, start, start, 0) == Scan(e, r, start, Balance(c))
  {
    assert Balance("") == 0;
    assert q < |e| ==> e[q] == e[q..r][0] && IsSpace(e[q]);
    hide *;
    ScanSpace(e, start, p, start, 0);
    assert c[..0] == "";
    ScanClause(e, p, c, 0, start);
    ScanSpace(e, q, r, start, Balance(c));
  }

  // ---------- splitting a join ----------

  lemma {:induction false} SplitJoinedFrom(e: string, start: nat, j: Joined)
    requires start <= |e| && e[start..] == j.Text() && j.Valid()
    ensures Scan(e, start, start, 0) == Ok(j.Clauses())
    decreases j
  {
    hide *;
    var t := j.piece.Text();
    var i := start + |t|;
    JoinedParts(j);
    assert e[start..i] == e[start..][..|t|] == t;
    TrimSpaceIs(j.piece.lead, j.piece.clause, j.piece.trail);
    ScanPiece(e, start, j.piece);
    if j.Last? {
      assert e[start..] == t;
      ScanEnds(e, start, Balance(j.piece.clause));
    } else {
      assert e[i + 3..] == e[start..][|t| + 3..] == j.more.Text();
      StandsAlone(e, start, j);
      ScanSplits(e, i, start);
      SplitJoinedFrom(e, i + 3, j.more);
      assert e[start..i] == t;
      PrependIs([j.piece.clause], j.more.Clauses());
    }
  }

  lemma PrependIs(clauses: seq<string>, more: seq<string>)
    ensures Prepend(clauses, Ok(more)) == Ok(clauses + more)
  {
  }

  lemma JoinedParts(j: Joined)
    requires j.Valid()
    ensures j.piece.Text() == j.piece.lead + j.piece.clause + j.piece.trail
    ensures IsClause(j.piece.clause) && AllSpace(j.piece.lead) && AllSpace(j.piece.trail)
    ensures j.piece.clause != "" && Trimmed(j.piece.clause)
    ensures j.Last? ==> j.Text() == j.piece.Text() && j.Clauses() == [j.piece.clause]
    ensures j.And? ==>
      && j.Text() == j.piece.Text() + j.keyword + j.more.Text() && |j.keyword| == 3 && j.more.Valid()
      && j.Clauses() == [j.piece.clause] + j.more.Clauses() && Balance(j.piece.clause) == 0 && j.piece.trail != ""
  {
    hide Balance, AllSpace, StandaloneAnd;
  }

  lemma ScanEnds(e: string, start: nat, depth: nat)
    requires start <= |e| && TrimSpace(e[start..]) != ""
    ensures Scan(e, |e|, start, depth) == Ok([TrimSpace(e[start..])])
  {
    hide TrimSpace;
  }

  lemma ScanSplits(e: string, i: nat, start: nat)
    requires start <= i < |e| && StandaloneAnd(e, i) && TrimSpace(e[start..i]) != ""
    ensures i + 3 <= |e|
    ensures Scan(e, i, start, 0) == Prepend([TrimSpace(e[start..i])], Scan(e, i + 3, i + 3, 0))
  {
    AndHasLetters(e, i);
    hide TrimSpace, Prepend;
  }

  lemma StandsAlone(e: string, start: nat, j: Joined)
    requires start <= |e| && e[start..] == j.Text() && j.Valid() && j.And?
    ensures StandaloneAnd(e, start + |j.piece.Text()|)
  {
    var t, i := j.piece.Text(), start + |j.piece.Text()|;
    var whole := j.Text();
    assert forall k | 0 <= k < |whole| :: e[start + k] == e[start..][k] == whole[k];
    assert e[i..i + 3] == j.keyword;
    assert e[i - 1] == whole[|t| - 1] == t[|t| - 1] == j.piece.trail[|j.piece.trail| - 1];
    assert e[i + 3] == whole[|t| + 3] == j.more.Text()[0] == j.more.piece.lead[0];
  }

  // Splitting a join of clauses gives exactly the clauses, whatever the case of the ANDs and the white space
  // around them.
  lemma SplitJoined(j: Joined)
    requires j.Valid() && Trimmed(j.Text())
    ensures Split(j.Text()) == Ok(j.Clauses())
  {
    var e := j.Text();
    assert j.piece.clause != "" && e != "" by {
      assert |e| >= |j.piece.Text()| >= |j.piece.clause| > 0;
    }
    assert e[0..] == e;
    SplitJoinedFrom(e, 0, j);
  }
}

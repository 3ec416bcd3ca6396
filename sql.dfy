/**
 * SQL text built by the handlers: the "$n" placeholders that PostgreSQL
 * (through pgx) binds to the n-th argument, conditions rendered from
 * templates with fmt.Sprintf("...$%d...", argCounter), and the
 * " WHERE " + strings.Join(conditions, " AND ") clause every list and report
 * query shares.
 */
module Sql {
  import opened Text
  import opened Dates

  /** A query argument, as the handlers pass them to pgx. */
  datatype Arg = DateArg(date: Date) | TextArg(text: string) | IntArg(number: int)

  /** Length of the run of decimal digits at the start of s. */
  function DigitRun(s: string): (n: nat)
    ensures n <= |s| && AllDigits(s[..n])
    ensures n < |s| ==> !IsDigit(s[n])
  {
    if |s| > 0 && IsDigit(s[0]) then
      var n := 1 + DigitRun(s[1..]);
      assert forall i | 1 <= i < n :: s[..n][i] == s[1..][..n - 1][i - 1];
      n
    else 0
  }

  /** The placeholder numbers of a query text, in order of appearance. */
  function Placeholders(s: string): seq<nat>
    decreases |s|
  {
    if |s| == 0 then []
    else if s[0] == '$' && DigitRun(s[1..]) > 0 then
      var n := DigitRun(s[1..]);
      assert s[1..1 + n] == s[1..][..n];
      [DigitsValue(s[1..1 + n])] + Placeholders(s[1 + n..])
    else Placeholders(s[1..])
  }

  predicate NoDollar(s: string) { forall i | 0 <= i < |s| :: s[i] != '$' }

  /** What fmt.Sprintf("$%d", k) writes. */
  function Ref(k: nat): string { "$" + NatToString(k) }

  predicate NoLeadingDigit(s: string) { s == [] || !IsDigit(s[0]) }

  lemma {:induction false} PlaceholdersSkip(a: string, b: string)
    requires NoDollar(a)
    ensures Placeholders(a + b) == Placeholders(b)
    decreases |a|
  {
    if |a| > 0 {
      var s := a + b;
      assert s[0] == a[0] && s[0] != '$';
      assert Placeholders(s) == Placeholders(s[1..]);
      assert s[1..] == a[1..] + b;
      assert NoDollar(a[1..]) by {
        forall i | 0 <= i < |a[1..]| ensures a[1..][i] != '$' {
          assert a[1..][i] == a[i + 1];
        }
      }
      PlaceholdersSkip(a[1..], b);
    } else {
      assert a + b == b;
    }
  }

  lemma DigitRunOfNumber(k: nat, b: string)
    requires NoLeadingDigit(b)
    ensures DigitRun(NatToString(k) + b) == |NatToString(k)|
  {
    var s := NatToString(k);
    DigitRunPrefix(s, b);
  }

  lemma {:induction false} DigitRunPrefix(s: string, b: string)
    requires AllDigits(s) && NoLeadingDigit(b)
    ensures DigitRun(s + b) == |s|
    decreases |s|
  {
    if |s| > 0 {
      assert (s + b)[1..] == s[1..] + b;
      DigitRunPrefix(s[1..], b);
    } else {
      assert s + b == b;
    }
  }

  lemma PlaceholdersRef(k: nat, b: string)
    requires NoLeadingDigit(b)
    ensures Placeholders(Ref(k) + b) == [k] + Placeholders(b)
  {
    var s := Ref(k) + b;
    var digits := NatToString(k);
    assert s[1..] == digits + b;
    DigitRunOfNumber(k, b);
    assert s[1..1 + |digits|] == digits;
    assert s[1 + |digits|..] == b;
  }

  /**
   * A condition template: the text pieces around each use of the
   * condition's single placeholder.
   */
  predicate ValidTemplate(pieces: seq<string>) {
    |pieces| >= 2 && PiecesOk(pieces)
  }

  /** pieces[0] + "$k" + pieces[1] + ... + "$k" + pieces[last]. */
  function Fill(pieces: seq<string>, k: nat): string
    decreases |pieces|
  {
    if |pieces| == 0 then ""
    else if |pieces| == 1 then pieces[0]
    else pieces[0] + (Ref(k) + Fill(pieces[1..], k))
  }

  function Repeat(k: nat, n: nat): (r: seq<nat>)
    ensures |r| == n && forall i | 0 <= i < n :: r[i] == k
  {
    if n == 0 then [] else [k] + Repeat(k, n - 1)
  }

  lemma ConcatNoLeadingDigit(x: string, y: string)
    requires NoLeadingDigit(x) && NoLeadingDigit(y)
    ensures NoLeadingDigit(x + y)
  {
    if x == [] {
      assert x + y == y;
    } else {
      assert (x + y)[0] == x[0];
    }
  }

  lemma RefNoLeadingDigit(k: nat, y: string)
    ensures NoLeadingDigit(Ref(k) + y)
  {
    assert (Ref(k) + y)[0] == '$';
  }

  /** Template pieces carry no '$' and, after the first, never start with a digit. */
  predicate PiecesOk(pieces: seq<string>) {
    (forall i | 0 <= i < |pieces| :: NoDollar(pieces[i]))
    && (forall i | 1 <= i < |pieces| :: NoLeadingDigit(pieces[i]))
  }

  lemma PiecesOkTail(pieces: seq<string>)
    requires PiecesOk(pieces) && |pieces| >= 2
    ensures PiecesOk(pieces[1..]) && NoDollar(pieces[0]) && NoLeadingDigit(pieces[1])
  {
    assert pieces[1..][0] == pieces[1];
    forall i | 0 <= i < |pieces[1..]| ensures NoDollar(pieces[1..][i]) {
      assert pieces[1..][i] == pieces[i + 1];
    }
    forall i | 1 <= i < |pieces[1..]| ensures NoLeadingDigit(pieces[1..][i]) {
      assert pieces[1..][i] == pieces[i + 1];
    }
  }

  lemma {:induction false} FillNoLeadingDigit(pieces: seq<string>, k: nat, b: string)
    requires |pieces| >= 1 && PiecesOk(pieces) && NoLeadingDigit(pieces[0]) && NoLeadingDigit(b)
    ensures NoLeadingDigit(Fill(pieces, k) + b)
  {
    if |pieces| == 1 {
      ConcatNoLeadingDigit(pieces[0], b);
    } else {
      var rest := Fill(pieces[1..], k) + b;
      assert Fill(pieces, k) + b == pieces[0] + (Ref(k) + rest);
      RefNoLeadingDigit(k, rest);
      ConcatNoLeadingDigit(pieces[0], Ref(k) + rest);
    }
  }

  lemma {:induction false} FillPlaceholders(pieces: seq<string>, k: nat, b: string)
    requires |pieces| >= 1 && PiecesOk(pieces)
    requires NoLeadingDigit(b)
    ensures Placeholders(Fill(pieces, k) + b) == Repeat(k, |pieces| - 1) + Placeholders(b)
    decreases |pieces|
  {
    if |pieces| == 1 {
      assert NoDollar(pieces[0]);
      PlaceholdersSkip(pieces[0], b);
    } else {
      PiecesOkTail(pieces);
      var rest := pieces[1..];
      var tail := Fill(rest, k) + b;
      FillNoLeadingDigit(rest, k, b);
      FillPlaceholders(rest, k, b);
      assert Fill(pieces, k) + b == pieces[0] + (Ref(k) + tail);
      FillStep(pieces[0], k, tail);
      assert Repeat(k, |pieces| - 1) == [k] + Repeat(k, |rest| - 1);
      Associative([k], Repeat(k, |rest| - 1), Placeholders(b));
    }
  }

  lemma Associative(x: seq<nat>, y: seq<nat>, z: seq<nat>)
    ensures (x + y) + z == x + (y + z)
  {
  }

  /** One "$k" between a piece without '$' and a text not starting with a digit. */
  lemma FillStep(p: string, k: nat, tail: string)
    requires NoDollar(p) && NoLeadingDigit(tail)
    ensures Placeholders(p + (Ref(k) + tail)) == [k] + Placeholders(tail)
  {
    PlaceholdersSkip(p, Ref(k) + tail);
    PlaceholdersRef(k, tail);
  }

  /** A condition ready to be numbered: its template and the argument it binds. */
  datatype Cond = Cond(pieces: seq<string>, arg: Arg)

  predicate ValidConds(cs: seq<Cond>) {
    forall i | 0 <= i < |cs| :: ValidTemplate(cs[i].pieces)
  }

  /** The conditions rendered with placeholders first, first + 1, ... */
  function Render(cs: seq<Cond>, first: nat): (r: seq<string>)
    ensures |r| == |cs|
    ensures forall i | 0 <= i < |cs| :: r[i] == Fill(cs[i].pieces, first + i)
    decreases |cs|
  {
    if |cs| == 0 then [] else [Fill(cs[0].pieces, first)] + Render(cs[1..], first + 1)
  }

  /** The argument list, one per condition and in the same order. */
  function Args(cs: seq<Cond>): (r: seq<Arg>)
    ensures |r| == |cs| && forall i | 0 <= i < |cs| :: r[i] == cs[i].arg
  {
    if |cs| == 0 then [] else [cs[0].arg] + Args(cs[1..])
  }

  /** No WHERE without conditions; otherwise the conditions joined with AND. */
  function WhereClause(conditions: seq<string>): string {
    if |conditions| == 0 then "" else " WHERE " + Join(conditions, " AND ")
  }

  function Where(cs: seq<Cond>): string {
    WhereClause(Render(cs, 1))
  }

  /** The placeholders condition i (counting from first) is expected to use: all equal to first + i. */
  function Expected(cs: seq<Cond>, first: nat): seq<nat>
    requires ValidConds(cs)
    decreases |cs|
  {
    if |cs| == 0 then [] else Repeat(first, |cs[0].pieces| - 1) + Expected(cs[1..], first + 1)
  }

  lemma {:induction false} JoinPlaceholders(cs: seq<Cond>, first: nat)
    requires ValidConds(cs) && |cs| >= 1
    ensures Placeholders(Join(Render(cs, first), " AND ")) == Expected(cs, first)
    decreases |cs|
  {
    var r := Render(cs, first);
    assert ValidTemplate(cs[0].pieces);
    if |cs| == 1 {
      assert Join(r, " AND ") == Fill(cs[0].pieces, first) + "";
      assert NoLeadingDigit("");
      FillPlaceholders(cs[0].pieces, first, "");
      assert Expected(cs, first) == Repeat(first, |cs[0].pieces| - 1) + [];
    } else {
      var rest := Join(Render(cs[1..], first + 1), " AND ");
      assert r[1..] == Render(cs[1..], first + 1);
      assert Join(r, " AND ") == Fill(cs[0].pieces, first) + (" AND " + rest);
      assert NoDollar(" AND ");
      PlaceholdersSkip(" AND ", rest);
      assert (" AND " + rest)[0] == ' ';
      FillPlaceholders(cs[0].pieces, first, " AND " + rest);
      JoinPlaceholders(cs[1..], first + 1);
    }
  }

  /** The placeholders of the WHERE clause are exactly those the conditions expect. */
  lemma WherePlaceholders(cs: seq<Cond>)
    requires ValidConds(cs)
    ensures Placeholders(Where(cs)) == Expected(cs, 1)
  {
    if |cs| > 0 {
      assert NoDollar(" WHERE ");
      PlaceholdersSkip(" WHERE ", Join(Render(cs, 1), " AND "));
      JoinPlaceholders(cs, 1);
    }
  }

  /**
   * Every placeholder of the expected list names an argument, and every
   * argument is named: placeholder k always refers to args[k - 1], the
   * argument of the k-th condition.
   */
  lemma {:induction false} ExpectedCoversArgs(cs: seq<Cond>, first: nat)
    requires ValidConds(cs)
    ensures forall p | p in Expected(cs, first) :: first <= p < first + |cs|
    ensures forall k | first <= k < first + |cs| :: k in Expected(cs, first)
    decreases |cs|
  {
    if |cs| > 0 {
      ExpectedCoversArgs(cs[1..], first + 1);
      var head := Repeat(first, |cs[0].pieces| - 1);
      assert ValidTemplate(cs[0].pieces);
      assert head[0] == first;
      assert Expected(cs, first) == head + Expected(cs[1..], first + 1);
    }
  }

  /** The text of the query numbers its placeholders 1..|args| and uses every one. */
  lemma WhereMatchesArgs(cs: seq<Cond>)
    requires ValidConds(cs)
    ensures forall p | p in Placeholders(Where(cs)) :: 1 <= p <= |Args(cs)|
    ensures forall k | 1 <= k <= |Args(cs)| :: k in Placeholders(Where(cs))
  {
    WherePlaceholders(cs);
    ExpectedCoversArgs(cs, 1);
  }

  /** fmt.Sprintf("%%%s%%", term): the ILIKE pattern matching any text containing the term. */
  function LikePattern(term: string): string { "%" + term + "%" }

  /** The lone condition of a list query that searches with placeholder $1, when a term is given. */
  function SearchConds(pieces: seq<string>, search: string): seq<Cond> {
    if search == "" then [] else [Cond(pieces, TextArg(LikePattern(search)))]
  }

  /**
   * A search term adds one condition that uses $1 once per searched column,
   * bound to the wrapped term; no term means no WHERE and no argument.
   */
  lemma SearchWhere(pieces: seq<string>, search: string)
    requires ValidTemplate(pieces)
    ensures ValidConds(SearchConds(pieces, search))
    ensures search == "" ==> Where(SearchConds(pieces, search)) == "" && Args(SearchConds(pieces, search)) == []
    ensures search != "" ==> Args(SearchConds(pieces, search)) == [TextArg(LikePattern(search))]
    ensures search != "" ==> Placeholders(Where(SearchConds(pieces, search))) == Repeat(1, |pieces| - 1)
  {
    if search != "" {
      WherePlaceholders(SearchConds(pieces, search));
      assert Expected(SearchConds(pieces, search), 1) == Repeat(1, |pieces| - 1) + [];
    }
  }
}

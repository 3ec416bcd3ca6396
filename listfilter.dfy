/**
 * How the list handlers build their queries. The searched lists of ibu, anak
 * and kader append one optional search condition on $1; those of
 * perkembangan.go and imunisasi.go append an optional search condition that
 * uses one placeholder several times, then an optional id_anak condition,
 * numbered by a running argCounter.
 */
module ListFilter {
  import opened Wrappers
  import opened Text
  import opened Sql
  import opened Http

  /**
   * A searched list: with a term, the query gets the search condition and
   * the wrapped term is its only argument; without one, neither.
   */
  method BuildSearch(select: string, pieces: seq<string>, order: string, search: string) returns (query: string, args: seq<Arg>)
    requires ValidTemplate(pieces)
    ensures query == select + Where(SearchConds(pieces, search)) + order
    ensures args == Args(SearchConds(pieces, search))
    ensures search == "" ==> args == [] && query == select + order
    ensures search != "" ==> args == [TextArg(LikePattern(search))]
    ensures search != "" ==> Placeholders(Where(SearchConds(pieces, search))) == Repeat(1, |pieces| - 1)
  {
    SearchWhere(pieces, search);
    query := select;
    args := [];
    if search != "" {
      query := query + Where(SearchConds(pieces, search));
      args := args + [TextArg(LikePattern(search))];
    } else {
      assert query + Where(SearchConds(pieces, search)) == query;
    }
    query := query + order;
  }

  /** The id_anak filter is applied only when the query value parses to an integer above zero. */
  function IdFilter(idParam: string): (r: Option<int>)
    ensures r.Some? <==> idParam != "" && Atoi(idParam).Some? && Atoi(idParam).value > 0
    ensures r.Some? ==> r.value > 0 && Atoi(idParam) == r
  {
    if idParam != "" && Atoi(idParam).Some? && Atoi(idParam).value > 0 then Atoi(idParam) else None
  }

  /** The conditions, in the order the handler appends them. */
  function FilterConds(searchPieces: seq<string>, idPieces: seq<string>, search: string, idParam: string): seq<Cond> {
    (if search != "" then [Cond(searchPieces, TextArg(LikePattern(search)))] else [])
    + (if IdFilter(idParam).Some? then [Cond(idPieces, IntArg(IdFilter(idParam).value))] else [])
  }

  lemma ValidSnoc(cs: seq<Cond>, c: Cond)
    requires ValidConds(cs) && ValidTemplate(c.pieces)
    ensures ValidConds(cs + [c])
  {
    var all := cs + [c];
    forall i | 0 <= i < |all| ensures ValidTemplate(all[i].pieces) {
      if i < |cs| { assert all[i] == cs[i]; }
    }
  }

  lemma ArgsSnoc(cs: seq<Cond>, c: Cond)
    ensures Args(cs + [c]) == Args(cs) + [c.arg]
  {
    var all := cs + [c];
    var la := Args(all);
    var ra := Args(cs) + [c.arg];
    forall i | 0 <= i < |la| ensures la[i] == ra[i] {
      if i < |cs| { assert all[i] == cs[i]; }
    }
    assert la == ra;
  }

  lemma {:induction false} RenderSnoc(cs: seq<Cond>, c: Cond, first: nat)
    requires ValidConds(cs) && ValidTemplate(c.pieces)
    ensures ValidConds(cs + [c])
    ensures Render(cs + [c], first) == Render(cs, first) + [Fill(c.pieces, first + |cs|)]
    decreases |cs|
  {
    ValidSnoc(cs, c);
    if |cs| == 0 {
      assert cs + [c] == [c];
    } else {
      assert (cs + [c])[1..] == cs[1..] + [c];
      assert ValidConds(cs[1..]) by {
        forall i | 0 <= i < |cs[1..]| ensures ValidTemplate(cs[1..][i].pieces) {
          assert cs[1..][i] == cs[i + 1];
        }
      }
      RenderSnoc(cs[1..], c, first + 1);
    }
  }

  /**
   * The handler's imperative builder: conditions and args grow together and
   * argCounter is always one more than the number of arguments.
   */
  method BuildFiltered(select: string, searchPieces: seq<string>, idPieces: seq<string>, order: string,
                       search: string, idParam: string) returns (query: string, args: seq<Arg>)
    requires ValidTemplate(searchPieces) && ValidTemplate(idPieces)
    ensures ValidConds(FilterConds(searchPieces, idPieces, search, idParam))
    ensures query == select + Where(FilterConds(searchPieces, idPieces, search, idParam)) + order
    ensures args == Args(FilterConds(searchPieces, idPieces, search, idParam))
  {
    ghost var cs: seq<Cond> := [];
    var conditions: seq<string> := [];
    args := [];
    var argCounter := 1;
    query := select;
    if search != "" {
      RenderSnoc(cs, Cond(searchPieces, TextArg(LikePattern(search))), 1);
      ArgsSnoc(cs, Cond(searchPieces, TextArg(LikePattern(search))));
      cs := cs + [Cond(searchPieces, TextArg(LikePattern(search)))];
      conditions := conditions + [Fill(searchPieces, argCounter)];
      args := args + [TextArg(LikePattern(search))];
      argCounter := argCounter + 1;
    }
    assert ValidConds(cs) && conditions == Render(cs, 1) && args == Args(cs) && argCounter == |args| + 1;
    if idParam != "" {
      var idAnak := Atoi(idParam);
      if idAnak.Some? && idAnak.value > 0 {
        RenderSnoc(cs, Cond(idPieces, IntArg(idAnak.value)), 1);
        ArgsSnoc(cs, Cond(idPieces, IntArg(idAnak.value)));
        cs := cs + [Cond(idPieces, IntArg(idAnak.value))];
        conditions := conditions + [Fill(idPieces, argCounter)];
        args := args + [IntArg(idAnak.value)];
        argCounter := argCounter + 1;
      }
    }
    assert cs == FilterConds(searchPieces, idPieces, search, idParam);
    assert conditions == Render(cs, 1) && args == Args(cs);
    if |conditions| > 0 {
      query := query + " WHERE " + Join(conditions, " AND ");
    }
    query := query + order;
  }

  /**
   * Placeholder numbering: the search condition uses $1 once per searched
   * column; the id_anak condition uses the next number, $2 after a search
   * and $1 without one; every number refers to the argument at that position.
   */
  lemma FilterPlaceholders(searchPieces: seq<string>, idPieces: seq<string>, search: string, idParam: string)
    requires ValidTemplate(searchPieces) && |idPieces| == 2 && ValidTemplate(idPieces)
    ensures ValidConds(FilterConds(searchPieces, idPieces, search, idParam))
    ensures var cs := FilterConds(searchPieces, idPieces, search, idParam);
      Placeholders(Where(cs)) ==
        (if search != "" then Repeat(1, |searchPieces| - 1) else [])
        + (if IdFilter(idParam).Some? then [if search != "" then 2 else 1] else [])
    ensures var cs := FilterConds(searchPieces, idPieces, search, idParam);
      (forall p | p in Placeholders(Where(cs)) :: 1 <= p <= |Args(cs)|)
      && (forall k | 1 <= k <= |Args(cs)| :: k in Placeholders(Where(cs)))
  {
    var cs := FilterConds(searchPieces, idPieces, search, idParam);
    WherePlaceholders(cs);
    WhereMatchesArgs(cs);
    var first := if search != "" then 2 else 1;
    var idPart: seq<Cond> := if IdFilter(idParam).Some? then [Cond(idPieces, IntArg(IdFilter(idParam).value))] else [];
    assert Expected(idPart, first) == (if IdFilter(idParam).Some? then [first] else []) by {
      if IdFilter(idParam).Some? {
        assert Expected(idPart, first) == Repeat(first, 1) + Expected([], first + 1);
      }
    }
    if search != "" {
      assert cs == [cs[0]] + idPart;
      assert cs[1..] == idPart;
      assert Expected(cs, 1) == Repeat(1, |searchPieces| - 1) + Expected(idPart, 2);
    } else {
      assert cs == idPart;
    }
  }

  /** A malformed, zero or negative id_anak is ignored, not refused. */
  lemma IgnoredIdFilter(searchPieces: seq<string>, idPieces: seq<string>, search: string, idParam: string)
    requires Atoi(idParam).None? || Atoi(idParam).value <= 0
    ensures FilterConds(searchPieces, idPieces, search, idParam) == FilterConds(searchPieces, idPieces, search, "")
  {
  }
}

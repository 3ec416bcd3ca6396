/**
 * The row loop every list handler runs after its query: rows.Next() and
 * rows.Scan into a slice, rows.Err() after the loop, then c.JSON of the slice.
 * A slice declared with `var xs []T` stays nil, and is written as JSON null,
 * when no row arrives; one made with make([]T, 0) is written as [].
 */
module Rows {
  import opened Http

  /** One row delivered by rows.Next(): it scans, or rows.Scan fails on it. */
  datatype RowStep = Scanned | ScanFails

  /** What the database hands back for a list query. */
  datatype QueryResult =
    | QueryFails                                    // dbpool.Query returns an error
    | Delivered(steps: seq<RowStep>, iterErr: bool) // rows delivered, and whether rows.Err() reports an error

  /** The error messages one list handler uses for its three failure points. */
  datatype ListMessages = ListMessages(query: string, scan: string, iterate: string)

  /** The reply a list handler writes for a query result. */
  function ListReply(res: QueryResult, nilWhenEmpty: bool, msgs: ListMessages): (r: Reply)
    ensures r.status == StatusOK || r.status == StatusInternalServerError
    ensures r.status == StatusOK <==> res.Delivered? && ScanFails !in res.steps && !res.iterErr
    ensures r.status == StatusOK ==> r.body == ListJson(|res.steps|, nilWhenEmpty && |res.steps| == 0)
  {
    if res.QueryFails? then Fail(StatusInternalServerError, msgs.query)
    else if ScanFails in res.steps then Fail(StatusInternalServerError, msgs.scan)
    else if res.iterErr then Fail(StatusInternalServerError, msgs.iterate)
    else Reply(StatusOK, ListJson(|res.steps|, nilWhenEmpty && |res.steps| == 0))
  }

  /** The loop itself: it stops at the first row that fails to scan. */
  method CollectRows(res: QueryResult, nilWhenEmpty: bool, msgs: ListMessages) returns (reply: Reply)
    ensures reply == ListReply(res, nilWhenEmpty, msgs)
  {
    if res.QueryFails? {
      return Fail(StatusInternalServerError, msgs.query);
    }
    var collected := 0;
    var i := 0;
    while i < |res.steps|
      invariant 0 <= i <= |res.steps|
      invariant collected == i
      invariant ScanFails !in res.steps[..i]
    {
      if res.steps[i] == ScanFails {
        assert ScanFails in res.steps;
        return Fail(StatusInternalServerError, msgs.scan);
      }
      assert res.steps[..i + 1] == res.steps[..i] + [res.steps[i]];
      collected := collected + 1;
      i := i + 1;
    }
    assert res.steps[..i] == res.steps;
    if res.iterErr {
      return Fail(StatusInternalServerError, msgs.iterate);
    }
    var isNull := nilWhenEmpty && collected == 0;
    reply := Reply(StatusOK, ListJson(collected, isNull));
  }

  /** A list built with make([]T, 0) is an empty JSON array, never null; a nil slice with no rows is null. */
  lemma EmptyListShape(msgs: ListMessages)
    ensures ListReply(Delivered([], false), false, msgs) == Reply(StatusOK, ListJson(0, false))
    ensures ListReply(Delivered([], false), true, msgs) == Reply(StatusOK, ListJson(0, true))
  {
  }
}

/**
 * The two handlers every resource writes the same way apart from its table
 * and its messages: fetching one record by the id in the path, and deleting
 * one when no constraint can stop the delete. The id is read with
 * strconv.Atoi; a failed parse answers 400 before the database is asked.
 */
module ById {
  import opened Http

  /** The messages one resource uses: a bad id, no such record, and any other failure. */
  datatype ByIdMessages = ByIdMessages(badId: string, notFound: string, failed: string)

  /**
   * A get-by-id route. The handlers copies answer 404 only for "no rows in
   * result set" and 500 for every other error; the inline routes of main.go
   * answer 404 for every error.
   */
  function GetRecord(v: Variant, table: string, msgs: ByIdMessages, idParam: string, db: DbOutcome): (run: Run)
    ensures Atoi(idParam).None? <==> run == Run(Fail(StatusBadRequest, msgs.badId), [])
    ensures Atoi(idParam).Some? ==> run.effects == [Exec(SelectById(table, Atoi(idParam).value))]
    ensures Atoi(idParam).Some? && db.None? ==> run.reply == Reply(StatusOK, RecordJson)
    ensures Atoi(idParam).Some? && db.Some? && (v == MainRoute || db.value == NoRows) ==>
      run.reply == Fail(StatusNotFound, msgs.notFound)
    ensures Atoi(idParam).Some? && db.Some? && v == Handlers && db.value != NoRows ==>
      run.reply == Fail(StatusInternalServerError, msgs.failed)
  {
    match Atoi(idParam)
    case None => Run(Fail(StatusBadRequest, msgs.badId), [])
    case Some(id) =>
      var effects := [Exec(SelectById(table, id))];
      match db
      case None => Run(Reply(StatusOK, RecordJson), effects)
      case Some(e) =>
        if v == Handlers && e != NoRows then Run(Fail(StatusInternalServerError, msgs.failed), effects)
        else Run(Fail(StatusNotFound, msgs.notFound), effects)
  }

  /**
   * The two copies of a get-by-id route agree on every input except a
   * database error other than no rows, which the handlers copy answers with
   * 500 and main.go with 404.
   */
  lemma GetCopiesCompared(table: string, msgs: ByIdMessages, idParam: string, db: DbOutcome)
    ensures GetRecord(Handlers, table, msgs, idParam, db) != GetRecord(MainRoute, table, msgs, idParam, db)
      <==> Atoi(idParam).Some? && db.Some? && db.value != NoRows
    ensures GetRecord(MainRoute, table, msgs, idParam, db).reply.status != StatusInternalServerError
  {
  }

  /** A delete route that answers 500 for every database error. */
  function DeleteRecord(table: string, badId: string, done: string, failed: string, idParam: string, db: DbOutcome): (run: Run)
    ensures Atoi(idParam).None? <==> run == Run(Fail(StatusBadRequest, badId), [])
    ensures Atoi(idParam).Some? ==> run.effects == [Exec(DeleteById(table, Atoi(idParam).value))]
    ensures Atoi(idParam).Some? && db.None? ==> run.reply == Done(StatusOK, done)
    ensures Atoi(idParam).Some? && db.Some? ==> run.reply == Fail(StatusInternalServerError, failed)
  {
    match Atoi(idParam)
    case None => Run(Fail(StatusBadRequest, badId), [])
    case Some(id) =>
      var effects := [Exec(DeleteById(table, id))];
      if db.None? then Run(Done(StatusOK, done), effects)
      else Run(Fail(StatusInternalServerError, failed), effects)
  }
}

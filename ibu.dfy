/**
 * The mother ("ibu") endpoints of api/handlers/ibu.go: the caller's kader id
 * requirement, the NIK rule, the statements sent, and the classification of
 * PostgreSQL errors.
 */
module IbuHandlers {
  import opened Wrappers
  import opened Sql
  import opened Http
  import opened Rows
  import opened ListFilter
  import opened ById

  /** TambahIbuPayload / UpdateIbuPayload as bound by ShouldBindJSON. */
  datatype IbuPayload = IbuPayload(namaLengkap: string, nik: string, noTelepon: string, alamat: string)

  const BadId := "ID ibu tidak valid"
  const NikTooLongMsg := "NIK max 16 karakter."
  const NikKey := "ibu_nik_key"

  function IbuColumns(p: IbuPayload): seq<Column> {
    [Column("nama_lengkap", VText(p.namaLengkap)), Column("nik", VText(p.nik)),
     Column("no_telepon", VText(p.noTelepon)), Column("alamat", VText(p.alamat))]
  }

  function InsertIbu(p: IbuPayload, kaderId: int): Statement {
    Insert("ibu", IbuColumns(p) + [Column("id_kader_pendaftar", VInt(kaderId))])
  }

  function UpdateIbuStatement(p: IbuPayload, id: int): Statement {
    UpdateById("ibu", IbuColumns(p) + [Column("updated_at", VNow)], id)
  }

  /**
   * TambahIbuHandler. `kaderId` is what the middleware stored in the context;
   * without it the request is refused before the body is read.
   */
  function CreateIbu(v: Variant, kaderId: Option<int>, body: Option<IbuPayload>, db: DbOutcome): (run: Run)
    ensures kaderId.None? ==> run == Run(Fail(StatusUnauthorized, "Sesi tidak valid."), [])
    ensures run.reply.status == StatusBadRequest <==> kaderId.Some? && (body.None? || NikTooLong(body.value.nik))
    ensures run.effects != [] <==> kaderId.Some? && body.Some? && !NikTooLong(body.value.nik)
    ensures run.effects != [] ==> run.effects == [Exec(InsertIbu(body.value, kaderId.value))]
    ensures run.reply.status == StatusCreated <==> run.effects != [] && db.None?
    ensures run.reply.status == StatusConflict <==> run.effects != [] && db.Some? && OnConstraint(v, db.value, UniqueViolation, NikKey)
    ensures run.reply.status == StatusInternalServerError <==> run.effects != [] && db.Some? && !OnConstraint(v, db.value, UniqueViolation, NikKey)
  {
    if kaderId.None? then Run(Fail(StatusUnauthorized, "Sesi tidak valid."), [])
    else if body.None? then Run(Fail(StatusBadRequest, "Data tidak lengkap atau format salah."), [])
    else if NikTooLong(body.value.nik) then Run(Fail(StatusBadRequest, NikTooLongMsg), [])
    else
      var effects := [Exec(InsertIbu(body.value, kaderId.value))];
      if db.None? then Run(Done(StatusCreated, "Data ibu berhasil didaftarkan!"), effects)
      else if OnConstraint(v, db.value, UniqueViolation, NikKey) then Run(Fail(StatusConflict, "NIK ini sudah terdaftar."), effects)
      else Run(Fail(StatusInternalServerError, "Gagal menyimpan data ibu."), effects)
  }

  /** UpdateIbuHandler. */
  function UpdateIbu(v: Variant, idParam: string, body: Option<IbuPayload>, db: DbOutcome): (run: Run)
    ensures Atoi(idParam).None? ==> run == Run(Fail(StatusBadRequest, BadId), [])
    ensures run.reply.status == StatusBadRequest <==> Atoi(idParam).None? || body.None? || NikTooLong(body.value.nik)
    ensures run.effects != [] <==> run.reply.status != StatusBadRequest
    ensures run.effects != [] ==> run.effects == [Exec(UpdateIbuStatement(body.value, Atoi(idParam).value))]
    ensures run.reply.status == StatusOK <==> run.effects != [] && db.None?
    ensures run.reply.status == StatusConflict <==> run.effects != [] && db.Some? && OnConstraint(v, db.value, UniqueViolation, NikKey)
    ensures run.reply.status == StatusInternalServerError <==> run.effects != [] && db.Some? && !OnConstraint(v, db.value, UniqueViolation, NikKey)
  {
    match Atoi(idParam)
    case None => Run(Fail(StatusBadRequest, BadId), [])
    case Some(id) =>
      if body.None? then Run(Fail(StatusBadRequest, "Data tidak lengkap."), [])
      else if NikTooLong(body.value.nik) then Run(Fail(StatusBadRequest, NikTooLongMsg), [])
      else
        var effects := [Exec(UpdateIbuStatement(body.value, id))];
        if db.None? then Run(Done(StatusOK, "Data ibu berhasil diperbarui!"), effects)
        else if OnConstraint(v, db.value, UniqueViolation, NikKey) then Run(Fail(StatusConflict, "NIK ini sudah terdaftar pada ibu lain."), effects)
        else Run(Fail(StatusInternalServerError, "Gagal memperbarui data ibu."), effects)
  }

  /** DeleteIbuHandler: only the children's FK to this mother gives 409. */
  function DeleteIbu(v: Variant, idParam: string, db: DbOutcome): (run: Run)
    ensures Atoi(idParam).None? <==> run == Run(Fail(StatusBadRequest, BadId), [])
    ensures Atoi(idParam).Some? ==> run.effects == [Exec(DeleteById("ibu", Atoi(idParam).value))]
    ensures run.reply.status == StatusConflict <==> Atoi(idParam).Some? && db.Some? && OnConstraint(v, db.value, ForeignKeyViolation, "anak_id_ibu_fkey")
    ensures run.reply.status == StatusInternalServerError <==>
      Atoi(idParam).Some? && db.Some? && !OnConstraint(v, db.value, ForeignKeyViolation, "anak_id_ibu_fkey")
    ensures run.reply.status == StatusOK <==> Atoi(idParam).Some? && db.None?
  {
    match Atoi(idParam)
    case None => Run(Fail(StatusBadRequest, BadId), [])
    case Some(id) =>
      var effects := [Exec(DeleteById("ibu", id))];
      if db.None? then Run(Done(StatusOK, "Data ibu berhasil dihapus!"), effects)
      else if OnConstraint(v, db.value, ForeignKeyViolation, "anak_id_ibu_fkey") then
        Run(Fail(StatusConflict, "Ibu tidak bisa dihapus karena masih terhubung dengan data anak."), effects)
      else Run(Fail(StatusInternalServerError, "Gagal menghapus data ibu."), effects)
  }

  /** GetIbuByIdHandler and the GET /ibu/:id route of main.go, both ById.GetRecord on the ibu table. */
  const GetMsgs := ByIdMessages(BadId, "Ibu tidak ditemukan.", "Gagal mengambil data ibu.")

  /** The caller who registers a mother is recorded as id_kader_pendaftar, and an update never rewrites it. */
  lemma PendaftarKept(p: IbuPayload, kaderId: int, id: int)
    ensures ValueOf(InsertIbu(p, kaderId).columns, "id_kader_pendaftar") == Some(VInt(kaderId))
    ensures "id_kader_pendaftar" !in ColumnNames(UpdateIbuStatement(p, id).columns)
  {
    var names := ColumnNames(IbuColumns(p));
    assert names == ["nama_lengkap", "nik", "no_telepon", "alamat"];
    ValueOfAppended(IbuColumns(p), "id_kader_pendaftar", VInt(kaderId));
    ColumnNamesAppend(IbuColumns(p), [Column("updated_at", VNow)]);
    assert ColumnNames([Column("updated_at", VNow)]) == ["updated_at"];
  }

  /**
   * The two copies of the create route differ only on a unique violation of
   * another constraint: main.go answers 409 "NIK ini sudah terdaftar.", the
   * handlers copy 500.
   */
  lemma CreateCopiesCompared(kaderId: Option<int>, body: Option<IbuPayload>, db: DbOutcome)
    ensures db.None? || !IsPg(db.value, UniqueViolation) || db.value.constraint == NikKey ==>
      CreateIbu(Handlers, kaderId, body, db) == CreateIbu(MainRoute, kaderId, body, db)
    ensures (kaderId.Some? && body.Some? && !NikTooLong(body.value.nik)
             && db.Some? && IsPg(db.value, UniqueViolation) && db.value.constraint != NikKey) ==>
      CreateIbu(Handlers, kaderId, body, db).reply == Fail(StatusInternalServerError, "Gagal menyimpan data ibu.")
      && CreateIbu(MainRoute, kaderId, body, db).reply == Fail(StatusConflict, "NIK ini sudah terdaftar.")
  {
  }

  /** Without a kader id nothing is read or written, whatever the body. */
  lemma NoSessionNoWrite(v: Variant, body: Option<IbuPayload>, db: DbOutcome)
    ensures CreateIbu(v, None, body, db).reply.status == StatusUnauthorized
    ensures CreateIbu(v, None, body, db).effects == []
  {
  }

  const SearchPieces: seq<string> := ["nama_lengkap ILIKE ", " OR nik ILIKE ", ""]
  const ListSelect := "SELECT id, nama_lengkap, nik, no_telepon, alamat, id_kader_pendaftar, created_at, updated_at FROM ibu"
  const ListOrder := " ORDER BY nama_lengkap ASC"
  const ListMsgs := ListMessages("Gagal mengambil data ibu.", "Gagal memindai data ibu.", "Gagal memproses daftar ibu.")
  const SimpleQuery := "SELECT id, nama_lengkap FROM ibu ORDER BY nama_lengkap ASC"
  const SimpleMsgs := ListMessages("Gagal mengambil daftar ibu.", "Gagal memindai data ibu.", "Gagal memproses daftar ibu.")

  lemma SearchPiecesValid()
    ensures ValidTemplate(SearchPieces)
  {
    assert NoDollar(SearchPieces[0]) && NoDollar(SearchPieces[1]) && NoDollar(SearchPieces[2]);
    assert SearchPieces[1][0] == ' ';
  }

  /**
   * GetIbuHandler: a search term adds "nama_lengkap ILIKE $1 OR nik ILIKE $1"
   * bound to the '%'-wrapped term, then the rows are collected into a nil slice.
   */
  method GetIbuList(search: string, res: QueryResult) returns (query: string, args: seq<Arg>, reply: Reply)
    ensures query == ListSelect + Where(SearchConds(SearchPieces, search)) + ListOrder
    ensures search == "" ==> args == [] && query == ListSelect + ListOrder
    ensures search != "" ==> args == [TextArg(LikePattern(search))]
    ensures search != "" ==> Placeholders(Where(SearchConds(SearchPieces, search))) == [1, 1]
    ensures reply == ListReply(res, true, ListMsgs)
  {
    SearchPiecesValid();
    query, args := BuildSearch(ListSelect, SearchPieces, ListOrder, search);
    assert Repeat(1, 2) == [1, 1];
    reply := CollectRows(res, true, ListMsgs);
  }

  /** GetIbuSimpleHandler. */
  method GetIbuSimple(res: QueryResult) returns (query: string, reply: Reply)
    ensures query == SimpleQuery
    ensures reply == ListReply(res, true, SimpleMsgs)
  {
    query := SimpleQuery;
    reply := CollectRows(res, true, SimpleMsgs);
  }
}

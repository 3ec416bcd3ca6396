/**
 * The child ("anak") endpoints of api/handlers/anak.go: validation of the
 * payload, the INSERT and UPDATE they send, how a PostgreSQL error is turned
 * into a status by its (SQLSTATE, constraint) pair, and the list query.
 */
module AnakHandlers {
  import opened Wrappers
  import opened Text
  import opened Dates
  import opened Sql
  import opened Http
  import opened Rows
  import opened ListFilter
  import opened ById

  /** TambahAnakPayload / UpdateAnakPayload as bound by ShouldBindJSON; anak_ke and the two floats pass through untouched. */
  datatype AnakPayload = AnakPayload(idIbu: int, namaAnak: string, nikAnak: Option<string>, tanggalLahir: string, jenisKelamin: string)

  const BadId := "ID anak tidak valid"
  const BadBody := "Data tidak lengkap atau format salah."
  const BadDate := "Format Tanggal Lahir tidak valid (YYYY-MM-DD)."
  const NikTooLongMsg := "NIK Anak max 16 karakter."
  const IbuMissing := "ID Ibu tidak ditemukan."
  const ParentFk := "anak_id_ibu_fkey"
  const NikKey := "anak_nik_anak_key"

  /**
   * The checks create and update run after binding, in their order: the
   * birth date must parse, then a present NIK must be at most 16 bytes.
   */
  function ValidateAnak(p: AnakPayload): (r: Result<Date, Reply>)
    ensures r.Ok? <==> ParseDate(p.tanggalLahir).Some? && !(p.nikAnak.Some? && NikTooLong(p.nikAnak.value))
    ensures r.Ok? ==> Some(r.value) == ParseDate(p.tanggalLahir)
    ensures r.Err? && ParseDate(p.tanggalLahir).None? ==> r.error == Fail(StatusBadRequest, BadDate)
    ensures r.Err? && ParseDate(p.tanggalLahir).Some? ==> r.error == Fail(StatusBadRequest, NikTooLongMsg)
  {
    match ParseDate(p.tanggalLahir)
    case None => Err(Fail(StatusBadRequest, BadDate))
    case Some(d) =>
      if p.nikAnak.Some? && NikTooLong(p.nikAnak.value) then Err(Fail(StatusBadRequest, NikTooLongMsg)) else Ok(d)
  }

  /** The eight columns written by both the INSERT and the UPDATE. */
  function AnakColumns(p: AnakPayload, lahir: Date): seq<Column> {
    [Column("id_ibu", VInt(p.idIbu)), Column("nama_anak", VText(p.namaAnak)),
     Column("nik_anak", VOptText(p.nikAnak)), Column("tanggal_lahir", VDate(lahir)),
     Column("jenis_kelamin", VText(p.jenisKelamin)), Column("anak_ke", VField("anak_ke")),
     Column("berat_lahir_kg", VField("berat_lahir_kg")), Column("tinggi_lahir_cm", VField("tinggi_lahir_cm"))]
  }

  /** A failed INSERT or UPDATE: the parent FK gives 404, the NIK key gives 409, anything else 500. */
  function WriteError(v: Variant, e: DbError, duplicate: string, failure: string): (r: Reply)
    ensures r.status == StatusNotFound <==> OnConstraint(v, e, ForeignKeyViolation, ParentFk)
    ensures r.status == StatusConflict <==> OnConstraint(v, e, UniqueViolation, NikKey)
    ensures r.status == StatusNotFound || r.status == StatusConflict || r.status == StatusInternalServerError
    ensures r.status == StatusConflict ==> r == Fail(StatusConflict, duplicate)
    ensures r.status == StatusInternalServerError ==> r == Fail(StatusInternalServerError, failure)
  {
    if OnConstraint(v, e, ForeignKeyViolation, ParentFk) then Fail(StatusNotFound, IbuMissing)
    else if OnConstraint(v, e, UniqueViolation, NikKey) then Fail(StatusConflict, duplicate)
    else Fail(StatusInternalServerError, failure)
  }

  /** TambahAnakHandler. `body` is the outcome of ShouldBindJSON and `db` the outcome of the INSERT, if it is sent. */
  function CreateAnak(v: Variant, body: Option<AnakPayload>, db: DbOutcome): (run: Run)
    ensures run.reply.status == StatusBadRequest <==> body.None? || ValidateAnak(body.value).Err?
    ensures run.reply.status == StatusBadRequest ==> run.effects == []
    ensures run.reply.status != StatusBadRequest ==>
      run.effects == [Exec(Insert("anak", AnakColumns(body.value, ValidateAnak(body.value).value)))]
    ensures run.reply.status == StatusCreated <==> run.effects != [] && db.None?
    ensures run.reply.status == StatusNotFound <==> run.effects != [] && db.Some? && OnConstraint(v, db.value, ForeignKeyViolation, ParentFk)
    ensures run.reply.status == StatusConflict <==> run.effects != [] && db.Some? && OnConstraint(v, db.value, UniqueViolation, NikKey)
  {
    if body.None? then Run(Fail(StatusBadRequest, BadBody), [])
    else match ValidateAnak(body.value)
      case Err(reply) => Run(reply, [])
      case Ok(lahir) =>
        var effects := [Exec(Insert("anak", AnakColumns(body.value, lahir)))];
        match db
        case None => Run(Done(StatusCreated, "Data anak berhasil didaftarkan!"), effects)
        case Some(e) => Run(WriteError(v, e, "NIK anak ini sudah terdaftar.", "Gagal menyimpan data anak."), effects)
  }

  /** UpdateAnakHandler: the id is checked before the body, then the same checks as create. */
  function UpdateAnak(v: Variant, idParam: string, body: Option<AnakPayload>, db: DbOutcome): (run: Run)
    ensures Atoi(idParam).None? ==> run == Run(Fail(StatusBadRequest, BadId), [])
    ensures run.reply.status == StatusBadRequest <==> Atoi(idParam).None? || body.None? || ValidateAnak(body.value).Err?
    ensures run.reply.status == StatusBadRequest ==> run.effects == []
    ensures run.reply.status != StatusBadRequest ==>
      run.effects == [Exec(UpdateById("anak", AnakColumns(body.value, ValidateAnak(body.value).value) + [Column("updated_at", VNow)], Atoi(idParam).value))]
    ensures run.reply.status == StatusOK <==> run.effects != [] && db.None?
    ensures run.reply.status == StatusNotFound <==> run.effects != [] && db.Some? && OnConstraint(v, db.value, ForeignKeyViolation, ParentFk)
    ensures run.reply.status == StatusConflict <==> run.effects != [] && db.Some? && OnConstraint(v, db.value, UniqueViolation, NikKey)
  {
    match Atoi(idParam)
    case None => Run(Fail(StatusBadRequest, BadId), [])
    case Some(id) =>
      if body.None? then Run(Fail(StatusBadRequest, BadBody), [])
      else match ValidateAnak(body.value)
        case Err(reply) => Run(reply, [])
        case Ok(lahir) =>
          var effects := [Exec(UpdateById("anak", AnakColumns(body.value, lahir) + [Column("updated_at", VNow)], id))];
          match db
          case None => Run(Done(StatusOK, "Data anak berhasil diperbarui!"), effects)
          case Some(e) => Run(WriteError(v, e, "NIK anak ini sudah digunakan anak lain.", "Gagal memperbarui data anak."), effects)
  }

  /** The child FKs that keep a child from being deleted. */
  predicate ChildInUse(v: Variant, e: DbError) {
    if v == Handlers then
      IsPgOn(e, ForeignKeyViolation, "perkembangan_id_anak_fkey") || IsPgOn(e, ForeignKeyViolation, "riwayat_imunisasi_id_anak_fkey")
    else IsPg(e, ForeignKeyViolation)
  }

  /** DeleteAnakHandler. */
  function DeleteAnak(v: Variant, idParam: string, db: DbOutcome): (run: Run)
    ensures Atoi(idParam).None? <==> run == Run(Fail(StatusBadRequest, BadId), [])
    ensures Atoi(idParam).Some? ==> run.effects == [Exec(DeleteById("anak", Atoi(idParam).value))]
    ensures run.reply.status == StatusConflict <==> Atoi(idParam).Some? && db.Some? && ChildInUse(v, db.value)
    ensures run.reply.status == StatusInternalServerError <==> Atoi(idParam).Some? && db.Some? && !ChildInUse(v, db.value)
    ensures run.reply.status == StatusOK <==> Atoi(idParam).Some? && db.None?
  {
    match Atoi(idParam)
    case None => Run(Fail(StatusBadRequest, BadId), [])
    case Some(id) =>
      var effects := [Exec(DeleteById("anak", id))];
      if db.None? then Run(Done(StatusOK, "Data anak berhasil dihapus!"), effects)
      else if ChildInUse(v, db.value) then
        Run(Fail(StatusConflict, "Anak tidak bisa dihapus karena masih terhubung dengan data perkembangan/imunisasi."), effects)
      else Run(Fail(StatusInternalServerError, "Gagal menghapus data anak."), effects)
  }

  /** GetAnakByIdHandler and the GET /anak/:id route of main.go, both ById.GetRecord on the anak table. */
  const GetMsgs := ByIdMessages(BadId, "Data anak tidak ditemukan.", "Gagal mengambil data anak.")

  /**
   * The two copies of the create route differ only on a violation of another
   * constraint with SQLSTATE 23503 or 23505, which main.go answers with 404
   * or 409 and the handlers copy with 500.
   */
  lemma CreateCopiesCompared(body: Option<AnakPayload>, db: DbOutcome)
    ensures (db.None? || !db.value.PgError?
             || (db.value.code == ForeignKeyViolation && db.value.constraint == ParentFk)
             || (db.value.code == UniqueViolation && db.value.constraint == NikKey)
             || (db.value.code != ForeignKeyViolation && db.value.code != UniqueViolation)) ==>
      CreateAnak(Handlers, body, db) == CreateAnak(MainRoute, body, db)
    ensures body.Some? && ValidateAnak(body.value).Ok? && db.Some? && IsPg(db.value, ForeignKeyViolation) ==>
      CreateAnak(MainRoute, body, db).reply == Fail(StatusNotFound, IbuMissing)
      && (CreateAnak(Handlers, body, db).reply.status == StatusNotFound <==> db.value.constraint == ParentFk)
    ensures body.Some? && ValidateAnak(body.value).Ok? && db.Some? && IsPg(db.value, UniqueViolation) ==>
      CreateAnak(MainRoute, body, db).reply == Fail(StatusConflict, "NIK anak ini sudah terdaftar.")
      && (CreateAnak(Handlers, body, db).reply.status == StatusConflict <==> db.value.constraint == NikKey)
  {
  }

  /** Validation order: a payload with both a bad date and a long NIK is refused for its date. */
  lemma DateCheckedBeforeNik(v: Variant, p: AnakPayload, db: DbOutcome)
    requires ParseDate(p.tanggalLahir).None?
    ensures CreateAnak(v, Some(p), db) == Run(Fail(StatusBadRequest, BadDate), [])
  {
  }

  /** An absent nik_anak never trips the length rule; a present one over 16 bytes always does. */
  lemma NikRule(v: Variant, p: AnakPayload, db: DbOutcome)
    requires ParseDate(p.tanggalLahir).Some?
    ensures p.nikAnak.None? ==> CreateAnak(v, Some(p), db).reply.status != StatusBadRequest
    ensures p.nikAnak.Some? && NikTooLong(p.nikAnak.value) ==>
      CreateAnak(v, Some(p), db) == Run(Fail(StatusBadRequest, NikTooLongMsg), [])
  {
  }

  /**
   * Text pieces around the single search placeholder: GetAnakHandler matches
   * four columns, the GET /anak route of main.go the first three.
   */
  function SearchPieces(v: Variant): seq<string> {
    if v == Handlers then ["a.nama_anak ILIKE ", " OR a.nik_anak ILIKE ", " OR i.nama_lengkap ILIKE ", " OR i.nik ILIKE ", ""]
    else ["a.nama_anak ILIKE ", " OR a.nik_anak ILIKE ", " OR i.nama_lengkap ILIKE ", ""]
  }

  const ListSelect := "SELECT a.id, a.id_ibu, a.nama_anak, a.nik_anak, a.tanggal_lahir, a.jenis_kelamin, a.anak_ke, a.berat_lahir_kg, a.tinggi_lahir_cm, a.created_at, a.updated_at, i.nama_lengkap AS nama_ibu FROM anak a LEFT JOIN ibu i ON a.id_ibu = i.id"

  const ListOrder := " ORDER BY a.nama_anak ASC"

  lemma SearchPiecesValid(v: Variant)
    ensures ValidTemplate(SearchPieces(v))
  {
    var ps := SearchPieces(v);
    assert NoDollar(ps[0]) && NoDollar(ps[1]) && NoDollar(ps[2]) && NoDollar(ps[3]);
    assert ps[1][0] == ' ' && ps[2][0] == ' ';
    if v == Handlers {
      assert NoDollar(ps[4]) && ps[3][0] == ' ';
    }
  }

  const ListMsgs := ListMessages("Gagal mengambil data anak.", "Gagal memindai data anak.", "Gagal memproses daftar anak.")

  const SimpleMsgs := ListMessages("Gagal mengambil daftar anak.", "Gagal memindai data anak.", "Gagal memproses daftar anak.")

  /**
   * GetAnakHandler and the GET /anak route of main.go: a search term adds one
   * condition matching four columns (three in main.go) through $1, bound to
   * the '%'-wrapped term; the result is always ordered by child name; rows
   * are collected into a nil slice, so an empty result is written as JSON null.
   */
  method GetAnakList(v: Variant, search: string, res: QueryResult) returns (query: string, args: seq<Arg>, reply: Reply)
    ensures query == ListSelect + Where(SearchConds(SearchPieces(v), search)) + ListOrder
    ensures search == "" ==> args == [] && query == ListSelect + ListOrder
    ensures search != "" ==> args == [TextArg(LikePattern(search))]
    ensures search != "" && v == Handlers ==> Placeholders(Where(SearchConds(SearchPieces(v), search))) == [1, 1, 1, 1]
    ensures search != "" && v == MainRoute ==> Placeholders(Where(SearchConds(SearchPieces(v), search))) == [1, 1, 1]
    ensures reply == ListReply(res, true, ListMsgs)
    ensures res == Delivered([], false) ==> reply == Reply(StatusOK, ListJson(0, true))
  {
    SearchPiecesValid(v);
    query, args := BuildSearch(ListSelect, SearchPieces(v), ListOrder, search);
    assert Repeat(1, 4) == [1, 1, 1, 1];
    assert Repeat(1, 3) == [1, 1, 1];
    reply := CollectRows(res, true, ListMsgs);
  }

  /** GetAnakSimpleHandler: a fixed query, rows collected into a nil slice. */
  method GetAnakSimple(res: QueryResult) returns (query: string, reply: Reply)
    ensures query == "SELECT id, nama_anak, nik_anak FROM anak ORDER BY nama_anak ASC"
    ensures reply == ListReply(res, true, SimpleMsgs)
  {
    query := "SELECT id, nama_anak, nik_anak FROM anak ORDER BY nama_anak ASC";
    reply := CollectRows(res, true, SimpleMsgs);
  }
}

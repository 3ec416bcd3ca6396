/**
 * The immunisation endpoints of api/handlers/imunisasi.go: the master list of
 * vaccines (age check, the one unique constraint that gives 409, the
 * delegation of the simple route, lists written as [] when empty) and the
 * records of vaccines given (session check, the two FK constraints that give
 * 404, who is recorded as writer and updater, the filtered list).
 */
module ImunisasiHandlers {
  import opened Wrappers
  import opened Dates
  import opened Sql
  import opened Http
  import opened Rows
  import opened ListFilter
  import opened ById

  // ---------------------------------------------------------------- master

  /** TambahMasterImunisasiPayload / UpdateMasterImunisasiPayload; deskripsi passes through untouched. */
  datatype MasterPayload = MasterPayload(namaImunisasi: string, usiaIdealBulan: int)

  const BadId := "ID tidak valid"
  const NegativeAge := "Usia Ideal tidak boleh negatif."
  const NameKey := "master_imunisasi_nama_imunisasi_key"
  const RiwayatMasterFk := "riwayat_imunisasi_id_master_imunisasi_fkey"
  const RiwayatAnakFk := "riwayat_imunisasi_id_anak_fkey"

  function MasterColumns(p: MasterPayload): seq<Column> {
    [Column("nama_imunisasi", VText(p.namaImunisasi)), Column("usia_ideal_bulan", VInt(p.usiaIdealBulan)),
     Column("deskripsi", VField("deskripsi"))]
  }

  /** A failed master write: 409 only for the unique name constraint, 500 otherwise. */
  function MasterWriteError(v: Variant, e: DbError, duplicate: string, failure: string): (r: Reply)
    ensures r.status == StatusConflict <==> OnConstraint(v, e, UniqueViolation, NameKey)
    ensures r.status == StatusConflict ==> r == Fail(StatusConflict, duplicate)
    ensures r.status != StatusConflict ==> r == Fail(StatusInternalServerError, failure)
  {
    if OnConstraint(v, e, UniqueViolation, NameKey) then Fail(StatusConflict, duplicate)
    else Fail(StatusInternalServerError, failure)
  }

  /** TambahMasterImunisasiHandler. */
  function CreateMaster(v: Variant, body: Option<MasterPayload>, db: DbOutcome): (run: Run)
    ensures run.reply.status == StatusBadRequest <==> body.None? || body.value.usiaIdealBulan < 0
    ensures body.Some? && body.value.usiaIdealBulan < 0 ==> run == Run(Fail(StatusBadRequest, NegativeAge), [])
    ensures run.effects != [] <==> run.reply.status != StatusBadRequest
    ensures run.effects != [] ==> run.effects == [Exec(Insert("master_imunisasi", MasterColumns(body.value)))]
    ensures run.reply.status == StatusCreated <==> run.effects != [] && db.None?
    ensures run.reply.status == StatusConflict <==> run.effects != [] && db.Some? && OnConstraint(v, db.value, UniqueViolation, NameKey)
    ensures run.reply.status == StatusInternalServerError <==>
      run.effects != [] && db.Some? && !OnConstraint(v, db.value, UniqueViolation, NameKey)
  {
    if body.None? then Run(Fail(StatusBadRequest, "Nama Imunisasi dan Usia Ideal wajib diisi."), [])
    else if body.value.usiaIdealBulan < 0 then Run(Fail(StatusBadRequest, NegativeAge), [])
    else
      var effects := [Exec(Insert("master_imunisasi", MasterColumns(body.value)))];
      match db
      case None => Run(Done(StatusCreated, "Master imunisasi berhasil ditambahkan!"), effects)
      case Some(e) => Run(MasterWriteError(v, e, "Nama imunisasi ini sudah ada.", "Gagal menyimpan."), effects)
  }

  /** UpdateMasterImunisasiHandler. */
  function UpdateMaster(v: Variant, idParam: string, body: Option<MasterPayload>, db: DbOutcome): (run: Run)
    ensures Atoi(idParam).None? ==> run == Run(Fail(StatusBadRequest, BadId), [])
    ensures run.reply.status == StatusBadRequest <==> Atoi(idParam).None? || body.None? || body.value.usiaIdealBulan < 0
    ensures Atoi(idParam).Some? && body.Some? && body.value.usiaIdealBulan < 0 ==>
      run == Run(Fail(StatusBadRequest, NegativeAge), [])
    ensures run.effects != [] <==> run.reply.status != StatusBadRequest
    ensures run.effects != [] ==>
      run.effects == [Exec(UpdateById("master_imunisasi", MasterColumns(body.value) + [Column("updated_at", VNow)], Atoi(idParam).value))]
    ensures run.reply.status == StatusOK <==> run.effects != [] && db.None?
    ensures run.reply.status == StatusConflict <==> run.effects != [] && db.Some? && OnConstraint(v, db.value, UniqueViolation, NameKey)
    ensures run.reply.status == StatusInternalServerError <==>
      run.effects != [] && db.Some? && !OnConstraint(v, db.value, UniqueViolation, NameKey)
  {
    match Atoi(idParam)
    case None => Run(Fail(StatusBadRequest, BadId), [])
    case Some(id) =>
      if body.None? then Run(Fail(StatusBadRequest, "Data tidak lengkap."), [])
      else if body.value.usiaIdealBulan < 0 then Run(Fail(StatusBadRequest, NegativeAge), [])
      else
        var effects := [Exec(UpdateById("master_imunisasi", MasterColumns(body.value) + [Column("updated_at", VNow)], id))];
        match db
        case None => Run(Done(StatusOK, "Master imunisasi berhasil diperbarui!"), effects)
        case Some(e) => Run(MasterWriteError(v, e, "Nama imunisasi ini sudah digunakan.", "Gagal memperbarui."), effects)
  }

  /**
   * GetMasterImunisasiByIdHandler and GetRiwayatImunisasiByIdHandler, and the
   * GET /master-imunisasi/:id route of main.go: ById.GetRecord on their tables.
   */
  const GetMsgs := ByIdMessages(BadId, "Data tidak ditemukan.", "Gagal mengambil data.")

  /** DeleteMasterImunisasiHandler: only the riwayat FK to this vaccine gives 409 (any FK violation in main.go). */
  function DeleteMaster(v: Variant, idParam: string, db: DbOutcome): (run: Run)
    ensures Atoi(idParam).None? <==> run == Run(Fail(StatusBadRequest, BadId), [])
    ensures Atoi(idParam).Some? ==> run.effects == [Exec(DeleteById("master_imunisasi", Atoi(idParam).value))]
    ensures run.reply.status == StatusOK <==> Atoi(idParam).Some? && db.None?
    ensures run.reply.status == StatusConflict <==> Atoi(idParam).Some? && db.Some? && OnConstraint(v, db.value, ForeignKeyViolation, RiwayatMasterFk)
    ensures run.reply.status == StatusInternalServerError <==>
      Atoi(idParam).Some? && db.Some? && !OnConstraint(v, db.value, ForeignKeyViolation, RiwayatMasterFk)
  {
    match Atoi(idParam)
    case None => Run(Fail(StatusBadRequest, BadId), [])
    case Some(id) =>
      var effects := [Exec(DeleteById("master_imunisasi", id))];
      if db.None? then Run(Done(StatusOK, "Master imunisasi berhasil dihapus!"), effects)
      else if OnConstraint(v, db.value, ForeignKeyViolation, RiwayatMasterFk) then
        Run(Fail(StatusConflict, "Master imunisasi tidak bisa dihapus karena terhubung dengan riwayat."), effects)
      else Run(Fail(StatusInternalServerError, "Gagal menghapus."), effects)
  }

  /** The copies of the create route differ only on a unique violation of another constraint: 409 in main.go, 500 here. */
  lemma MasterCopiesCompared(body: Option<MasterPayload>, db: DbOutcome)
    ensures db.None? || !IsPg(db.value, UniqueViolation) || db.value.constraint == NameKey ==>
      CreateMaster(Handlers, body, db) == CreateMaster(MainRoute, body, db)
    ensures body.Some? && body.value.usiaIdealBulan >= 0 && db.Some? && IsPg(db.value, UniqueViolation) && db.value.constraint != NameKey ==>
      CreateMaster(Handlers, body, db).reply == Fail(StatusInternalServerError, "Gagal menyimpan.")
      && CreateMaster(MainRoute, body, db).reply == Fail(StatusConflict, "Nama imunisasi ini sudah ada.")
  {
  }

  /** An age of zero months is accepted; -1 is refused before the database is touched. */
  lemma AgeBoundary(v: Variant, nama: string, db: DbOutcome)
    ensures CreateMaster(v, Some(MasterPayload(nama, -1)), db) == Run(Fail(StatusBadRequest, NegativeAge), [])
    ensures CreateMaster(v, Some(MasterPayload(nama, 0)), db).effects != []
  {
  }

  const SimplePath := "/api/master-imunisasi/simple"
  const MasterSearchPieces: seq<string> := ["nama_imunisasi ILIKE ", " OR deskripsi ILIKE ", ""]
  const MasterSelect := "SELECT id, nama_imunisasi, usia_ideal_bulan, deskripsi, created_at, updated_at FROM master_imunisasi"
  const MasterOrder := " ORDER BY usia_ideal_bulan ASC, nama_imunisasi ASC"
  const SimpleQuery := "SELECT id, nama_imunisasi, usia_ideal_bulan FROM master_imunisasi ORDER BY usia_ideal_bulan ASC, nama_imunisasi ASC"
  const MasterMsgs := ListMessages("Gagal mengambil data.", "Gagal memindai data.", "Gagal memproses daftar.")

  lemma MasterPiecesValid()
    ensures ValidTemplate(MasterSearchPieces)
  {
    assert NoDollar(MasterSearchPieces[0]) && NoDollar(MasterSearchPieces[1]) && NoDollar(MasterSearchPieces[2]);
    assert MasterSearchPieces[1][0] == ' ';
  }

  /** GetMasterImunisasiSimpleHandler: a fixed query, rows collected into make([]T, 0). */
  method GetMasterSimple(res: QueryResult) returns (query: string, reply: Reply)
    ensures query == SimpleQuery
    ensures reply == ListReply(res, false, MasterMsgs)
  {
    query := SimpleQuery;
    reply := CollectRows(res, false, MasterMsgs);
  }

  /**
   * GetMasterImunisasiHandler: the simple path is handed to the simple handler
   * and the search term is then ignored; otherwise a term is matched through
   * $1 against the name and the description. The GET /master-imunisasi route
   * of main.go has no such delegation and always searches. An empty list is
   * written as [].
   */
  method GetMasterList(v: Variant, path: string, search: string, res: QueryResult) returns (query: string, args: seq<Arg>, reply: Reply)
    ensures v == Handlers && path == SimplePath ==> query == SimpleQuery && args == []
    ensures v == MainRoute || path != SimplePath ==>
      query == MasterSelect + Where(SearchConds(MasterSearchPieces, search)) + MasterOrder
      && args == Args(SearchConds(MasterSearchPieces, search))
    ensures (v == MainRoute || path != SimplePath) && search != "" ==>
      Placeholders(Where(SearchConds(MasterSearchPieces, search))) == [1, 1]
    ensures reply == ListReply(res, false, MasterMsgs)
    ensures reply.status == StatusOK ==> !reply.body.isNull
  {
    if v == Handlers && path == SimplePath {
      query, reply := GetMasterSimple(res);
      args := [];
      return;
    }
    MasterPiecesValid();
    query, args := BuildSearch(MasterSelect, MasterSearchPieces, MasterOrder, search);
    assert Repeat(1, 2) == [1, 1];
    reply := CollectRows(res, false, MasterMsgs);
  }

  // ---------------------------------------------------------------- riwayat

  /** TambahRiwayatPayload / UpdateRiwayatPayload; catatan passes through untouched. */
  datatype RiwayatPayload = RiwayatPayload(idAnak: int, idMasterImunisasi: int, tanggalDiberikan: string)

  const BadDate := "Format tanggal salah (YYYY-MM-DD)."

  function RiwayatColumns(p: RiwayatPayload, tanggal: Date): seq<Column> {
    [Column("id_anak", VInt(p.idAnak)), Column("id_master_imunisasi", VInt(p.idMasterImunisasi)),
     Column("tanggal_imunisasi", VDate(tanggal)), Column("catatan", VField("catatan"))]
  }

  function InsertRiwayat(p: RiwayatPayload, tanggal: Date, kaderId: int): Statement {
    Insert("riwayat_imunisasi", RiwayatColumns(p, tanggal) + [Column("id_kader_pencatat", VInt(kaderId))])
  }

  function UpdateRiwayatStatement(p: RiwayatPayload, tanggal: Date, kaderId: int, id: int): Statement {
    UpdateById("riwayat_imunisasi", RiwayatColumns(p, tanggal) + [Column("id_kader_updater", VInt(kaderId))] + [Column("updated_at", VNow)], id)
  }

  /**
   * A failed riwayat write: of the FK violations, the child's and the
   * vaccine's give 404 with their own messages and any other gives 500 with
   * `relation`; every other error gives 500 with `failure`.
   */
  function RiwayatWriteError(e: DbError, relation: string, failure: string): (r: Reply)
    ensures r.status == StatusNotFound <==> IsPgOn(e, ForeignKeyViolation, RiwayatAnakFk) || IsPgOn(e, ForeignKeyViolation, RiwayatMasterFk)
    ensures IsPgOn(e, ForeignKeyViolation, RiwayatAnakFk) ==> r == Fail(StatusNotFound, "ID Anak tidak ditemukan.")
    ensures IsPgOn(e, ForeignKeyViolation, RiwayatMasterFk) ==> r == Fail(StatusNotFound, "ID Master Imunisasi tidak ditemukan.")
    ensures r.status != StatusNotFound ==>
      r == Fail(StatusInternalServerError, if IsPg(e, ForeignKeyViolation) then relation else failure)
  {
    if IsPg(e, ForeignKeyViolation) then
      if e.constraint == RiwayatAnakFk then Fail(StatusNotFound, "ID Anak tidak ditemukan.")
      else if e.constraint == RiwayatMasterFk then Fail(StatusNotFound, "ID Master Imunisasi tidak ditemukan.")
      else Fail(StatusInternalServerError, relation)
    else Fail(StatusInternalServerError, failure)
  }

  /** TambahRiwayatImunisasiHandler. */
  function CreateRiwayat(kaderId: Option<int>, body: Option<RiwayatPayload>, db: DbOutcome): (run: Run)
    ensures kaderId.None? <==> run == Run(Fail(StatusUnauthorized, "Sesi tidak valid."), [])
    ensures run.reply.status == StatusBadRequest <==>
      kaderId.Some? && (body.None? || ParseDate(body.value.tanggalDiberikan).None?)
    ensures run.effects != [] <==> kaderId.Some? && body.Some? && ParseDate(body.value.tanggalDiberikan).Some?
    ensures run.effects != [] ==>
      run.effects == [Exec(InsertRiwayat(body.value, ParseDate(body.value.tanggalDiberikan).value, kaderId.value))]
    ensures run.reply.status == StatusCreated <==> run.effects != [] && db.None?
    ensures run.effects != [] && db.Some? ==>
      run.reply == RiwayatWriteError(db.value, "Gagal menyimpan: Relasi data tidak valid.", "Gagal menyimpan.")
  {
    if kaderId.None? then Run(Fail(StatusUnauthorized, "Sesi tidak valid."), [])
    else if body.None? then Run(Fail(StatusBadRequest, "Data tidak lengkap."), [])
    else match ParseDate(body.value.tanggalDiberikan)
      case None => Run(Fail(StatusBadRequest, BadDate), [])
      case Some(tanggal) =>
        var effects := [Exec(InsertRiwayat(body.value, tanggal, kaderId.value))];
        match db
        case None => Run(Done(StatusCreated, "Riwayat imunisasi berhasil dicatat!"), effects)
        case Some(e) => Run(RiwayatWriteError(e, "Gagal menyimpan: Relasi data tidak valid.", "Gagal menyimpan."), effects)
  }

  /** UpdateRiwayatImunisasiHandler: the session is checked before the id, then the body and the date. */
  function UpdateRiwayat(kaderId: Option<int>, idParam: string, body: Option<RiwayatPayload>, db: DbOutcome): (run: Run)
    ensures kaderId.None? <==> run == Run(Fail(StatusUnauthorized, "Sesi tidak valid."), [])
    ensures kaderId.Some? && Atoi(idParam).None? ==> run == Run(Fail(StatusBadRequest, BadId), [])
    ensures run.reply.status == StatusBadRequest <==>
      kaderId.Some? && (Atoi(idParam).None? || body.None? || ParseDate(body.value.tanggalDiberikan).None?)
    ensures run.effects != [] <==>
      kaderId.Some? && Atoi(idParam).Some? && body.Some? && ParseDate(body.value.tanggalDiberikan).Some?
    ensures run.effects != [] ==>
      run.effects == [Exec(UpdateRiwayatStatement(body.value, ParseDate(body.value.tanggalDiberikan).value, kaderId.value, Atoi(idParam).value))]
    ensures run.reply.status == StatusOK <==> run.effects != [] && db.None?
    ensures run.effects != [] && db.Some? ==>
      run.reply == RiwayatWriteError(db.value, "Gagal update: Relasi data tidak valid.", "Gagal update.")
  {
    if kaderId.None? then Run(Fail(StatusUnauthorized, "Sesi tidak valid."), [])
    else match Atoi(idParam)
      case None => Run(Fail(StatusBadRequest, BadId), [])
      case Some(id) =>
        if body.None? then Run(Fail(StatusBadRequest, "Data tidak lengkap."), [])
        else match ParseDate(body.value.tanggalDiberikan)
          case None => Run(Fail(StatusBadRequest, BadDate), [])
          case Some(tanggal) =>
            var effects := [Exec(UpdateRiwayatStatement(body.value, tanggal, kaderId.value, id))];
            match db
            case None => Run(Done(StatusOK, "Riwayat imunisasi berhasil diperbarui!"), effects)
            case Some(e) => Run(RiwayatWriteError(e, "Gagal update: Relasi data tidak valid.", "Gagal update."), effects)
  }

  /** DeleteRiwayatImunisasiHandler: ById.DeleteRecord on the riwayat_imunisasi table. */
  const RiwayatDeleted := "Riwayat imunisasi berhasil dihapus!"
  const RiwayatDeleteFailed := "Gagal menghapus."

  /** The creator of a record is stored as id_kader_pencatat. */
  lemma PencatatRecorded(p: RiwayatPayload, tanggal: Date, kaderId: int)
    ensures ValueOf(InsertRiwayat(p, tanggal, kaderId).columns, "id_kader_pencatat") == Some(VInt(kaderId))
  {
    assert ColumnNames(RiwayatColumns(p, tanggal)) == ["id_anak", "id_master_imunisasi", "tanggal_imunisasi", "catatan"];
    ValueOfAppended(RiwayatColumns(p, tanggal), "id_kader_pencatat", VInt(kaderId));
  }

  /** An update stores its caller as id_kader_updater. */
  lemma UpdaterRecorded(p: RiwayatPayload, tanggal: Date, updater: int, id: int)
    ensures ValueOf(UpdateRiwayatStatement(p, tanggal, updater, id).columns, "id_kader_updater") == Some(VInt(updater))
  {
    var cs := RiwayatColumns(p, tanggal);
    var withUpdater := cs + [Column("id_kader_updater", VInt(updater))];
    assert ColumnNames(cs) == ["id_anak", "id_master_imunisasi", "tanggal_imunisasi", "catatan"];
    ValueOfAppended(cs, "id_kader_updater", VInt(updater));
    assert Column("id_kader_updater", VInt(updater)) in withUpdater;
    assert "id_kader_updater" in ColumnNames(withUpdater);
    ValueOfPrefix(withUpdater, [Column("updated_at", VNow)], "id_kader_updater");
  }

  /** An update never rewrites id_kader_pencatat. */
  lemma PencatatUntouched(p: RiwayatPayload, tanggal: Date, updater: int, id: int)
    ensures "id_kader_pencatat" !in ColumnNames(UpdateRiwayatStatement(p, tanggal, updater, id).columns)
  {
    var cs := RiwayatColumns(p, tanggal);
    var withUpdater := cs + [Column("id_kader_updater", VInt(updater))];
    assert ColumnNames(cs) == ["id_anak", "id_master_imunisasi", "tanggal_imunisasi", "catatan"];
    ColumnNamesAppend(cs, [Column("id_kader_updater", VInt(updater))]);
    assert "id_kader_pencatat" !in ColumnNames(withUpdater);
    ColumnNamesAppend(withUpdater, [Column("updated_at", VNow)]);
  }

  /** A riwayat FK violation on another constraint is not a 404. */
  lemma OtherRelationIs500(e: DbError)
    requires IsPg(e, ForeignKeyViolation) && e.constraint != RiwayatAnakFk && e.constraint != RiwayatMasterFk
    ensures RiwayatWriteError(e, "Gagal menyimpan: Relasi data tidak valid.", "Gagal menyimpan.")
      == Fail(StatusInternalServerError, "Gagal menyimpan: Relasi data tidak valid.")
  {
  }

  const RiwayatSearchPieces: seq<string> := ["(a.nama_anak ILIKE ", " OR a.nik_anak ILIKE ", " OR m.nama_imunisasi ILIKE ", ")"]
  const RiwayatIdPieces: seq<string> := ["r.id_anak = ", ""]
  const RiwayatSelect := "SELECT r.id, r.id_anak, r.id_master_imunisasi, r.id_kader_pencatat, r.id_kader_updater, r.tanggal_imunisasi, r.catatan, r.created_at, r.updated_at, a.nama_anak, a.nik_anak, m.nama_imunisasi, kp.nama_lengkap AS nama_kader, ku.nama_lengkap AS nama_kader_updater FROM riwayat_imunisasi r JOIN anak a ON r.id_anak = a.id JOIN master_imunisasi m ON r.id_master_imunisasi = m.id LEFT JOIN kader kp ON r.id_kader_pencatat = kp.id LEFT JOIN kader ku ON r.id_kader_updater = ku.id"
  const RiwayatOrder := " ORDER BY r.tanggal_imunisasi DESC, a.nama_anak ASC"
  const RiwayatMsgs := ListMessages("Gagal mengambil data.", "Gagal memindai data.", "Gagal memproses daftar.")

  lemma RiwayatTemplatesValid()
    ensures ValidTemplate(RiwayatSearchPieces) && ValidTemplate(RiwayatIdPieces)
  {
    assert NoDollar(RiwayatSearchPieces[0]) && NoDollar(RiwayatSearchPieces[1]);
    assert NoDollar(RiwayatSearchPieces[2]) && NoDollar(RiwayatSearchPieces[3]);
    assert RiwayatSearchPieces[1][0] == ' ' && RiwayatSearchPieces[2][0] == ' ' && RiwayatSearchPieces[3][0] == ')';
    assert NoDollar(RiwayatIdPieces[0]) && NoDollar(RiwayatIdPieces[1]);
  }

  /** The search uses $1 three times; the id_anak filter takes $2 after a search and $1 without one. */
  lemma RiwayatPlaceholders(search: string, idParam: string)
    ensures Placeholders(Where(FilterConds(RiwayatSearchPieces, RiwayatIdPieces, search, idParam))) ==
      (if search != "" then [1, 1, 1] else []) + (if IdFilter(idParam).Some? then [if search != "" then 2 else 1] else [])
  {
    RiwayatTemplatesValid();
    FilterPlaceholders(RiwayatSearchPieces, RiwayatIdPieces, search, idParam);
    assert Repeat(1, 3) == [1, 1, 1];
  }

  /** GetRiwayatImunisasiHandler: search, then id_anak, numbered by argCounter; rows into a nil slice. */
  method GetRiwayatList(search: string, idParam: string, res: QueryResult) returns (query: string, args: seq<Arg>, reply: Reply)
    ensures query == RiwayatSelect + Where(FilterConds(RiwayatSearchPieces, RiwayatIdPieces, search, idParam)) + RiwayatOrder
    ensures args == Args(FilterConds(RiwayatSearchPieces, RiwayatIdPieces, search, idParam))
    ensures Placeholders(Where(FilterConds(RiwayatSearchPieces, RiwayatIdPieces, search, idParam))) ==
      (if search != "" then [1, 1, 1] else []) + (if IdFilter(idParam).Some? then [if search != "" then 2 else 1] else [])
    ensures reply == ListReply(res, true, RiwayatMsgs)
  {
    RiwayatTemplatesValid();
    query, args := BuildFiltered(RiwayatSelect, RiwayatSearchPieces, RiwayatIdPieces, RiwayatOrder, search, idParam);
    RiwayatPlaceholders(search, idParam);
    reply := CollectRows(res, true, RiwayatMsgs);
  }
}

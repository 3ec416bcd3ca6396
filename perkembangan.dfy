/**
 * The growth-record ("perkembangan") endpoints of api/handlers/perkembangan.go:
 * the session and date checks of create and update, the statements they send,
 * the mapping of the child FK violation to 404, and the filtered list query.
 */
module PerkembanganHandlers {
  import opened Wrappers
  import opened Dates
  import opened Sql
  import opened Http
  import opened Rows
  import opened ListFilter
  import opened ById

  /**
   * TambahPerkembanganPayload / UpdatePerkembanganPayload as bound by
   * ShouldBindJSON; the four measurements, status_gizi and saran pass through untouched.
   */
  datatype PerkembanganPayload = PerkembanganPayload(idAnak: int, tanggalPemeriksaan: string)

  const BadId := "ID tidak valid"
  const BadDate := "Format tanggal salah (YYYY-MM-DD)."
  const ChildFk := "perkembangan_id_anak_fkey"
  const ChildMissing := "ID Anak tidak ditemukan."

  /** The eight columns both the INSERT and the UPDATE write, in their order. */
  function RecordColumns(p: PerkembanganPayload, tanggal: Date): seq<Column> {
    [Column("id_anak", VInt(p.idAnak)), Column("tanggal_pemeriksaan", VDate(tanggal)),
     Column("bb_kg", VField("bb_kg")), Column("tb_cm", VField("tb_cm")),
     Column("lk_cm", VField("lk_cm")), Column("ll_cm", VField("ll_cm")),
     Column("status_gizi", VField("status_gizi")), Column("saran", VField("saran"))]
  }

  function InsertRecord(p: PerkembanganPayload, tanggal: Date, kaderId: int): Statement {
    Insert("perkembangan", RecordColumns(p, tanggal) + [Column("id_kader_pencatat", VInt(kaderId))])
  }

  function UpdateRecord(p: PerkembanganPayload, tanggal: Date, id: int): Statement {
    UpdateById("perkembangan", RecordColumns(p, tanggal) + [Column("updated_at", VNow)], id)
  }

  /** A failed write: the child FK gives 404, anything else the given 500 message. */
  function WriteError(e: DbError, failure: string): (r: Reply)
    ensures r.status == StatusNotFound <==> IsPgOn(e, ForeignKeyViolation, ChildFk)
    ensures r.status == StatusNotFound ==> r == Fail(StatusNotFound, ChildMissing)
    ensures r.status != StatusNotFound ==> r == Fail(StatusInternalServerError, failure)
  {
    if IsPgOn(e, ForeignKeyViolation, ChildFk) then Fail(StatusNotFound, ChildMissing)
    else Fail(StatusInternalServerError, failure)
  }

  /**
   * TambahPerkembanganHandler. `kaderId` is what the middleware stored in the
   * context, `body` the outcome of ShouldBindJSON, `db` that of the INSERT.
   */
  function CreatePerkembangan(kaderId: Option<int>, body: Option<PerkembanganPayload>, db: DbOutcome): (run: Run)
    ensures kaderId.None? <==> run == Run(Fail(StatusUnauthorized, "Sesi tidak valid."), [])
    ensures run.reply.status == StatusBadRequest <==>
      kaderId.Some? && (body.None? || ParseDate(body.value.tanggalPemeriksaan).None?)
    ensures kaderId.Some? && body.Some? && ParseDate(body.value.tanggalPemeriksaan).None? ==>
      run == Run(Fail(StatusBadRequest, BadDate), [])
    ensures run.effects != [] <==>
      kaderId.Some? && body.Some? && ParseDate(body.value.tanggalPemeriksaan).Some?
    ensures run.effects != [] ==>
      run.effects == [Exec(InsertRecord(body.value, ParseDate(body.value.tanggalPemeriksaan).value, kaderId.value))]
    ensures run.reply.status == StatusCreated <==> run.effects != [] && db.None?
    ensures run.reply.status == StatusNotFound <==> run.effects != [] && db.Some? && IsPgOn(db.value, ForeignKeyViolation, ChildFk)
    ensures run.reply.status == StatusInternalServerError <==>
      run.effects != [] && db.Some? && !IsPgOn(db.value, ForeignKeyViolation, ChildFk)
  {
    if kaderId.None? then Run(Fail(StatusUnauthorized, "Sesi tidak valid."), [])
    else if body.None? then Run(Fail(StatusBadRequest, "Data tidak lengkap atau format salah."), [])
    else match ParseDate(body.value.tanggalPemeriksaan)
      case None => Run(Fail(StatusBadRequest, BadDate), [])
      case Some(tanggal) =>
        var effects := [Exec(InsertRecord(body.value, tanggal, kaderId.value))];
        match db
        case None => Run(Done(StatusCreated, "Data perkembangan berhasil dicatat!"), effects)
        case Some(e) => Run(WriteError(e, "Gagal menyimpan data perkembangan."), effects)
  }

  /** UpdatePerkembanganHandler: no session check; the id, the body and the date are checked in that order. */
  function UpdatePerkembangan(idParam: string, body: Option<PerkembanganPayload>, db: DbOutcome): (run: Run)
    ensures Atoi(idParam).None? ==> run == Run(Fail(StatusBadRequest, BadId), [])
    ensures run.reply.status == StatusBadRequest <==>
      Atoi(idParam).None? || body.None? || ParseDate(body.value.tanggalPemeriksaan).None?
    ensures run.effects != [] <==> run.reply.status != StatusBadRequest
    ensures run.effects != [] ==>
      run.effects == [Exec(UpdateRecord(body.value, ParseDate(body.value.tanggalPemeriksaan).value, Atoi(idParam).value))]
    ensures run.reply.status == StatusOK <==> run.effects != [] && db.None?
    ensures run.reply.status == StatusNotFound <==> run.effects != [] && db.Some? && IsPgOn(db.value, ForeignKeyViolation, ChildFk)
    ensures run.reply.status == StatusInternalServerError <==>
      run.effects != [] && db.Some? && !IsPgOn(db.value, ForeignKeyViolation, ChildFk)
  {
    match Atoi(idParam)
    case None => Run(Fail(StatusBadRequest, BadId), [])
    case Some(id) =>
      if body.None? then Run(Fail(StatusBadRequest, "Data tidak lengkap."), [])
      else match ParseDate(body.value.tanggalPemeriksaan)
        case None => Run(Fail(StatusBadRequest, BadDate), [])
        case Some(tanggal) =>
          var effects := [Exec(UpdateRecord(body.value, tanggal, id))];
          match db
          case None => Run(Done(StatusOK, "Data perkembangan berhasil diperbarui!"), effects)
          case Some(e) => Run(WriteError(e, "Gagal update."), effects)
  }

  /** GetPerkembanganByIdHandler: ById.GetRecord on the perkembangan table with these messages. */
  const GetMsgs := ByIdMessages(BadId, "Data tidak ditemukan.", "Gagal mengambil data.")

  /** DeletePerkembanganHandler: ById.DeleteRecord on the perkembangan table with these messages. */
  const Deleted := "Data perkembangan berhasil dihapus!"
  const DeleteFailed := "Gagal menghapus."

  /** The caller who records a measurement is stored as id_kader_pencatat, and an update never rewrites it. */
  lemma PencatatKept(p: PerkembanganPayload, tanggal: Date, kaderId: int, id: int)
    ensures ValueOf(InsertRecord(p, tanggal, kaderId).columns, "id_kader_pencatat") == Some(VInt(kaderId))
    ensures "id_kader_pencatat" !in ColumnNames(UpdateRecord(p, tanggal, id).columns)
  {
    var names := ColumnNames(RecordColumns(p, tanggal));
    assert names == ["id_anak", "tanggal_pemeriksaan", "bb_kg", "tb_cm", "lk_cm", "ll_cm", "status_gizi", "saran"];
    ValueOfAppended(RecordColumns(p, tanggal), "id_kader_pencatat", VInt(kaderId));
    ColumnNamesAppend(RecordColumns(p, tanggal), [Column("updated_at", VNow)]);
    assert ColumnNames([Column("updated_at", VNow)]) == ["updated_at"];
  }

  /** The search condition: one placeholder matched against four columns. */
  const SearchPieces: seq<string> := ["(a.nama_anak ILIKE ", " OR a.nik_anak ILIKE ", " OR k.nama_lengkap ILIKE ", " OR i.nama_lengkap ILIKE ", ")"]

  const IdPieces: seq<string> := ["p.id_anak = ", ""]

  const ListSelect := "SELECT p.id, p.id_anak, p.tanggal_pemeriksaan, p.bb_kg, p.tb_cm, p.lk_cm, p.ll_cm, p.status_gizi, p.saran, p.id_kader_pencatat, p.created_at, p.updated_at, a.nama_anak, k.nama_lengkap AS nama_kader, a.nik_anak, i.nama_lengkap AS nama_ibu FROM perkembangan p JOIN anak a ON p.id_anak = a.id JOIN ibu i ON a.id_ibu = i.id LEFT JOIN kader k ON p.id_kader_pencatat = k.id"

  const ListOrder := " ORDER BY p.tanggal_pemeriksaan DESC, a.nama_anak ASC"

  const ListMsgs := ListMessages("Gagal mengambil data perkembangan.", "Gagal memindai data.", "Gagal memproses daftar.")

  lemma TemplatesValid()
    ensures ValidTemplate(SearchPieces) && ValidTemplate(IdPieces)
  {
    assert NoDollar(SearchPieces[0]) && NoDollar(SearchPieces[1]) && NoDollar(SearchPieces[2]);
    assert NoDollar(SearchPieces[3]) && NoDollar(SearchPieces[4]);
    assert SearchPieces[1][0] == ' ' && SearchPieces[2][0] == ' ' && SearchPieces[3][0] == ' ' && SearchPieces[4][0] == ')';
    assert NoDollar(IdPieces[0]) && NoDollar(IdPieces[1]);
  }

  /** The search uses $1 four times; the id_anak filter takes $2 after a search and $1 without one. */
  lemma ListPlaceholders(search: string, idParam: string)
    ensures Placeholders(Where(FilterConds(SearchPieces, IdPieces, search, idParam))) ==
      (if search != "" then [1, 1, 1, 1] else []) + (if IdFilter(idParam).Some? then [if search != "" then 2 else 1] else [])
  {
    TemplatesValid();
    FilterPlaceholders(SearchPieces, IdPieces, search, idParam);
    assert Repeat(1, 4) == [1, 1, 1, 1];
  }

  /**
   * GetPerkembanganHandler: a search term is matched through $1 against four
   * columns; a positive id_anak adds "p.id_anak = $n" with the next number;
   * rows are collected into a nil slice.
   */
  method GetPerkembanganList(search: string, idParam: string, res: QueryResult) returns (query: string, args: seq<Arg>, reply: Reply)
    ensures query == ListSelect + Where(FilterConds(SearchPieces, IdPieces, search, idParam)) + ListOrder
    ensures args == Args(FilterConds(SearchPieces, IdPieces, search, idParam))
    ensures Placeholders(Where(FilterConds(SearchPieces, IdPieces, search, idParam))) ==
      (if search != "" then [1, 1, 1, 1] else []) + (if IdFilter(idParam).Some? then [if search != "" then 2 else 1] else [])
    ensures reply == ListReply(res, true, ListMsgs)
  {
    TemplatesValid();
    query, args := BuildFiltered(ListSelect, SearchPieces, IdPieces, ListOrder, search, idParam);
    ListPlaceholders(search, idParam);
    reply := CollectRows(res, true, ListMsgs);
  }
}

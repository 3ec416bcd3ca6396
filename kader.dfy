/**
 * The kader (health-post volunteer) endpoints: registration, update,
 * password change, delete and list, as api/handlers/kader.go writes them,
 * together with the registration route of api/main.go, which checks the
 * password and the NIK before hashing while the handlers copy does not.
 */
module KaderHandlers {
  import opened Wrappers
  import opened Sql
  import opened Http
  import opened Rows
  import opened ListFilter

  /** RegisterKaderPayload as bound by ShouldBindJSON. */
  datatype RegisterPayload = RegisterPayload(namaLengkap: string, nik: string, noTelepon: string, username: string, password: string)

  /** UpdateKaderPayload as bound by ShouldBindJSON. */
  datatype UpdatePayload = UpdatePayload(namaLengkap: string, nik: string, noTelepon: string, username: string)

  const BadId := "ID kader tidak valid"
  const BadBody := "Data tidak lengkap atau format salah."
  const NikTooLongMsg := "NIK tidak boleh lebih dari 16 karakter."
  const UsernameKey := "kader_username_key"
  const NikKey := "kader_nik_key"

  /** An empty NIK is allowed; a non-empty one must be at most 16 bytes. */
  predicate NikRefused(nik: string) { nik != "" && NikTooLong(nik) }

  function InsertKader(p: RegisterPayload): Statement {
    Insert("kader", [Column("nama_lengkap", VText(p.namaLengkap)), Column("nik", VText(p.nik)),
                     Column("no_telepon", VText(p.noTelepon)), Column("username", VText(p.username)),
                     Column("password", VHash(p.password))])
  }

  /** A unique violation on registration: 409, with a message chosen by the constraint. */
  function RegisterConflict(constraint: string): (r: Reply)
    ensures r.status == StatusConflict
    ensures constraint == UsernameKey ==> r.body == ErrorJson("Username ini sudah digunakan.")
    ensures constraint == NikKey ==> r.body == ErrorJson("NIK ini sudah terdaftar.")
    ensures constraint != UsernameKey && constraint != NikKey ==>
      r.body == ErrorJson("Data unik sudah ada (" + constraint + ").")
  {
    if constraint == UsernameKey then Fail(StatusConflict, "Username ini sudah digunakan.")
    else if constraint == NikKey then Fail(StatusConflict, "NIK ini sudah terdaftar.")
    else Fail(StatusConflict, "Data unik sudah ada (" + constraint + ").")
  }

  /**
   * Hashing and inserting, common to both registration routes once the
   * payload is accepted. `hashOk` is whether bcrypt succeeds.
   */
  function HashAndInsert(p: RegisterPayload, hashOk: bool, db: DbOutcome): (run: Run)
    ensures !hashOk ==> run == Run(Fail(StatusInternalServerError, "Gagal memproses pendaftaran."), [HashPassword(p.password)])
    ensures hashOk ==> run.effects == [HashPassword(p.password), Exec(InsertKader(p))]
    ensures hashOk ==> (run.reply.status == StatusCreated <==> db.None?)
    ensures hashOk ==> (run.reply.status == StatusConflict <==> db.Some? && IsPg(db.value, UniqueViolation))
    ensures hashOk && db.Some? && IsPg(db.value, UniqueViolation) ==> run.reply == RegisterConflict(db.value.constraint)
  {
    if !hashOk then Run(Fail(StatusInternalServerError, "Gagal memproses pendaftaran."), [HashPassword(p.password)])
    else
      var effects := [HashPassword(p.password), Exec(InsertKader(p))];
      match db
      case None => Run(Done(StatusCreated, "Kader baru berhasil didaftarkan!"), effects)
      case Some(e) =>
        if IsPg(e, UniqueViolation) then Run(RegisterConflict(e.constraint), effects)
        else Run(Fail(StatusInternalServerError, "Gagal menyimpan data kader."), effects)
  }

  /** RegisterKaderHandler (handlers copy): no password or NIK check before hashing. */
  function RegisterKader(body: Option<RegisterPayload>, hashOk: bool, db: DbOutcome): (run: Run)
    ensures body.None? <==> run.reply.status == StatusBadRequest
    ensures body.None? ==> run == Run(Fail(StatusBadRequest, BadBody), [])
    ensures body.Some? ==> run == HashAndInsert(body.value, hashOk, db)
  {
    if body.None? then Run(Fail(StatusBadRequest, BadBody), []) else HashAndInsert(body.value, hashOk, db)
  }

  /** The registration route of main.go: an empty password, then a long non-empty NIK, are refused before hashing. */
  function RegisterKaderMain(body: Option<RegisterPayload>, hashOk: bool, db: DbOutcome): (run: Run)
    ensures run.reply.status == StatusBadRequest <==> body.None? || body.value.password == "" || NikRefused(body.value.nik)
    ensures run.reply.status == StatusBadRequest ==> run.effects == []
    ensures body.Some? && body.value.password == "" ==> run.reply == Fail(StatusBadRequest, "Password wajib diisi.")
    ensures body.Some? && body.value.password != "" && NikRefused(body.value.nik) ==> run.reply == Fail(StatusBadRequest, NikTooLongMsg)
    ensures run.reply.status != StatusBadRequest ==> run == HashAndInsert(body.value, hashOk, db)
  {
    if body.None? then Run(Fail(StatusBadRequest, BadBody), [])
    else if body.value.password == "" then Run(Fail(StatusBadRequest, "Password wajib diisi."), [])
    else if NikRefused(body.value.nik) then Run(Fail(StatusBadRequest, NikTooLongMsg), [])
    else HashAndInsert(body.value, hashOk, db)
  }

  /**
   * The two registration routes agree exactly on payloads that pass main.go's
   * two checks; on the others the handlers copy goes on to hash and insert.
   */
  lemma RegisterRoutesCompared(body: Option<RegisterPayload>, hashOk: bool, db: DbOutcome)
    ensures body.None? || (body.value.password != "" && !NikRefused(body.value.nik)) ==>
      RegisterKader(body, hashOk, db) == RegisterKaderMain(body, hashOk, db)
    ensures body.Some? && (body.value.password == "" || NikRefused(body.value.nik)) ==>
      RegisterKaderMain(body, hashOk, db).effects == [] && RegisterKader(body, hashOk, db).effects != []
  {
  }

  /** A unique violation on update: 409, with a message chosen by the constraint. */
  function UpdateConflict(constraint: string): (r: Reply)
    ensures r.status == StatusConflict
    ensures constraint == UsernameKey ==> r.body == ErrorJson("Username ini sudah digunakan kader lain.")
    ensures constraint == NikKey ==> r.body == ErrorJson("NIK ini sudah digunakan kader lain.")
    ensures constraint != UsernameKey && constraint != NikKey ==> r.body == ErrorJson("Data unik sudah ada.")
  {
    if constraint == UsernameKey then Fail(StatusConflict, "Username ini sudah digunakan kader lain.")
    else if constraint == NikKey then Fail(StatusConflict, "NIK ini sudah digunakan kader lain.")
    else Fail(StatusConflict, "Data unik sudah ada.")
  }

  function UpdateKaderStatement(p: UpdatePayload, id: int): Statement {
    UpdateById("kader", [Column("nama_lengkap", VText(p.namaLengkap)), Column("nik", VText(p.nik)),
                         Column("no_telepon", VText(p.noTelepon)), Column("username", VText(p.username)),
                         Column("updated_at", VNow)], id)
  }

  /** UpdateKaderHandler (the main.go route is the same). */
  function UpdateKader(idParam: string, body: Option<UpdatePayload>, db: DbOutcome): (run: Run)
    ensures Atoi(idParam).None? ==> run == Run(Fail(StatusBadRequest, BadId), [])
    ensures run.reply.status == StatusBadRequest <==> Atoi(idParam).None? || body.None? || NikRefused(body.value.nik)
    ensures run.reply.status == StatusBadRequest ==> run.effects == []
    ensures run.reply.status != StatusBadRequest ==> run.effects == [Exec(UpdateKaderStatement(body.value, Atoi(idParam).value))]
    ensures run.reply.status != StatusBadRequest ==>
      (run.reply.status == StatusConflict <==> db.Some? && IsPg(db.value, UniqueViolation))
    ensures run.reply.status == StatusConflict ==> run.reply == UpdateConflict(db.value.constraint)
    ensures run.reply.status == StatusOK <==> run.effects != [] && db.None?
  {
    match Atoi(idParam)
    case None => Run(Fail(StatusBadRequest, BadId), [])
    case Some(id) =>
      if body.None? then Run(Fail(StatusBadRequest, BadBody), [])
      else if NikRefused(body.value.nik) then Run(Fail(StatusBadRequest, NikTooLongMsg), [])
      else
        var effects := [Exec(UpdateKaderStatement(body.value, id))];
        match db
        case None => Run(Done(StatusOK, "Data kader berhasil diperbarui!"), effects)
        case Some(e) =>
          if IsPg(e, UniqueViolation) then Run(UpdateConflict(e.constraint), effects)
          else Run(Fail(StatusInternalServerError, "Gagal memperbarui data kader."), effects)
  }

  /** ChangePasswordHandler (the main.go route is the same): under 6 bytes is refused before hashing. */
  function ChangePassword(idParam: string, body: Option<string>, hashOk: bool, db: DbOutcome): (run: Run)
    ensures Atoi(idParam).None? ==> run == Run(Fail(StatusBadRequest, BadId), [])
    ensures run.reply.status == StatusBadRequest <==> Atoi(idParam).None? || body.None? || ByteLen(body.value) < 6
    ensures run.reply.status == StatusBadRequest ==> run.effects == []
    ensures Atoi(idParam).Some? && body.Some? && ByteLen(body.value) < 6 ==>
      run.reply == Fail(StatusBadRequest, "Password baru minimal 6 karakter.")
    ensures run.reply.status != StatusBadRequest && hashOk ==>
      run.effects == [HashPassword(body.value),
                      Exec(UpdateById("kader", [Column("password", VHash(body.value)), Column("updated_at", VNow)], Atoi(idParam).value))]
    ensures run.reply.status == StatusOK <==> run.reply.status != StatusBadRequest && hashOk && db.None?
  {
    match Atoi(idParam)
    case None => Run(Fail(StatusBadRequest, BadId), [])
    case Some(id) =>
      if body.None? then Run(Fail(StatusBadRequest, "Password baru wajib diisi."), [])
      else if ByteLen(body.value) < 6 then Run(Fail(StatusBadRequest, "Password baru minimal 6 karakter."), [])
      else if !hashOk then Run(Fail(StatusInternalServerError, "Gagal memproses password baru."), [HashPassword(body.value)])
      else
        var effects := [HashPassword(body.value),
                        Exec(UpdateById("kader", [Column("password", VHash(body.value)), Column("updated_at", VNow)], id))];
        if db.None? then Run(Done(StatusOK, "Password berhasil diperbarui!"), effects)
        else Run(Fail(StatusInternalServerError, "Gagal memperbarui password."), effects)
  }

  /** DeleteKaderHandler (the main.go route is the same): every 23503, whatever the constraint, is 409. */
  function DeleteKader(idParam: string, db: DbOutcome): (run: Run)
    ensures Atoi(idParam).None? <==> run == Run(Fail(StatusBadRequest, BadId), [])
    ensures Atoi(idParam).Some? ==> run.effects == [Exec(DeleteById("kader", Atoi(idParam).value))]
    ensures run.reply.status == StatusConflict <==> Atoi(idParam).Some? && db.Some? && IsPg(db.value, ForeignKeyViolation)
    ensures run.reply.status == StatusOK <==> Atoi(idParam).Some? && db.None?
  {
    match Atoi(idParam)
    case None => Run(Fail(StatusBadRequest, BadId), [])
    case Some(id) =>
      var effects := [Exec(DeleteById("kader", id))];
      if db.None? then Run(Done(StatusOK, "Data kader berhasil dihapus!"), effects)
      else if IsPg(db.value, ForeignKeyViolation) then
        Run(Fail(StatusConflict, "Kader tidak bisa dihapus karena masih terhubung dengan data lain (misal: data ibu/perkembangan)."), effects)
      else Run(Fail(StatusInternalServerError, "Gagal menghapus data kader."), effects)
  }

  /** A password of five ASCII letters is refused; six pass the length rule. */
  lemma PasswordLengthExamples(db: DbOutcome)
    ensures ChangePassword("7", Some("abcde"), true, db).reply == Fail(StatusBadRequest, "Password baru minimal 6 karakter.")
    ensures ChangePassword("7", Some("abcdef"), true, db).reply.status != StatusBadRequest
  {
    assert "7"[..0] == "";
    assert ByteLen("abcde") == 5;
    assert ByteLen("abcdef") == 6;
  }

  const SearchPieces: seq<string> := ["nama_lengkap ILIKE ", " OR nik ILIKE ", " OR username ILIKE ", ""]
  const ListSelect := "SELECT id, nama_lengkap, nik, no_telepon, username, created_at, updated_at FROM kader"
  const ListOrder := " ORDER BY nama_lengkap ASC"
  const ListMsgs := ListMessages("Gagal mengambil data kader.", "Gagal memindai data kader.", "Gagal memproses daftar kader.")

  lemma SearchPiecesValid()
    ensures ValidTemplate(SearchPieces)
  {
    assert NoDollar(SearchPieces[0]) && NoDollar(SearchPieces[1]) && NoDollar(SearchPieces[2]) && NoDollar(SearchPieces[3]);
    assert SearchPieces[1][0] == ' ' && SearchPieces[2][0] == ' ';
  }

  /** GetKaderHandler: search over name, NIK and username through $1; rows into a nil slice. */
  method GetKaderList(search: string, res: QueryResult) returns (query: string, args: seq<Arg>, reply: Reply)
    ensures query == ListSelect + Where(SearchConds(SearchPieces, search)) + ListOrder
    ensures search == "" ==> args == [] && query == ListSelect + ListOrder
    ensures search != "" ==> args == [TextArg(LikePattern(search))]
    ensures search != "" ==> Placeholders(Where(SearchConds(SearchPieces, search))) == [1, 1, 1]
    ensures reply == ListReply(res, true, ListMsgs)
  {
    SearchPiecesValid();
    query, args := BuildSearch(ListSelect, SearchPieces, ListOrder, search);
    assert Repeat(1, 3) == [1, 1, 1];
    reply := CollectRows(res, true, ListMsgs);
  }
}

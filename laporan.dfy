/**
 * The report endpoint, GET /laporan/:tipe, as api/handlers/laporan.go writes
 * it and as the inline route of api/main.go repeats it: the optional start and
 * end dates, the exclusive upper bound one day after the end date, the
 * dispatch on the report type, and the date conditions numbered by argCounter.
 */
module Laporan {
  import opened Wrappers
  import opened Text
  import opened Dates
  import opened Sql
  import opened Http
  import opened Rows
  import opened ListFilter

  const BadDates := "Format tanggal tidak valid (YYYY-MM-DD)"
  const BadKind := "Tipe laporan tidak valid."

  /** A query parameter as time.Parse leaves it: empty means Go's zero time; otherwise it must parse. */
  function ParseBound(s: string): (r: Option<Date>)
    ensures s == "" ==> r == Some(Zero)
    ensures s != "" ==> r == ParseDate(s)
  {
    if s == "" then Some(Zero) else ParseDate(s)
  }

  /** The (start, end) pair the report filters on: end is one day after the given end date. */
  datatype Range = Range(start: Date, end: Date)

  /**
   * The date handling of GetLaporanHandler: a non-empty value that does not
   * parse refuses the request; a parsed end date is moved to the next day.
   */
  function ReportRange(start: string, end: string): (r: Option<Range>)
    ensures r.Some? <==> ParseBound(start).Some? && ParseBound(end).Some?
    ensures r.Some? ==> r.value.start == ParseBound(start).value
    ensures r.Some? && end == "" ==> IsZero(r.value.end)
    ensures r.Some? && end != "" ==> r.value.end == NextDay(ParseDate(end).value)
  {
    match (ParseBound(start), ParseBound(end))
    case (Some(s), Some(e)) => Some(Range(s, if end == "" then e else NextDay(e)))
    case _ => None
  }

  /**
   * The same in the route of api/main.go, which adds the day even when the
   * end date did not parse (to the zero time time.Parse returns then). That
   * never matters: the error is reported first, so the range is the same.
   */
  function MainReportRange(start: string, end: string): (r: Option<Range>)
    ensures r == ReportRange(start, end)
  {
    var s := ParseBound(start);
    var e := if end == "" then Zero else if ParseDate(end).Some? then ParseDate(end).value else Zero;
    var endDate := if end == "" then e else NextDay(e);
    if s.None? || (end != "" && ParseDate(end).None?) then None else Some(Range(s.value, endDate))
  }

  datatype Kind = Wali | Anak | Perkembangan | Imunisasi

  /** The report types the switch dispatches; anything else is refused. */
  function ParseKind(tipe: string): (k: Option<Kind>)
    ensures k.Some? <==> tipe in {"wali", "anak", "perkembangan", "imunisasi"}
  {
    if tipe == "wali" then Some(Wali)
    else if tipe == "anak" then Some(Anak)
    else if tipe == "perkembangan" then Some(Perkembangan)
    else if tipe == "imunisasi" then Some(Imunisasi)
    else None
  }

  /** The column each report filters on. */
  function BoundColumn(k: Kind): string {
    match k
    case Wali => "created_at"
    case Anak => "a.created_at"
    case Perkembangan => "p.tanggal_pemeriksaan"
    case Imunisasi => "r.tanggal_imunisasi"
  }

  lemma BoundColumnNoDollar(k: Kind)
    ensures NoDollar(BoundColumn(k) + " >= ") && NoDollar(BoundColumn(k) + " < ")
  {
    var c := BoundColumn(k);
    assert NoDollar(c) by {
      match k
      case Wali => assert c == "created_at";
      case Anak => assert c == "a.created_at";
      case Perkembangan => assert c == "p.tanggal_pemeriksaan";
      case Imunisasi => assert c == "r.tanggal_imunisasi";
    }
    assert NoDollar(" >= ") && NoDollar(" < ");
    NoDollarConcat(c, " >= ");
    NoDollarConcat(c, " < ");
  }

  lemma NoDollarConcat(a: string, b: string)
    requires NoDollar(a) && NoDollar(b)
    ensures NoDollar(a + b)
  {
    forall i | 0 <= i < |a + b| ensures (a + b)[i] != '$' {
      if i < |a| { assert (a + b)[i] == a[i]; } else { assert (a + b)[i] == b[i - |a|]; }
    }
  }

  function LowerPieces(k: Kind): seq<string> { [BoundColumn(k) + " >= ", ""] }

  function UpperPieces(k: Kind): seq<string> { [BoundColumn(k) + " < ", ""] }

  lemma BoundTemplatesValid(k: Kind)
    ensures ValidTemplate(LowerPieces(k)) && ValidTemplate(UpperPieces(k))
  {
    BoundColumnNoDollar(k);
  }

  /** The conditions a report adds: a lower bound unless start is the zero time, then an upper bound unless end is. */
  function RangeConds(k: Kind, r: Range): seq<Cond> {
    BoundConds(LowerPieces(k), UpperPieces(k), r)
  }

  function BoundConds(lower: seq<string>, upper: seq<string>, r: Range): seq<Cond> {
    (if !IsZero(r.start) then [Cond(lower, DateArg(r.start))] else [])
    + (if !IsZero(r.end) then [Cond(upper, DateArg(r.end))] else [])
  }

  const PerkembanganColumns := "SELECT p.id, p.id_anak, p.tanggal_pemeriksaan, p.bb_kg, p.tb_cm, p.lk_cm, p.ll_cm, p.status_gizi, p.saran, p.id_kader_pencatat, p.created_at, p.updated_at, a.nama_anak, k.nama_lengkap AS nama_kader, a.nik_anak, i.nama_lengkap AS nama_ibu"
  const NikIbuColumn := ", i.nik AS nik_ibu"
  const PerkembanganFrom := " FROM perkembangan p JOIN anak a ON p.id_anak = a.id JOIN ibu i ON a.id_ibu = i.id LEFT JOIN kader k ON p.id_kader_pencatat = k.id"

  /** The SELECT of each report; the main.go perkembangan report does not select the mother's NIK. */
  function ReportSelect(v: Variant, k: Kind): string {
    match k
    case Wali => "SELECT id, nama_lengkap, nik, no_telepon, alamat, id_kader_pendaftar, created_at, updated_at FROM ibu"
    case Anak => "SELECT a.id, a.id_ibu, a.nama_anak, a.nik_anak, a.tanggal_lahir, a.jenis_kelamin, a.anak_ke, a.berat_lahir_kg, a.tinggi_lahir_cm, a.created_at, a.updated_at, i.nama_lengkap AS nama_ibu FROM anak a LEFT JOIN ibu i ON a.id_ibu = i.id"
    case Perkembangan => PerkembanganColumns + (if v == Handlers then NikIbuColumn else "") + PerkembanganFrom
    case Imunisasi => "SELECT r.id, r.id_anak, r.id_master_imunisasi, r.id_kader_pencatat, r.id_kader_updater, r.tanggal_imunisasi, r.catatan, r.created_at, r.updated_at, a.nama_anak, a.nik_anak, m.nama_imunisasi, kp.nama_lengkap AS nama_kader, ku.nama_lengkap AS nama_kader_updater FROM riwayat_imunisasi r JOIN anak a ON r.id_anak = a.id JOIN master_imunisasi m ON r.id_master_imunisasi = m.id LEFT JOIN kader kp ON r.id_kader_pencatat = kp.id LEFT JOIN kader ku ON r.id_kader_updater = ku.id"
  }

  function ReportOrder(k: Kind): string {
    match k
    case Wali => " ORDER BY created_at DESC"
    case Anak => " ORDER BY a.created_at DESC"
    case Perkembangan => " ORDER BY p.tanggal_pemeriksaan DESC, a.nama_anak ASC"
    case Imunisasi => " ORDER BY r.tanggal_imunisasi DESC, a.nama_anak ASC"
  }

  const ReportMsgs := ListMessages("Gagal mengambil data.", "Gagal memindai data.", "Gagal memproses.")

  /**
   * handleLaporanWali, ...Anak, ...Perkembangan, ...Imunisasi: the bounds
   * are appended to conditions and args together, numbered by argCounter.
   */
  method BuildReportQuery(select: string, lower: seq<string>, upper: seq<string>, order: string, r: Range)
    returns (query: string, args: seq<Arg>)
    requires ValidTemplate(lower) && ValidTemplate(upper)
    ensures ValidConds(BoundConds(lower, upper, r))
    ensures query == select + Where(BoundConds(lower, upper, r)) + order
    ensures args == Args(BoundConds(lower, upper, r))
  {
    ghost var cs: seq<Cond> := [];
    var conditions: seq<string> := [];
    args := [];
    var argCounter := 1;
    query := select;
    if !IsZero(r.start) {
      RenderSnoc(cs, Cond(lower, DateArg(r.start)), 1);
      ArgsSnoc(cs, Cond(lower, DateArg(r.start)));
      cs := cs + [Cond(lower, DateArg(r.start))];
      conditions := conditions + [Fill(lower, argCounter)];
      args := args + [DateArg(r.start)];
      argCounter := argCounter + 1;
    }
    assert ValidConds(cs) && conditions == Render(cs, 1) && args == Args(cs) && argCounter == |args| + 1;
    if !IsZero(r.end) {
      RenderSnoc(cs, Cond(upper, DateArg(r.end)), 1);
      ArgsSnoc(cs, Cond(upper, DateArg(r.end)));
      cs := cs + [Cond(upper, DateArg(r.end))];
      conditions := conditions + [Fill(upper, argCounter)];
      args := args + [DateArg(r.end)];
      argCounter := argCounter + 1;
    }
    assert cs == BoundConds(lower, upper, r);
    assert conditions == Render(cs, 1) && args == Args(cs);
    if |conditions| > 0 {
      query := query + " WHERE " + Join(conditions, " AND ");
    }
    query := query + order;
  }

  /**
   * Placeholder numbering of a report: $1 for the first bound present, $2
   * for the upper bound after a lower one; each names the argument at that
   * position, the start date before the end date.
   */
  lemma RangePlaceholders(k: Kind, r: Range)
    ensures ValidConds(RangeConds(k, r))
    ensures Placeholders(Where(RangeConds(k, r))) ==
      (if !IsZero(r.start) then [1] else []) + (if !IsZero(r.end) then [if !IsZero(r.start) then 2 else 1] else [])
    ensures Args(RangeConds(k, r)) ==
      (if !IsZero(r.start) then [DateArg(r.start)] else []) + (if !IsZero(r.end) then [DateArg(r.end)] else [])
  {
    BoundTemplatesValid(k);
    var cs := RangeConds(k, r);
    WherePlaceholders(cs);
    var first := if !IsZero(r.start) then 2 else 1;
    var upper: seq<Cond> := if !IsZero(r.end) then [Cond(UpperPieces(k), DateArg(r.end))] else [];
    assert Expected(upper, first) == (if !IsZero(r.end) then [first] else []) by {
      if !IsZero(r.end) {
        assert Expected(upper, first) == Repeat(first, 1) + Expected([], first + 1);
      }
    }
    if !IsZero(r.start) {
      assert cs == [cs[0]] + upper;
      assert cs[1..] == upper;
      assert Expected(cs, 1) == Repeat(1, 1) + Expected(upper, 2);
      assert Args(cs) == [cs[0].arg] + Args(upper);
    } else {
      assert cs == upper;
    }
  }

  /** The day of a row passes the conditions: at or after start, strictly before end; a zero bound is absent. */
  predicate InReport(r: Range, day: Date) {
    (IsZero(r.start) || !Before(day, r.start)) && (IsZero(r.end) || Before(day, r.end))
  }

  /**
   * The range is inclusive of both given dates: a day passes the filter
   * exactly when it lies between the start and the end date as written.
   * The one exception is an end date of 0000-12-31, whose next day is the
   * zero time, so that no upper bound is applied.
   */
  lemma ReportWindow(start: string, end: string, day: Date)
    requires ValidDate(day)
    requires ReportRange(start, end).Some?
    ensures var r := ReportRange(start, end).value;
      end != "" && ParseDate(end).value != Date(0, 12, 31) ==>
        (InReport(r, day) <==> (IsZero(r.start) || !Before(day, r.start)) && !Before(ParseDate(end).value, day))
    ensures var r := ReportRange(start, end).value;
      end != "" && ParseDate(end).value == Date(0, 12, 31) ==>
        (InReport(r, day) <==> IsZero(r.start) || !Before(day, r.start))
    ensures end == "" ==> (InReport(ReportRange(start, end).value, day) <==> IsZero(ReportRange(start, end).value.start) || !Before(day, ReportRange(start, end).value.start))
  {
    if end != "" {
      var e := ParseDate(end).value;
      NextDayIsSuccessor(e, day);
      NextDayZero(e);
    }
  }

  /**
   * GetLaporanHandler (and the route of api/main.go for `v == MainRoute`):
   * dates first, then the type; a query is sent only when both are accepted.
   * Every report collects its rows into a nil slice.
   */
  method GetLaporan(v: Variant, tipe: string, start: string, end: string, res: QueryResult)
    returns (query: Option<string>, args: seq<Arg>, reply: Reply)
    ensures (if v == Handlers then ReportRange(start, end) else MainReportRange(start, end)).None? ==>
      query.None? && reply == Fail(StatusBadRequest, BadDates)
    ensures ReportRange(start, end).Some? && ParseKind(tipe).None? ==>
      query.None? && reply == Fail(StatusBadRequest, BadKind)
    ensures query.Some? <==> ReportRange(start, end).Some? && ParseKind(tipe).Some?
    ensures query.Some? ==>
      var k := ParseKind(tipe).value;
      var r := ReportRange(start, end).value;
      query.value == ReportSelect(v, k) + Where(RangeConds(k, r)) + ReportOrder(k)
      && args == Args(RangeConds(k, r))
      && reply == ListReply(res, true, ReportMsgs)
  {
    var range := if v == Handlers then ReportRange(start, end) else MainReportRange(start, end);
    if range.None? {
      return None, [], Fail(StatusBadRequest, BadDates);
    }
    var kind := ParseKind(tipe);
    if kind.None? {
      return None, [], Fail(StatusBadRequest, BadKind);
    }
    BoundTemplatesValid(kind.value);
    var q;
    q, args := BuildReportQuery(ReportSelect(v, kind.value), LowerPieces(kind.value), UpperPieces(kind.value),
                                ReportOrder(kind.value), range.value);
    query := Some(q);
    reply := CollectRows(res, true, ReportMsgs);
  }

  /** Both code paths send the same text for every report but perkembangan, where only the handler selects nik_ibu. */
  lemma VariantsCompared(k: Kind)
    ensures k != Perkembangan <==> ReportSelect(Handlers, k) == ReportSelect(MainRoute, k)
    ensures k == Perkembangan ==> |ReportSelect(Handlers, k)| == |ReportSelect(MainRoute, k)| + |NikIbuColumn|
  {
    if k == Perkembangan {
      assert |NikIbuColumn| > 0;
      assert |ReportSelect(Handlers, k)| == |PerkembanganColumns| + |NikIbuColumn| + |PerkembanganFrom|;
      assert |ReportSelect(MainRoute, k)| == |PerkembanganColumns| + |""| + |PerkembanganFrom|;
    }
  }
}

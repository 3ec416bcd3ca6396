/**
 * The vocabulary shared by the Gin handlers: the JSON reply written with
 * c.JSON, the statements sent to Postgres, the errors pgx hands back, and
 * strconv.Atoi for path parameters.
 */
module Http {
  import opened Wrappers
  import opened Text
  import opened Dates

  const StatusOK := 200
  const StatusCreated := 201
  const StatusBadRequest := 400
  const StatusUnauthorized := 401
  const StatusNotFound := 404
  const StatusConflict := 409
  const StatusInternalServerError := 500

  /** A user as the login reply shows it: there is no password field. */
  datatype UserView = UserView(id: int, namaLengkap: string, username: string)

  /** The JSON written by c.JSON. */
  datatype Body =
    | ErrorJson(error: string)                                 // gin.H{"error": ...}
    | MessageJson(message: string)                             // gin.H{"message": ...}
    | LoginJson(message: string, user: UserView, token: string)
    | RecordJson                                               // one scanned row
    | ListJson(rows: nat, isNull: bool)                        // a slice; a nil slice is written as null

  datatype Reply = Reply(status: int, body: Body)

  function Fail(status: int, msg: string): Reply { Reply(status, ErrorJson(msg)) }

  function Done(status: int, msg: string): Reply { Reply(status, MessageJson(msg)) }

  /** The error a pgx call returns: a *pgconn.PgError, pgx.ErrNoRows, or anything else. */
  datatype DbError = PgError(code: string, constraint: string) | NoRows | OtherError

  /** The outcome of one database call: None when it succeeded. */
  type DbOutcome = Option<DbError>

  const UniqueViolation := "23505"
  const ForeignKeyViolation := "23503"

  predicate IsPg(e: DbError, code: string) { e.PgError? && e.code == code }

  predicate IsPgOn(e: DbError, code: string, constraint: string) {
    e.PgError? && e.code == code && e.constraint == constraint
  }

  /** Which copy of a route answers: the one in api/handlers/ or the inline one of api/main.go. */
  datatype Variant = Handlers | MainRoute

  /**
   * How a copy recognises a constraint error: the handlers copies compare
   * the SQLSTATE and the constraint name, the routes of main.go the SQLSTATE only.
   */
  predicate OnConstraint(v: Variant, e: DbError, code: string, constraint: string) {
    if v == Handlers then IsPgOn(e, code, constraint) else IsPg(e, code)
  }

  /** main.go recognises every error the handlers copy does, and in addition the same SQLSTATE on any other constraint. */
  lemma OnConstraintCompared(e: DbError, code: string, constraint: string)
    ensures OnConstraint(Handlers, e, code, constraint) ==> OnConstraint(MainRoute, e, code, constraint)
    ensures OnConstraint(MainRoute, e, code, constraint) && !OnConstraint(Handlers, e, code, constraint)
      <==> e.PgError? && e.code == code && e.constraint != constraint
  {
  }

  /** A value bound to a statement parameter. */
  datatype Value =
    | VInt(i: int)
    | VText(s: string)
    | VOptText(o: Option<string>)
    | VDate(d: Date)
    | VField(name: string)       // a payload field passed through unchanged (numbers, floats)
    | VHash(of: string)          // the bcrypt hash of a password
    | VNow                       // SQL NOW()

  datatype Column = Column(name: string, value: Value)

  datatype Statement =
    | Insert(table: string, columns: seq<Column>)
    | UpdateById(table: string, columns: seq<Column>, id: int)
    | DeleteById(table: string, id: int)
    | SelectById(table: string, id: int)

  /** What a handler asks of the outside world, in order. */
  datatype Effect = Exec(stmt: Statement) | HashPassword(password: string) | Lookup(key: string)

  /** The reply a handler writes together with the effects it performed. */
  datatype Run = Run(reply: Reply, effects: seq<Effect>)

  function ColumnNames(cs: seq<Column>): (names: seq<string>)
    ensures |names| == |cs| && forall i | 0 <= i < |cs| :: names[i] == cs[i].name
  {
    if |cs| == 0 then [] else [cs[0].name] + ColumnNames(cs[1..])
  }

  /** The value a statement binds to a column, if it names the column. */
  function ValueOf(cs: seq<Column>, name: string): (v: Option<Value>)
    ensures v.Some? <==> name in ColumnNames(cs)
    ensures v.Some? ==> Column(name, v.value) in cs
  {
    if |cs| == 0 then None
    else if cs[0].name == name then Some(cs[0].value)
    else
      assert ColumnNames(cs) == [cs[0].name] + ColumnNames(cs[1..]);
      ValueOf(cs[1..], name)
  }

  lemma ColumnNamesAppend(a: seq<Column>, b: seq<Column>)
    ensures ColumnNames(a + b) == ColumnNames(a) + ColumnNames(b)
  {
    var l := ColumnNames(a + b);
    var r := ColumnNames(a) + ColumnNames(b);
    forall i | 0 <= i < |l| ensures l[i] == r[i] {
      if i < |a| { assert (a + b)[i] == a[i]; } else { assert (a + b)[i] == b[i - |a|]; }
    }
    assert l == r;
  }

  /** A column appended after columns that do not name it is the one ValueOf finds. */
  lemma {:induction false} ValueOfAppended(cs: seq<Column>, name: string, v: Value)
    requires name !in ColumnNames(cs)
    ensures ValueOf(cs + [Column(name, v)], name) == Some(v)
    decreases |cs|
  {
    var all := cs + [Column(name, v)];
    if |cs| == 0 {
      assert all == [Column(name, v)];
    } else {
      assert all[0] == cs[0] && all[1..] == cs[1..] + [Column(name, v)];
      assert ColumnNames(cs)[0] == cs[0].name;
      assert name !in ColumnNames(cs[1..]) by {
        forall i | 0 <= i < |cs[1..]| ensures ColumnNames(cs[1..])[i] != name {
          assert ColumnNames(cs[1..])[i] == ColumnNames(cs)[i + 1];
        }
      }
      ValueOfAppended(cs[1..], name, v);
    }
  }

  /** Columns appended after the first one of a name do not change what ValueOf finds. */
  lemma {:induction false} ValueOfPrefix(a: seq<Column>, b: seq<Column>, name: string)
    requires name in ColumnNames(a)
    ensures ValueOf(a + b, name) == ValueOf(a, name)
    decreases |a|
  {
    assert (a + b)[0] == a[0];
    if a[0].name != name {
      assert (a + b)[1..] == a[1..] + b;
      assert ColumnNames(a) == [a[0].name] + ColumnNames(a[1..]);
      ValueOfPrefix(a[1..], b, name);
    }
  }

  const MinInt64 := -0x8000_0000_0000_0000
  const MaxInt64 := 0x7fff_ffff_ffff_ffff

  /** strconv.Atoi: an optional sign, at least one decimal digit, a value that fits in 64 bits. */
  function Atoi(s: string): (r: Option<int>)
    ensures r.Some? ==> MinInt64 <= r.value <= MaxInt64
    ensures r.Some? ==> |s| > 0
  {
    var signed := |s| > 0 && (s[0] == '-' || s[0] == '+');
    var digits := if signed then s[1..] else s;
    if |digits| == 0 || !AllDigits(digits) then None
    else
      var v: int := if signed && s[0] == '-' then 0 - DigitsValue(digits) as int else DigitsValue(digits);
      if MinInt64 <= v <= MaxInt64 then Some(v) else None
  }

  /** strconv.Itoa and strconv.Atoi are inverse on 64-bit integers. */
  lemma AtoiItoa(i: int)
    requires MinInt64 <= i <= MaxInt64
    ensures Atoi(IntToString(i)) == Some(i)
  {
    var s := IntToString(i);
    if i < 0 {
      assert s[1..] == NatToString(-i);
    } else {
      assert IsDigit(s[0]);
    }
  }

  /**
   * Atoi reads any sign followed by any non-empty run of digits, "+7" and
   * leading zeros included, as the signed decimal value, and accepts it
   * exactly when that value fits in 64 bits.
   */
  lemma AtoiDecomposed(sign: string, digits: string)
    requires sign == "" || sign == "+" || sign == "-"
    requires digits != "" && AllDigits(digits)
    ensures var v := if sign == "-" then -(DigitsValue(digits) as int) else DigitsValue(digits) as int;
      Atoi(sign + digits) == if MinInt64 <= v <= MaxInt64 then Some(v) else None
  {
    var s := sign + digits;
    assert s[0] == (if sign == "" then digits[0] else sign[0]);
    if sign == "" {
      assert s == digits;
    } else {
      assert s[1..] == digits;
    }
  }

  /** Atoi accepts nothing but an optional sign followed by digits. */
  lemma AtoiShape(s: string)
    requires Atoi(s).Some?
    ensures (AllDigits(s) && |s| > 0) || (|s| > 1 && (s[0] == '-' || s[0] == '+') && AllDigits(s[1..]))
  {
  }

  /** Text that is not a number is refused: no digits, or anything other than a sign and digits. */
  lemma AtoiRejects(s: string)
    requires forall i | 0 <= i < |s| :: !IsDigit(s[i])
    ensures Atoi(s) == None
  {
    if |s| > 0 && (s[0] == '-' || s[0] == '+') && |s| > 1 {
      assert !IsDigit(s[1..][0]);
    } else if |s| > 0 {
      assert !IsDigit(s[0]);
    }
  }

  /** Go's len() on a string: its size in UTF-8 bytes. */
  function ByteLen(s: string): nat { Utf8Len(s) }

  /** The NIK rule of the forms: longer than 16 bytes is refused. */
  predicate NikTooLong(nik: string) { ByteLen(nik) > 16 }
}

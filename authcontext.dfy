/**
 * The client's session store, AuthProvider of
 * frontend/src/context/AuthContext.tsx: four pieces of state (kaderId,
 * authToken, namaKader, isLoadingAuth) mirrored into three localStorage keys,
 * the one-time rehydration on mount, login, logout and the derived
 * isLoggedIn. localStorage is a map whose operations may throw; which of them
 * throw is fixed for the lifetime of the store.
 */
module AuthContext {
  import opened Wrappers
  import opened Text

  /** A JavaScript number as parseInt produces it: an integer, or NaN. */
  datatype JsNumber = Num(n: int) | NaN

  // ------------------------------------------------------------ parseInt

  /** The white space parseInt skips (the ASCII and Latin-1 part of the ECMAScript set). */
  predicate IsJsSpace(c: char) {
    c == ' ' || c == '\t' || c == '\n' || c == '\r' || c == '\U{000B}' || c == '\U{000C}' || c == '\U{00A0}' || c == '\U{FEFF}'
  }

  predicate AllJsSpace(p: string) {
    forall i | 0 <= i < |p| :: IsJsSpace(p[i])
  }

  /** t is what is left of s once a prefix made only of white space is dropped. */
  predicate DropsLeadingSpace(s: string, t: string)
    requires |t| <= |s|
  {
    t == s[|s| - |t|..] && AllJsSpace(s[..|s| - |t|])
  }

  /** The input with its leading white space removed: a suffix, and what was dropped is white space. */
  function TrimStart(s: string): (t: string)
    ensures |t| <= |s| && DropsLeadingSpace(s, t)
    ensures |t| > 0 ==> !IsJsSpace(t[0])
    decreases |s|
  {
    if |s| > 0 && IsJsSpace(s[0]) then TrimStart(s[1..]) else s
  }

  /** The longest prefix made of decimal digits. */
  function DigitPrefix(s: string): (d: string)
    ensures |d| <= |s| && d == s[..|d|] && AllDigits(d)
    ensures |d| < |s| ==> !IsDigit(s[|d|])
    decreases |s|
  {
    if |s| > 0 && IsDigit(s[0]) then
      var rest := DigitPrefix(s[1..]);
      assert s[1..][..|rest|] == s[1..|rest| + 1];
      [s[0]] + rest
    else ""
  }

  /** parseInt(s, 10): leading white space, an optional sign, the longest run of digits; NaN without a digit. */
  function ParseInt(s: string): (r: JsNumber)
    ensures r.NaN? <==> DigitPrefix(SignStripped(TrimStart(s))) == ""
  {
    var t := TrimStart(s);
    var digits := DigitPrefix(SignStripped(t));
    if digits == "" then NaN
    else if |t| > 0 && t[0] == '-' then Num(-(DigitsValue(digits) as int))
    else Num(DigitsValue(digits))
  }

  function SignStripped(t: string): string {
    if |t| > 0 && (t[0] == '-' || t[0] == '+') then t[1..] else t
  }

  lemma {:induction false} DigitPrefixOfDigits(s: string)
    requires AllDigits(s)
    ensures DigitPrefix(s) == s
    decreases |s|
  {
    if |s| > 0 {
      assert AllDigits(s[1..]) by {
        forall i | 0 <= i < |s[1..]| ensures IsDigit(s[1..][i]) { assert s[1..][i] == s[i + 1]; }
      }
      DigitPrefixOfDigits(s[1..]);
      assert s == [s[0]] + s[1..];
    }
  }

  /** Number.prototype.toString of an integer, read back by parseInt, gives the integer. */
  lemma ParseIntOfToString(i: int)
    ensures ParseInt(IntToString(i)) == Num(i)
  {
    var s := IntToString(i);
    if i < 0 {
      var d := NatToString(-i);
      assert s == "-" + d;
      assert TrimStart(s) == s;
      assert SignStripped(s) == s[1..] == d;
      DigitPrefixOfDigits(d);
    } else {
      assert IsDigit(s[0]);
      assert TrimStart(s) == s;
      assert SignStripped(s) == s;
      DigitPrefixOfDigits(s);
    }
  }

  /**
   * The value parseInt gives: for text made of white space, an optional sign,
   * a non-empty run of digits and a rest that does not go on with a digit, the
   * digits read in base 10, negated after a minus sign. Together with the NaN
   * case of ParseInt this covers every input.
   */
  lemma ParseIntDecomposed(ws: string, sign: string, digits: string, rest: string)
    requires AllJsSpace(ws)
    requires sign == "" || sign == "+" || sign == "-"
    requires digits != "" && AllDigits(digits)
    requires rest == "" || !IsDigit(rest[0])
    ensures ParseInt(ws + sign + digits + rest)
            == Num(if sign == "-" then -(DigitsValue(digits) as int) else DigitsValue(digits))
  {
    var t := sign + (digits + rest);
    assert ws + sign + digits + rest == ws + t;
    SignThenDigits(sign, digits, rest);
    TrimSpaces(ws, t);
    DigitPrefixThen(digits, rest);
    ParseIntOfTrimmed(ws + t, t, digits);
  }

  lemma SignThenDigits(sign: string, digits: string, rest: string)
    requires sign == "" || sign == "+" || sign == "-"
    requires digits != "" && AllDigits(digits)
    ensures var t := sign + (digits + rest);
      |t| > 0 && !IsJsSpace(t[0]) && SignStripped(t) == digits + rest && (t[0] == '-' <==> sign == "-")
  {
    var u := digits + rest;
    var t := sign + u;
    assert u[0] == digits[0];
    if sign == "" {
      assert t == u;
    } else {
      assert t[0] == sign[0] && t[1..] == u;
    }
  }

  lemma ParseIntOfTrimmed(s: string, t: string, digits: string)
    requires TrimStart(s) == t && DigitPrefix(SignStripped(t)) == digits && digits != ""
    ensures ParseInt(s) == Num(if t[0] == '-' then -(DigitsValue(digits) as int) else DigitsValue(digits))
  {
  }

  /** Dropping a prefix of white space in front of text that starts with something else. */
  lemma {:induction false} TrimSpaces(ws: string, t: string)
    requires AllJsSpace(ws)
    requires |t| > 0 && !IsJsSpace(t[0])
    ensures TrimStart(ws + t) == t
    decreases |ws|
  {
    if |ws| > 0 {
      assert (ws + t)[1..] == ws[1..] + t;
      assert IsJsSpace(ws[0]);
      TrimSpaces(ws[1..], t);
    } else {
      assert ws + t == t;
    }
  }

  /** The digit run ends where the digits do. */
  lemma {:induction false} DigitPrefixThen(d: string, rest: string)
    requires AllDigits(d)
    requires rest == "" || !IsDigit(rest[0])
    ensures DigitPrefix(d + rest) == d
    decreases |d|
  {
    if |d| > 0 {
      assert (d + rest)[1..] == d[1..] + rest;
      assert AllDigits(d[1..]) by {
        forall i | 0 <= i < |d[1..]| ensures IsDigit(d[1..][i]) { assert d[1..][i] == d[i + 1]; }
      }
      DigitPrefixThen(d[1..], rest);
      assert d == [d[0]] + d[1..];
    } else {
      assert d + rest == rest;
    }
  }

  /** Text that does not start with white space is left as it is. */
  lemma NoLeadingSpace(s: string)
    requires |s| == 0 || !IsJsSpace(s[0])
    ensures TrimStart(s) == s
  {
  }

  /** Text that has no digit after the white space and the sign gives NaN, and so does the empty string. */
  lemma ParseIntNaN()
    ensures ParseInt("") == NaN
    ensures ParseInt("abc") == NaN
    ensures ParseInt("12abc") == Num(12)
  {
    NoLeadingSpace("");
    NoLeadingSpace("abc");
    NoLeadingSpace("12abc");
    DigitPrefixExamples();
    assert DigitsValue("12") == 12 by { assert "12"[..1] == "1"; }
  }

  lemma DigitPrefixExamples()
    ensures DigitPrefix("abc") == ""
    ensures DigitPrefix("12abc") == "12"
  {
    assert DigitPrefix("2abc") == "2" + DigitPrefix("abc");
  }

  // ----------------------------------------------------------- storage

  /** An operation on one key: getItem, setItem or removeItem. */
  datatype StorageOp = GetOp(key: string) | SetOp(key: string) | RemoveOp(key: string)

  const KaderIdKey := "kaderId"
  const TokenKey := "authToken"
  const NamaKey := "namaKader"
  const SessionKeys: seq<string> := [KaderIdKey, TokenKey, NamaKey]

  /** window.localStorage: the items, and the operations that throw (disabled storage, a full quota). */
  class Storage {
    var items: map<string, string>
    const failing: set<StorageOp>

    constructor(items: map<string, string>, failing: set<StorageOp>)
      ensures this.items == items && this.failing == failing
    {
      this.items := items;
      this.failing := failing;
    }

    /** getItem: null for a missing key; false when it throws. */
    method GetItem(key: string) returns (ok: bool, value: Option<string>)
      ensures ok <==> GetOp(key) !in failing
      ensures ok ==> value == Lookup(items, key)
    {
      if GetOp(key) in failing {
        return false, None;
      }
      ok := true;
      value := if key in items then Some(items[key]) else None;
    }

    method SetItem(key: string, value: string) returns (ok: bool)
      modifies this
      ensures ok <==> SetOp(key) !in failing
      ensures items == if ok then old(items)[key := value] else old(items)
    {
      ok := SetOp(key) !in failing;
      if ok {
        items := items[key := value];
      }
    }

    method RemoveItem(key: string) returns (ok: bool)
      modifies this
      ensures ok <==> RemoveOp(key) !in failing
      ensures items == if ok then old(items) - {key} else old(items)
    {
      ok := RemoveOp(key) !in failing;
      if ok {
        items := items - {key};
      }
    }
  }

  function Lookup(items: map<string, string>, key: string): (v: Option<string>)
    ensures v.Some? <==> key in items
    ensures v.Some? ==> v.value == items[key]
  {
    if key in items then Some(items[key]) else None
  }

  /** setItem for each pair in order inside one try: the first that throws stops the rest. */
  function Written(items: map<string, string>, failing: set<StorageOp>, pairs: seq<(string, string)>): (r: map<string, string>)
    ensures items.Keys <= r.Keys
    ensures forall k | k in items && (forall p | p in pairs :: p.0 != k) :: r[k] == items[k]
    decreases |pairs|
  {
    if |pairs| == 0 || SetOp(pairs[0].0) in failing then items
    else Written(items[pairs[0].0 := pairs[0].1], failing, pairs[1..])
  }

  /** removeItem for each key in order inside one try: the first that throws stops the rest. */
  function Removed(items: map<string, string>, failing: set<StorageOp>, keys: seq<string>): (r: map<string, string>)
    ensures r.Keys <= items.Keys
    ensures forall k | k in r :: r[k] == items[k]
    decreases |keys|
  {
    if |keys| == 0 || RemoveOp(keys[0]) in failing then items
    else Removed(items - {keys[0]}, failing, keys[1..])
  }

  /** Three removals in a row, unfolded. */
  lemma RemovedThree(items: map<string, string>, failing: set<StorageOp>, a: string, b: string, c: string)
    ensures Removed(items, failing, [a, b, c]) ==
      if RemoveOp(a) in failing then items
      else if RemoveOp(b) in failing then items - {a}
      else if RemoveOp(c) in failing then items - {a} - {b}
      else items - {a} - {b} - {c}
  {
    assert [a, b, c][1..] == [b, c] && [b, c][1..] == [c] && [c][1..] == [];
    if RemoveOp(a) !in failing {
      assert Removed(items, failing, [a, b, c]) == Removed(items - {a}, failing, [b, c]);
      if RemoveOp(b) !in failing {
        assert Removed(items - {a}, failing, [b, c]) == Removed(items - {a} - {b}, failing, [c]);
        if RemoveOp(c) !in failing {
          assert Removed(items - {a} - {b}, failing, [c]) == Removed(items - {a} - {b} - {c}, failing, []);
        }
      }
    }
  }

  /** Three writes in a row, unfolded. */
  lemma WrittenThree(items: map<string, string>, failing: set<StorageOp>, a: (string, string), b: (string, string), c: (string, string))
    ensures Written(items, failing, [a, b, c]) ==
      if SetOp(a.0) in failing then items
      else if SetOp(b.0) in failing then items[a.0 := a.1]
      else if SetOp(c.0) in failing then items[a.0 := a.1][b.0 := b.1]
      else items[a.0 := a.1][b.0 := b.1][c.0 := c.1]
  {
    assert [a, b, c][1..] == [b, c] && [b, c][1..] == [c] && [c][1..] == [];
    if SetOp(a.0) !in failing {
      assert Written(items, failing, [a, b, c]) == Written(items[a.0 := a.1], failing, [b, c]);
      if SetOp(b.0) !in failing {
        assert Written(items[a.0 := a.1], failing, [b, c]) == Written(items[a.0 := a.1][b.0 := b.1], failing, [c]);
      }
    }
  }

  /** Removing the same keys again, with the same failing operations, changes nothing. */
  lemma {:induction false} RemovedIdempotent(items: map<string, string>, failing: set<StorageOp>, keys: seq<string>)
    ensures Removed(Removed(items, failing, keys), failing, keys) == Removed(items, failing, keys)
    decreases |keys|
  {
    if |keys| > 0 && RemoveOp(keys[0]) !in failing {
      var smaller := items - {keys[0]};
      var r := Removed(smaller, failing, keys[1..]);
      assert keys[0] !in r;
      assert r - {keys[0]} == r;
      RemovedIdempotent(smaller, failing, keys[1..]);
    }
  }

  /** When no removal throws, none of the keys is left and every other item is kept. */
  lemma {:induction false} RemovedAll(items: map<string, string>, failing: set<StorageOp>, keys: seq<string>)
    requires forall k | k in keys :: RemoveOp(k) !in failing
    ensures Removed(items, failing, keys) == items - set k | k in keys
    decreases |keys|
  {
    if |keys| > 0 {
      RemovedAll(items - {keys[0]}, failing, keys[1..]);
      assert (items - {keys[0]}) - (set k | k in keys[1..]) == items - set k | k in keys;
    }
  }

  // ----------------------------------------------------------- session

  /** The provider's state. */
  datatype Session = Session(kaderId: Option<JsNumber>, authToken: Option<string>, namaKader: Option<string>, isLoadingAuth: bool)

  /** The state before the mount effect has run. */
  const Initial := Session(None, None, None, true)

  /** !!authToken: a string counts only when non-empty. */
  predicate Truthy(s: Option<string>) { s.Some? && s.value != "" }

  /** !!authToken: a token is held and it is not the empty string. */
  predicate IsLoggedIn(s: Session): (b: bool)
    ensures b <==> s.authToken.Some? && |s.authToken.value| > 0
  {
    Truthy(s.authToken)
  }

  /** One of the three getItem calls throws. */
  predicate ReadFails(failing: set<StorageOp>) {
    GetOp(KaderIdKey) in failing || GetOp(TokenKey) in failing || GetOp(NamaKey) in failing
  }

  /**
   * The state after the mount effect: it is filled from storage only when the
   * reads succeed and both the token and the id are non-empty; the name is
   * copied as stored, absent or not. Loading ends on every path.
   */
  function Rehydrated(s: Session, items: map<string, string>, failing: set<StorageOp>): (r: Session)
    ensures !r.isLoadingAuth
    ensures r.authToken != s.authToken || r.kaderId != s.kaderId || r.namaKader != s.namaKader ==>
      !ReadFails(failing) && Truthy(Lookup(items, TokenKey)) && Truthy(Lookup(items, KaderIdKey))
    ensures !ReadFails(failing) && Truthy(Lookup(items, TokenKey)) && Truthy(Lookup(items, KaderIdKey)) ==>
      IsLoggedIn(r) && r.kaderId == Some(ParseInt(items[KaderIdKey]))
      && r.authToken == Lookup(items, TokenKey) && r.namaKader == Lookup(items, NamaKey)
    ensures !(!ReadFails(failing) && Truthy(Lookup(items, TokenKey)) && Truthy(Lookup(items, KaderIdKey))) ==>
      r == s.(isLoadingAuth := false)
  {
    var id := Lookup(items, KaderIdKey);
    var token := Lookup(items, TokenKey);
    if !ReadFails(failing) && Truthy(token) && Truthy(id) then
      Session(Some(ParseInt(id.value)), token, Lookup(items, NamaKey), false)
    else s.(isLoadingAuth := false)
  }

  /**
   * Neither the name nor a numeric id is needed to be logged in after a
   * reload: a stored token with an id parseInt cannot read (such as "abc",
   * by ParseIntNaN) and no name gives a logged-in session whose id is NaN
   * and whose name is absent.
   */
  lemma LoggedInWithoutNameOrNumber(token: string, id: string)
    requires token != "" && id != "" && ParseInt(id).NaN?
    ensures var r := Rehydrated(Initial, map[TokenKey := token, KaderIdKey := id], {});
      IsLoggedIn(r) && r.kaderId == Some(NaN) && r.namaKader == None
  {
    var items := map[TokenKey := token, KaderIdKey := id];
    assert NamaKey != TokenKey && NamaKey != KaderIdKey && KaderIdKey != TokenKey by {
      assert NamaKey[0] == 'n' && TokenKey[0] == 'a' && KaderIdKey[0] == 'k';
    }
    assert NamaKey !in items && items[KaderIdKey] == id;
    assert !ReadFails({});
  }

  /** What the mount effect leaves in storage: a failed read makes it try to remove the three keys. */
  function RehydratedItems(items: map<string, string>, failing: set<StorageOp>): (r: map<string, string>)
    ensures !ReadFails(failing) ==> r == items
    ensures r.Keys <= items.Keys && forall k | k in r :: r[k] == items[k]
  {
    if ReadFails(failing) then Removed(items, failing, SessionKeys) else items
  }

  function LoginPairs(id: int, token: string, nama: string): seq<(string, string)> {
    [(KaderIdKey, IntToString(id)), (TokenKey, token), (NamaKey, nama)]
  }

  /** login sets the three fields whatever storage does; loading is left as it was. */
  function AfterLogin(s: Session, id: int, token: string, nama: string): (r: Session)
    ensures r.isLoadingAuth == s.isLoadingAuth
    ensures IsLoggedIn(r) <==> token != ""
  {
    Session(Some(Num(id)), Some(token), Some(nama), s.isLoadingAuth)
  }

  /** logout clears the three fields whatever storage does; loading is left as it was. */
  function AfterLogout(s: Session): (r: Session)
    ensures r.isLoadingAuth == s.isLoadingAuth && !IsLoggedIn(r)
  {
    Session(None, None, None, s.isLoadingAuth)
  }

  /** A failed read removes the stored session (as far as removal succeeds) and keeps the state empty. */
  lemma ReadFailureWipes(items: map<string, string>, failing: set<StorageOp>)
    requires ReadFails(failing)
    requires forall k | k in SessionKeys :: RemoveOp(k) !in failing
    ensures KaderIdKey !in RehydratedItems(items, failing) && TokenKey !in RehydratedItems(items, failing)
            && NamaKey !in RehydratedItems(items, failing)
    ensures Rehydrated(Initial, items, failing) == Session(None, None, None, false)
  {
    RemovedAll(items, failing, SessionKeys);
  }

  /**
   * Round trip: after a login whose three writes succeed, rehydrating from
   * the same storage yields the same id, token and name, provided the token
   * is non-empty and the reads succeed.
   */
  lemma LoginRehydrateRoundTrip(items: map<string, string>, failing: set<StorageOp>, id: int, token: string, nama: string)
    requires token != ""
    requires SetOp(KaderIdKey) !in failing && SetOp(TokenKey) !in failing && SetOp(NamaKey) !in failing
    requires !ReadFails(failing)
    ensures Rehydrated(Initial, Written(items, failing, LoginPairs(id, token, nama)), failing)
            == Session(Some(Num(id)), Some(token), Some(nama), false)
  {
    var pairs := LoginPairs(id, token, nama);
    var w := Written(items, failing, pairs);
    WrittenThree(items, failing, pairs[0], pairs[1], pairs[2]);
    assert w == items[KaderIdKey := IntToString(id)][TokenKey := token][NamaKey := nama];
    ParseIntOfToString(id);
  }

  /** Logging out twice leaves the same state and storage as logging out once. */
  lemma LogoutIdempotent(s: Session, items: map<string, string>, failing: set<StorageOp>)
    ensures AfterLogout(AfterLogout(s)) == AfterLogout(s)
    ensures Removed(Removed(items, failing, SessionKeys), failing, SessionKeys) == Removed(items, failing, SessionKeys)
  {
    RemovedIdempotent(items, failing, SessionKeys);
  }

  /** AuthProvider. */
  class AuthProvider {
    var kaderId: Option<JsNumber>
    var authToken: Option<string>
    var namaKader: Option<string>
    var isLoadingAuth: bool
    const storage: Storage

    function State(): Session
      reads this
    {
      Session(kaderId, authToken, namaKader, isLoadingAuth)
    }

    /** The useState initial values. */
    constructor(storage: Storage)
      ensures State() == Initial && this.storage == storage
    {
      kaderId := None;
      authToken := None;
      namaKader := None;
      isLoadingAuth := true;
      this.storage := storage;
    }

    /**
     * The mount effect. `escaped` is whether a removeItem in the catch block
     * threw, so that the error leaves the effect after the finally block.
     */
    method Rehydrate() returns (escaped: bool)
      modifies this, storage
      ensures State() == Rehydrated(old(State()), old(storage.items), storage.failing)
      ensures storage.items == RehydratedItems(old(storage.items), storage.failing)
      ensures escaped <==> ReadFails(storage.failing) && exists k | k in SessionKeys :: RemoveOp(k) in storage.failing
    {
      escaped := false;
      var ok1, storedKaderId := storage.GetItem(KaderIdKey);
      var ok2, storedAuthToken, ok3, storedNamaKader := false, None, false, None;
      if ok1 {
        ok2, storedAuthToken := storage.GetItem(TokenKey);
        if ok2 {
          ok3, storedNamaKader := storage.GetItem(NamaKey);
        }
      }
      if !(ok1 && ok2 && ok3) {
        assert ReadFails(storage.failing);
        var removed := storage.RemoveItem(KaderIdKey);
        if removed {
          removed := storage.RemoveItem(TokenKey);
          if removed {
            removed := storage.RemoveItem(NamaKey);
          }
        }
        escaped := !removed;
        RemovedThree(old(storage.items), storage.failing, KaderIdKey, TokenKey, NamaKey);
      } else {
        if Truthy(storedAuthToken) && Truthy(storedKaderId) {
          kaderId := Some(ParseInt(storedKaderId.value));
          authToken := storedAuthToken;
          namaKader := storedNamaKader;
        }
      }
      isLoadingAuth := false;
    }

    method Login(id: int, token: string, nama: string)
      modifies this, storage
      ensures State() == AfterLogin(old(State()), id, token, nama)
      ensures storage.items == Written(old(storage.items), storage.failing, LoginPairs(id, token, nama))
    {
      kaderId := Some(Num(id));
      authToken := Some(token);
      namaKader := Some(nama);
      WrittenThree(old(storage.items), storage.failing, (KaderIdKey, IntToString(id)), (TokenKey, token), (NamaKey, nama));
      var ok := storage.SetItem(KaderIdKey, IntToString(id));
      if ok {
        ok := storage.SetItem(TokenKey, token);
        if ok {
          ok := storage.SetItem(NamaKey, nama);
        }
      }
    }

    method Logout()
      modifies this, storage
      ensures State() == AfterLogout(old(State()))
      ensures storage.items == Removed(old(storage.items), storage.failing, SessionKeys)
    {
      kaderId := None;
      authToken := None;
      namaKader := None;
      RemovedThree(old(storage.items), storage.failing, KaderIdKey, TokenKey, NamaKey);
      var ok := storage.RemoveItem(KaderIdKey);
      if ok {
        ok := storage.RemoveItem(TokenKey);
        if ok {
          ok := storage.RemoveItem(NamaKey);
        }
      }
    }

    predicate LoggedIn()
      reads this
    {
      IsLoggedIn(State())
    }
  }
}

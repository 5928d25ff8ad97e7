/** The user schema (src/models/user.model.js): the setters Mongoose applies to
    the stored strings, the password validator, the address default, the
    `hasSetNonDefaultAddress` method and the `isEmailTaken` static. */
module UserModel {
  import opened Errors

  /** `config.default_address`: the sentinel an address takes when none is given. */
  const DefaultAddress: string := "ADDRESS_NOT_SET"

  /** The `minlength` of the password path (the misspelt `minlenth` key is not an option Mongoose knows). */
  const MinPasswordLength := 8

  // ---------------------------------------------------------------------------
  // The `trim: true` and `lowercase: true` setters
  // ---------------------------------------------------------------------------

  /** The characters String.prototype.trim removes: ECMAScript WhiteSpace and LineTerminator. */
  predicate IsWhitespace(c: char)
  {
    || c == '\t' || c == '\n' || c == '\U{000B}' || c == '\U{000C}' || c == '\r' || c == ' '
    || c == '\U{00A0}' || c == '\U{1680}' || ('\U{2000}' <= c <= '\U{200A}')
    || c == '\U{2028}' || c == '\U{2029}' || c == '\U{202F}' || c == '\U{205F}'
    || c == '\U{3000}' || c == '\U{FEFF}'
  }

  /** Drops the leading whitespace: the result is the suffix of `s` that starts at its first non-whitespace character. */
  function TrimStart(s: string): (r: string)
    ensures |r| <= |s| && r == s[|s| - |r|..]
    ensures forall i :: 0 <= i < |s| - |r| ==> IsWhitespace(s[i])
    ensures r == [] || !IsWhitespace(r[0])
  {
    if s != [] && IsWhitespace(s[0]) then TrimStart(s[1..]) else s
  }

  /** Drops the trailing whitespace: the result is the prefix of `s` that ends at its last non-whitespace character. */
  function TrimEnd(s: string): (r: string)
    ensures |r| <= |s| && r == s[..|r|]
    ensures forall i :: |r| <= i < |s| ==> IsWhitespace(s[i])
    ensures r == [] || !IsWhitespace(r[|r| - 1])
  {
    if s != [] && IsWhitespace(s[|s| - 1]) then TrimEnd(s[..|s| - 1]) else s
  }

  /** String.prototype.trim: neither end of the result is whitespace. */
  function Trim(s: string): (r: string)
    ensures |r| <= |s|
    ensures r == [] || (!IsWhitespace(r[0]) && !IsWhitespace(r[|r| - 1]))
  {
    TrimEnd(TrimStart(s))
  }

  /** A string whose two ends are not whitespace is left as it is by Trim. */
  lemma TrimKeepsTrimmed(s: string)
    requires s == [] || (!IsWhitespace(s[0]) && !IsWhitespace(s[|s| - 1]))
    ensures Trim(s) == s
  {
  }

  /** Trimming twice is trimming once. */
  lemma TrimIdempotent(s: string)
    ensures Trim(Trim(s)) == Trim(s)
  {
    TrimKeepsTrimmed(Trim(s));
  }

  predicate IsAsciiUpper(c: char) { 'A' <= c <= 'Z' }

  function LowerChar(c: char): (d: char)
    ensures !IsAsciiUpper(d)
    ensures IsAsciiUpper(c) ==> 'a' <= d <= 'z' && d as int == c as int + 32
    ensures !IsAsciiUpper(c) ==> d == c
    ensures IsWhitespace(d) <==> IsWhitespace(c)
  {
    if IsAsciiUpper(c) then (c as int - 'A' as int + 'a' as int) as char else c
  }

  /** String.prototype.toLowerCase, on the ASCII letters: no upper-case ASCII letter is left,
      and the string keeps its length and every other character. */
  function ToLowerCase(s: string): (r: string)
    ensures |r| == |s|
    ensures forall i :: 0 <= i < |s| ==> r[i] == LowerChar(s[i])
  {
    if s == [] then [] else [LowerChar(s[0])] + ToLowerCase(s[1..])
  }

  /** Lower-casing is idempotent. */
  lemma LowerIdempotent(s: string)
    ensures ToLowerCase(ToLowerCase(s)) == ToLowerCase(s)
  {
  }

  /** Lower-casing commutes with slicing. */
  lemma LowerSlice(s: string, i: nat, j: nat)
    requires i <= j <= |s|
    ensures ToLowerCase(s[i..j]) == ToLowerCase(s)[i..j]
  {
  }

  lemma {:induction false} TrimStartLower(s: string)
    ensures TrimStart(ToLowerCase(s)) == ToLowerCase(TrimStart(s))
    decreases |s|
  {
    if s != [] {
      var l := ToLowerCase(s);
      assert IsWhitespace(l[0]) <==> IsWhitespace(s[0]);
      if IsWhitespace(s[0]) {
        var rest := s[1..];
        LowerSlice(s, 1, |s|);
        assert l[1..] == ToLowerCase(rest);
        assert TrimStart(l) == TrimStart(ToLowerCase(rest));
        TrimStartLower(rest);
        assert TrimStart(s) == TrimStart(rest);
      } else {
        assert TrimStart(l) == l && TrimStart(s) == s;
      }
    }
  }

  lemma {:induction false} TrimEndLower(s: string)
    ensures TrimEnd(ToLowerCase(s)) == ToLowerCase(TrimEnd(s))
    decreases |s|
  {
    if s != [] {
      var l := ToLowerCase(s);
      assert IsWhitespace(l[|s| - 1]) <==> IsWhitespace(s[|s| - 1]);
      if IsWhitespace(s[|s| - 1]) {
        var init := s[..|s| - 1];
        LowerSlice(s, 0, |s| - 1);
        assert l[..|l| - 1] == ToLowerCase(init);
        assert TrimEnd(l) == TrimEnd(ToLowerCase(init));
        TrimEndLower(init);
        assert TrimEnd(s) == TrimEnd(init);
      } else {
        assert TrimEnd(l) == l && TrimEnd(s) == s;
      }
    }
  }

  /** The two setters of the email path may run in either order: trimming and lower-casing commute. */
  lemma TrimLowerCommute(s: string)
    ensures Trim(ToLowerCase(s)) == ToLowerCase(Trim(s))
  {
    TrimStartLower(s);
    TrimEndLower(TrimStart(s));
  }

  /** The stored form of an email: trimmed and lower-cased. */
  function NormalizeEmail(email: string): (r: string)
    ensures |r| <= |email|
    ensures r == [] || (!IsWhitespace(r[0]) && !IsWhitespace(r[|r| - 1]))
    ensures forall i :: 0 <= i < |r| ==> !IsAsciiUpper(r[i])
  {
    var t := Trim(email);
    var r := ToLowerCase(t);
    assert r != [] ==> r[0] == LowerChar(t[0]) && r[|r| - 1] == LowerChar(t[|t| - 1]);
    r
  }

  /** Storing an already stored email leaves it as it is. */
  lemma NormalizeEmailIdempotent(email: string)
    ensures NormalizeEmail(NormalizeEmail(email)) == NormalizeEmail(email)
  {
    var t := Trim(email);
    TrimLowerCommute(t);
    TrimIdempotent(email);
    LowerIdempotent(t);
  }

  // ---------------------------------------------------------------------------
  // The password path: `trim`, `minlength: 8` and the custom validator
  // ---------------------------------------------------------------------------

  predicate IsDigit(c: char) { '0' <= c <= '9' }

  predicate IsAsciiLetter(c: char) { 'a' <= c <= 'z' || 'A' <= c <= 'Z' }

  /** The custom validator: both /\d/ and /[a-zA-Z]/ match somewhere in the value. */
  predicate PasswordRule(p: string)
  {
    && (exists i :: 0 <= i < |p| && IsDigit(p[i]))
    && (exists i :: 0 <= i < |p| && IsAsciiLetter(p[i]))
  }

  /** Every validator of the password path accepts the (already trimmed) value. */
  predicate PasswordAccepted(p: string)
  {
    |p| >= MinPasswordLength && PasswordRule(p)
  }

  /** The schema paths whose validators reject a document, given the values the setters produced,
      in schema order: `name`, `email` and `password` are required, and the password must be accepted. */
  function FailedPaths(name: string, email: string, password: string): (paths: seq<string>)
    ensures paths == [] <==> name != [] && email != [] && PasswordAccepted(password)
  {
    (if name == [] then ["name"] else [])
    + (if email == [] then ["email"] else [])
    + (if !PasswordAccepted(password) then ["password"] else [])
  }

  predicate IsBcryptChar(c: char) { c == '.' || c == '/' || IsAsciiLetter(c) || IsDigit(c) }

  /** The shape of what bcrypt.hash(password, 10) produces: a "$2a$10$"-style prefix,
      then 53 characters of bcrypt's base-64 alphabet. */
  predicate IsBcryptHash(h: string)
  {
    && |h| == 60
    && h[0] == '$' && h[1] == '2' && (h[2] == 'a' || h[2] == 'b' || h[2] == 'y')
    && h[3] == '$' && h[4] == '1' && h[5] == '0' && h[6] == '$'
    && forall i :: 7 <= i < 60 ==> IsBcryptChar(h[i])
  }

  /** Neither end of a bcrypt hash is whitespace: it starts with '$' and ends in bcrypt's alphabet. */
  lemma BcryptHashEnds(h: string)
    requires IsBcryptHash(h)
    ensures !IsWhitespace(h[0]) && !IsWhitespace(h[|h| - 1])
  {
    assert IsBcryptChar(h[59]);
  }

  /** A bcrypt hash is long enough and holds a digit and a letter: the "2" and the "a", "b" or "y"
      of its version. */
  lemma BcryptHashHasDigitAndLetter(h: string)
    requires IsBcryptHash(h)
    ensures PasswordAccepted(h)
  {
    assert IsDigit(h[1]) && IsAsciiLetter(h[2]);
  }

  /** The password validators see the stored value, which is the hash: any bcrypt hash passes them,
      whatever password it was made from. */
  lemma BcryptHashPassesPasswordRule(h: string)
    requires IsBcryptHash(h)
    ensures Trim(h) == h
    ensures PasswordAccepted(Trim(h))
  {
    BcryptHashEnds(h);
    BcryptHashHasDigitAndLetter(h);
    TrimKeepsTrimmed(h);
  }

  // ---------------------------------------------------------------------------
  // The user document
  // ---------------------------------------------------------------------------

  /** A stored user. Identity, name, email and password never change after creation;
      the wallet and the address are updated in place by the services. `walletMoney` is a
      path of mixed type with no default: it holds a number, or None for what is not one
      (undefined when the registration body had no wallet, NaN after arithmetic on that). */
  class User {
    const id: nat
    const name: string
    const email: string
    const password: string
    var walletMoney: Option<int>
    var address: string

    constructor (id: nat, name: string, email: string, password: string, walletMoney: Option<int>, address: string)
      ensures this.id == id && this.name == name && this.email == email && this.password == password
      ensures this.walletMoney == walletMoney && this.address == address
    {
      this.id := id;
      this.name := name;
      this.email := email;
      this.password := password;
      this.walletMoney := walletMoney;
      this.address := address;
    }

    /** `hasSetNonDefaultAddress`: the address is not the default sentinel. */
    predicate HasSetNonDefaultAddress()
      reads this
    {
      address != DefaultAddress
    }
  }

  /** The `isEmailTaken` static: some stored user has the email, as Mongoose casts the query
      value through the path's setters before comparing. */
  predicate IsEmailTaken(users: seq<User>, email: string)
  {
    exists i :: 0 <= i < |users| && users[i].email == NormalizeEmail(email)
  }

  /** Asking with an email as it is stored gives the same answer as asking with the raw email,
      since the query value goes through the same setters. */
  lemma EmailTakenByStoredForm(users: seq<User>, email: string)
    ensures IsEmailTaken(users, NormalizeEmail(email)) <==> IsEmailTaken(users, email)
  {
    var stored := NormalizeEmail(email);
    NormalizeEmailIdempotent(email);
    assert NormalizeEmail(stored) == stored;
  }
}

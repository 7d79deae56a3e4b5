/** The signed-in user's profile and the text it is kept as in browser
    storage: `JSON.stringify(user)` and `JSON.parse(text)`, restricted to
    the fields the storefront reads. Strings are JSON string literals
    escaping `"` and `\`; a missing field is written as `null`. */
module UserJson {
  import opened Wrappers

  datatype Address = Address(
    street: Option<string>,
    city: Option<string>,
    state: Option<string>,
    zipCode: Option<string>)

  datatype User = User(
    name: Option<string>,
    email: Option<string>,
    phone: Option<string>,
    address: Option<Address>)

  // ---------------------------------------------------------------------
  // Writing

  /** The characters of a JSON string literal between its quotes. */
  function Escape(s: string): string {
    if s == [] then []
    else (if s[0] == '"' || s[0] == '\\' then ['\\', s[0]] else [s[0]]) + Escape(s[1..])
  }

  /** A JSON string literal for `s`, followed by `rest`. */
  function WriteString(s: string, rest: string): string {
    "\"" + (Escape(s) + ("\"" + rest))
  }

  /** An optional string (`null` when missing), followed by `rest`. */
  function WriteOpt(o: Option<string>, rest: string): string {
    match o
    case None => "null" + rest
    case Some(s) => WriteString(s, rest)
  }

  function WriteAddress(a: Option<Address>, rest: string): string {
    match a
    case None => "null" + rest
    case Some(a) =>
      "{\"street\":" + WriteOpt(a.street,
      ",\"city\":" + WriteOpt(a.city,
      ",\"state\":" + WriteOpt(a.state,
      ",\"zipCode\":" + WriteOpt(a.zipCode, "}" + rest))))
  }

  /** `JSON.stringify(user)`. */
  function Serialize(u: User): (text: string)
    ensures text != [] && text[0] == '{'
  {
    "{\"name\":" + WriteOpt(u.name,
    ",\"email\":" + WriteOpt(u.email,
    ",\"phone\":" + WriteOpt(u.phone,
    ",\"address\":" + WriteAddress(u.address, "}"))))
  }

  // ---------------------------------------------------------------------
  // Reading: each reader returns the value read and the text after it,
  // or None where `JSON.parse` would throw.

  /** Consume the literal `lit` at the front of `t`. */
  function Expect(lit: string, t: string): (r: Option<string>)
    ensures r.Some? ==> t == lit + r.value
  {
    if lit <= t then Some(t[|lit|..]) else None
  }

  /** The body of a string literal up to its closing quote. */
  function ReadEscaped(t: string): Option<(string, string)> {
    if t == [] then None
    else if t[0] == '"' then Some(([], t[1..]))
    else if t[0] == '\\' then
      if |t| < 2 then None
      else
        var p :- ReadEscaped(t[2..]);
        Some(([t[1]] + p.0, p.1))
    else
      var p :- ReadEscaped(t[1..]);
      Some(([t[0]] + p.0, p.1))
  }

  function ReadString(t: string): Option<(string, string)> {
    var body :- Expect("\"", t);
    ReadEscaped(body)
  }

  function ReadOpt(t: string): Option<(Option<string>, string)> {
    if "null" <= t then Some((None, t[4..]))
    else
      var p :- ReadString(t);
      Some((Some(p.0), p.1))
  }

  function ReadAddress(t: string): Option<(Option<Address>, string)> {
    if "null" <= t then Some((None, t[4..]))
    else
      var t1 :- Expect("{\"street\":", t);
      var street :- ReadOpt(t1);
      var t2 :- Expect(",\"city\":", street.1);
      var city :- ReadOpt(t2);
      var t3 :- Expect(",\"state\":", city.1);
      var state :- ReadOpt(t3);
      var t4 :- Expect(",\"zipCode\":", state.1);
      var zip :- ReadOpt(t4);
      var t5 :- Expect("}", zip.1);
      Some((Some(Address(street.0, city.0, state.0, zip.0)), t5))
  }

  /** `JSON.parse(text)` of a stored profile; None where it would throw. */
  function Parse(text: string): Option<User> {
    var t1 :- Expect("{\"name\":", text);
    var name :- ReadOpt(t1);
    var t2 :- Expect(",\"email\":", name.1);
    var email :- ReadOpt(t2);
    var t3 :- Expect(",\"phone\":", email.1);
    var phone :- ReadOpt(t3);
    var t4 :- Expect(",\"address\":", phone.1);
    var address :- ReadAddress(t4);
    if address.1 == "}" then Some(User(name.0, email.0, phone.0, address.0)) else None
  }

  // ---------------------------------------------------------------------
  // Round trip

  lemma ExpectLiteral(lit: string, rest: string)
    ensures Expect(lit, lit + rest) == Some(rest)
  {
    assert (lit + rest)[..|lit|] == lit;
    assert (lit + rest)[|lit|..] == rest;
  }

  /** A text starting with a quote or a brace is not `null`. */
  lemma NotNull(t: string)
    requires t != [] && t[0] != 'n'
    ensures !("null" <= t)
  {
    assert t[0] != "null"[0];
  }

  /** One character of a string body, escaped or not, then the rest. */
  lemma ReadEscapedStep(c: char, tail: string)
    requires ReadEscaped(tail).Some?
    ensures var p := ReadEscaped(tail).value;
      ReadEscaped(Escape([c]) + tail) == Some(([c] + p.0, p.1))
  {
    assert Escape([c]) == (if c == '"' || c == '\\' then ['\\', c] else [c]) by {
      assert [c][1..] == [];
    }
    var t := Escape([c]) + tail;
    if c == '"' || c == '\\' {
      assert t == ['\\', c] + tail;
      assert t[2..] == tail;
    } else {
      assert t == [c] + tail;
      assert t[1..] == tail;
    }
  }

  lemma {:induction false} ReadEscapedRoundTrip(s: string, rest: string)
    ensures ReadEscaped(Escape(s) + ("\"" + rest)) == Some((s, rest))
  {
    if s == [] {
      assert Escape(s) + ("\"" + rest) == "\"" + rest;
      assert ("\"" + rest)[1..] == rest;
    } else {
      var tail := Escape(s[1..]) + ("\"" + rest);
      ReadEscapedRoundTrip(s[1..], rest);
      assert Escape(s) == Escape([s[0]]) + Escape(s[1..]) by {
        assert [s[0]][1..] == [];
      }
      assert Escape(s) + ("\"" + rest) == Escape([s[0]]) + tail;
      ReadEscapedStep(s[0], tail);
      assert [s[0]] + s[1..] == s;
    }
  }

  lemma ReadOptRoundTrip(o: Option<string>, rest: string)
    ensures ReadOpt(WriteOpt(o, rest)) == Some((o, rest))
  {
    match o
    case None =>
      ExpectLiteral("null", rest);
    case Some(s) =>
      var t := WriteString(s, rest);
      assert t[0] == '"';
      NotNull(t);
      ExpectLiteral("\"", Escape(s) + ("\"" + rest));
      ReadEscapedRoundTrip(s, rest);
  }

  lemma ReadAddressRoundTrip(a: Option<Address>, rest: string)
    ensures ReadAddress(WriteAddress(a, rest)) == Some((a, rest))
  {
    match a
    case None =>
      ExpectLiteral("null", rest);
    case Some(a) =>
      var t := WriteAddress(Some(a), rest);
      var z := WriteOpt(a.zipCode, "}" + rest);
      var st := WriteOpt(a.state, ",\"zipCode\":" + z);
      var c := WriteOpt(a.city, ",\"state\":" + st);
      var s1 := WriteOpt(a.street, ",\"city\":" + c);
      assert t == "{\"street\":" + s1;
      NotNull(t);
      ExpectLiteral("{\"street\":", s1);
      ReadOptRoundTrip(a.street, ",\"city\":" + c);
      ExpectLiteral(",\"city\":", c);
      ReadOptRoundTrip(a.city, ",\"state\":" + st);
      ExpectLiteral(",\"state\":", st);
      ReadOptRoundTrip(a.state, ",\"zipCode\":" + z);
      ExpectLiteral(",\"zipCode\":", z);
      ReadOptRoundTrip(a.zipCode, "}" + rest);
      ExpectLiteral("}", rest);
  }

  /** `JSON.parse(JSON.stringify(user))` gives the user back. */
  lemma ParseSerialize(u: User)
    ensures Parse(Serialize(u)) == Some(u)
  {
    var ad := WriteAddress(u.address, "}");
    var ph := WriteOpt(u.phone, ",\"address\":" + ad);
    var em := WriteOpt(u.email, ",\"phone\":" + ph);
    var nm := WriteOpt(u.name, ",\"email\":" + em);
    assert Serialize(u) == "{\"name\":" + nm;
    ExpectLiteral("{\"name\":", nm);
    ReadOptRoundTrip(u.name, ",\"email\":" + em);
    ExpectLiteral(",\"email\":", em);
    ReadOptRoundTrip(u.email, ",\"phone\":" + ph);
    ExpectLiteral(",\"phone\":", ph);
    ReadOptRoundTrip(u.phone, ",\"address\":" + ad);
    ExpectLiteral(",\"address\":", ad);
    ReadAddressRoundTrip(u.address, "}");
  }
}

/**
 * The user record stored under the "user" key. The application writes it with
 * JSON.stringify and reads it with JSON.parse; this module stands in for that
 * pair with a small escaped text format that has the same two properties the
 * application depends on: what is written reads back unchanged, and text that
 * is not a valid encoding is reported as a parse failure (JSON.parse throws).
 */
module UserCodec {
  import opened Wrappers

  /** The fields of a user record the dashboard reads. Non-string field values are not modelled. */
  datatype Profile = Profile(role: Option<string>, name: Option<string>, image: Option<string>)

  /** A parsed JSON value where a user record is expected: a falsy value
      (null, false, 0, ""), some other truthy non-object value, or a record. */
  datatype JsonUser = Falsy | OtherTruthy | Record(profile: Profile) {

    predicate Truthy() {
      !Falsy?
    }

    /** `user.role`: only a record has one. */
    function Role(): Option<string> {
      if Record? then profile.role else None
    }
  }

  datatype ParseResult = Malformed | Parsed(value: JsonUser)

  /** Escapes the terminator ';' and the escape character itself. */
  function Escape(s: string): string {
    if s == [] then []
    else (if s[0] == '\\' || s[0] == ';' then ['\\', s[0]] else [s[0]]) + Escape(s[1..])
  }

  /** Reads escaped text up to the first unescaped ';'; gives the text and what follows. */
  function ReadEscaped(s: string): Option<(string, string)>
    decreases |s|
  {
    if s == [] then None
    else if s[0] == ';' then Some(([], s[1..]))
    else if s[0] == '\\' then
      if |s| < 2 then None
      else match ReadEscaped(s[2..])
        case None => None
        case Some(p) => Some(([s[1]] + p.0, p.1))
    else match ReadEscaped(s[1..])
      case None => None
      case Some(p) => Some(([s[0]] + p.0, p.1))
  }

  lemma {:induction false} ReadEscapedEscape(v: string, rest: string)
    ensures ReadEscaped(Escape(v) + ";" + rest) == Some((v, rest))
  {
    if v != [] {
      ReadEscapedEscape(v[1..], rest);
      var tail := Escape(v[1..]) + ";" + rest;
      if v[0] == '\\' || v[0] == ';' {
        assert Escape(v) + ";" + rest == ['\\', v[0]] + tail;
        assert (['\\', v[0]] + tail)[2..] == tail;
      } else {
        assert Escape(v) + ";" + rest == [v[0]] + tail;
        assert ([v[0]] + tail)[1..] == tail;
      }
      assert [v[0]] + v[1..] == v;
    }
  }

  function EncodeField(f: Option<string>): string {
    match f
    case None => "-"
    case Some(v) => "+" + Escape(v) + ";"
  }

  function ReadField(s: string): Option<(Option<string>, string)> {
    if s == [] then None
    else if s[0] == '-' then Some((None, s[1..]))
    else if s[0] == '+' then
      match ReadEscaped(s[1..])
      case None => None
      case Some(p) => Some((Some(p.0), p.1))
    else None
  }

  lemma ReadFieldEncode(f: Option<string>, rest: string)
    ensures ReadField(EncodeField(f) + rest) == Some((f, rest))
  {
    match f
    case None =>
      assert (EncodeField(f) + rest)[1..] == rest;
    case Some(v) =>
      assert (EncodeField(f) + rest)[1..] == Escape(v) + ";" + rest;
      ReadEscapedEscape(v, rest);
  }

  /** Stands for JSON.stringify of a user value; never the empty string. */
  function Serialize(u: JsonUser): (s: string)
    ensures s != ""
  {
    match u
    case Falsy => "n"
    case OtherTruthy => "t"
    case Record(p) => "o" + EncodeField(p.role) + EncodeField(p.name) + EncodeField(p.image)
  }

  /** Stands for JSON.parse: Malformed where JSON.parse throws. */
  function Parse(s: string): (r: ParseResult)
    ensures s == "" ==> r == Malformed
  {
    if s == "n" then Parsed(Falsy)
    else if s == "t" then Parsed(OtherTruthy)
    else if s != [] && s[0] == 'o' then
      match ReadField(s[1..])
      case None => Malformed
      case Some(f1) =>
        match ReadField(f1.1)
        case None => Malformed
        case Some(f2) =>
          match ReadField(f2.1)
          case None => Malformed
          case Some(f3) =>
            if f3.1 == [] then Parsed(Record(Profile(f1.0, f2.0, f3.0))) else Malformed
    else Malformed
  }

  /** What is stored reads back unchanged. */
  lemma ParseSerialize(u: JsonUser)
    ensures Parse(Serialize(u)) == Parsed(u)
  {
    if u.Record? {
      var p := u.profile;
      var s := Serialize(u);
      var e1, e2, e3 := EncodeField(p.role), EncodeField(p.name), EncodeField(p.image);
      assert s == "o" + (e1 + (e2 + e3));
      assert |s| > 1 && s[0] == 'o';
      assert s[1..] == e1 + (e2 + e3);
      ReadFieldEncode(p.role, e2 + e3);
      ReadFieldEncode(p.name, e3);
      assert e3 + "" == e3;
      ReadFieldEncode(p.image, "");
    }
  }
}

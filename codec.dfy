/**
 * The text form in which a UserProfile is stored: a JSON object whose five
 * members are strings, written in the order in which a profile is built at
 * sign-in. Inside a string, `"` and `\` are written with a backslash before
 * them; every other character is written as itself.
 */
module Codec {
  import opened Wrappers
  import opened Profile

  /** One character as it appears inside a quoted string. */
  function EscapeChar(c: char): string
  {
    if c == '"' || c == '\\' then ['\\', c] else [c]
  }

  /** The characters of a string as they appear between its quotes. */
  function Escape(s: string): string
    decreases |s|
  {
    if s == [] then [] else EscapeChar(s[0]) + Escape(s[1..])
  }

  /**
   * Reads the inside of a quoted string whose opening quote has already been
   * consumed: undoes the escapes up to the first unescaped quote and returns
   * the string read together with the text after that quote.
   */
  function Unescape(t: string): Option<(string, string)>
    decreases |t|
  {
    if t == [] then None
    else if t[0] == '"' then Some(([], t[1..]))
    else if t[0] == '\\' then
      if |t| >= 2 && (t[1] == '"' || t[1] == '\\') then
        match Unescape(t[2..])
        case None => None
        case Some(p) => Some(([t[1]] + p.0, p.1))
      else None
    else
      match Unescape(t[1..])
      case None => None
      case Some(p) => Some(([t[0]] + p.0, p.1))
  }

  /** Consumes a fixed piece of text at the front of `t`. */
  function Literal(lit: string, t: string): Option<string>
  {
    if lit <= t then Some(t[|lit|..]) else None
  }

  /** The text that opens a member: its quoted key, a colon and the value's opening quote. */
  function MemberHead(key: string): string
  {
    "\"" + key + "\":\""
  }

  /** A member `"key":"value"`. */
  function Member(key: string, value: string): string
  {
    MemberHead(key) + Escape(value) + "\""
  }

  /** Reads a member with the given key; returns its value and the text after it. */
  function ReadMember(key: string, t: string): Option<(string, string)>
  {
    match Literal(MemberHead(key), t)
    case None => None
    case Some(rest) => Unescape(rest)
  }

  /** The stored text of a profile (this model's JSON.stringify of a UserProfile). */
  function Encode(u: UserProfile): string
  {
    var joinDate := Member("joinDate", u.joinDate) + "}";
    var avatar := Member("avatar", u.avatar) + ("," + joinDate);
    var location := Member("location", u.location) + ("," + avatar);
    var phone := Member("phoneNumber", u.phoneNumber) + ("," + location);
    "{" + (Member("name", u.name) + ("," + phone))
  }

  /** The profile a stored text denotes, or None: this reads back exactly the
      texts Encode writes (see EncodeDecode), which is not the same set of
      texts that JSON.parse accepts. */
  function Decode(t: string): Option<UserProfile>
  {
    var t1 :- Literal("{", t);
    var name :- ReadMember("name", t1);
    var t2 :- Literal(",", name.1);
    var phone :- ReadMember("phoneNumber", t2);
    var t3 :- Literal(",", phone.1);
    var location :- ReadMember("location", t3);
    var t4 :- Literal(",", location.1);
    var avatar :- ReadMember("avatar", t4);
    var t5 :- Literal(",", avatar.1);
    var joinDate :- ReadMember("joinDate", t5);
    if joinDate.1 == "}" then Some(UserProfile(name.0, location.0, avatar.0, joinDate.0, phone.0))
    else None
  }

  lemma LiteralFront(lit: string, rest: string)
    ensures Literal(lit, lit + rest) == Some(rest)
  {
  }

  lemma LiteralSplits(lit: string, t: string)
    requires Literal(lit, t).Some?
    ensures t == lit + Literal(lit, t).value
  {
  }

  /** Reading back an escaped string stops exactly at its closing quote. */
  lemma {:induction false} UnescapeEscape(s: string, rest: string)
    ensures Unescape(Escape(s) + "\"" + rest) == Some((s, rest))
    decreases |s|
  {
    var t := Escape(s) + "\"" + rest;
    if s == [] {
      assert t == "\"" + rest;
    } else {
      var tail := Escape(s[1..]) + "\"" + rest;
      UnescapeEscape(s[1..], rest);
      assert t == EscapeChar(s[0]) + tail;
      if s[0] == '"' || s[0] == '\\' {
        assert t[0] == '\\' && t[1] == s[0] && t[2..] == tail;
      } else {
        assert t[0] == s[0] && t[1..] == tail;
      }
      assert [s[0]] + s[1..] == s;
    }
  }

  /** Whatever Unescape accepts is an escaped string, its closing quote and the rest. */
  lemma {:induction false} UnescapeOnlyEscaped(t: string)
    requires Unescape(t).Some?
    ensures t == Escape(Unescape(t).value.0) + "\"" + Unescape(t).value.1
    decreases |t|
  {
    var p := Unescape(t).value;
    if t[0] == '"' {
      assert p.0 == [];
      assert t == [t[0]] + t[1..];
    } else if t[0] == '\\' {
      var q := Unescape(t[2..]).value;
      UnescapeOnlyEscaped(t[2..]);
      assert p.0 == [t[1]] + q.0 && p.1 == q.1;
      assert p.0[0] == t[1] && p.0[1..] == q.0;
      assert Escape(p.0) == ['\\', t[1]] + Escape(q.0);
      assert t == ['\\', t[1]] + t[2..];
    } else {
      var q := Unescape(t[1..]).value;
      UnescapeOnlyEscaped(t[1..]);
      assert p.0 == [t[0]] + q.0 && p.1 == q.1;
      assert p.0[0] == t[0] && p.0[1..] == q.0;
      assert Escape(p.0) == [t[0]] + Escape(q.0);
      assert t == [t[0]] + t[1..];
    }
  }

  lemma ReadMemberFront(key: string, value: string, rest: string)
    ensures ReadMember(key, Member(key, value) + rest) == Some((value, rest))
  {
    assert Member(key, value) + rest == MemberHead(key) + (Escape(value) + "\"" + rest);
    LiteralFront(MemberHead(key), Escape(value) + "\"" + rest);
    UnescapeEscape(value, rest);
  }

  lemma ReadMemberSplits(key: string, t: string)
    requires ReadMember(key, t).Some?
    ensures t == Member(key, ReadMember(key, t).value.0) + ReadMember(key, t).value.1
  {
    LiteralSplits(MemberHead(key), t);
    var rest := Literal(MemberHead(key), t).value;
    UnescapeOnlyEscaped(rest);
  }

  /** A profile is read back from its stored text unchanged. */
  lemma DecodeEncode(u: UserProfile)
    ensures Decode(Encode(u)) == Some(u)
  {
    var r5 := Member("joinDate", u.joinDate) + "}";
    var r4 := Member("avatar", u.avatar) + ("," + r5);
    var r3 := Member("location", u.location) + ("," + r4);
    var r2 := Member("phoneNumber", u.phoneNumber) + ("," + r3);
    var r1 := Member("name", u.name) + ("," + r2);
    LiteralFront("{", r1);
    ReadMemberFront("name", u.name, "," + r2);
    LiteralFront(",", r2);
    ReadMemberFront("phoneNumber", u.phoneNumber, "," + r3);
    LiteralFront(",", r3);
    ReadMemberFront("location", u.location, "," + r4);
    LiteralFront(",", r4);
    ReadMemberFront("avatar", u.avatar, "," + r5);
    LiteralFront(",", r5);
    ReadMemberFront("joinDate", u.joinDate, "}");
  }

  /** The only texts read as a profile are the stored texts of profiles. */
  lemma EncodeDecode(t: string)
    requires Decode(t).Some?
    ensures Encode(Decode(t).value) == t
  {
    LiteralSplits("{", t);
    var t1 := Literal("{", t).value;
    ReadMemberSplits("name", t1);
    var name := ReadMember("name", t1).value;
    LiteralSplits(",", name.1);
    var t2 := Literal(",", name.1).value;
    ReadMemberSplits("phoneNumber", t2);
    var phone := ReadMember("phoneNumber", t2).value;
    LiteralSplits(",", phone.1);
    var t3 := Literal(",", phone.1).value;
    ReadMemberSplits("location", t3);
    var location := ReadMember("location", t3).value;
    LiteralSplits(",", location.1);
    var t4 := Literal(",", location.1).value;
    ReadMemberSplits("avatar", t4);
    var avatar := ReadMember("avatar", t4).value;
    LiteralSplits(",", avatar.1);
    var t5 := Literal(",", avatar.1).value;
    ReadMemberSplits("joinDate", t5);
  }

  /** A stored profile is never the empty text (the startup code treats "" as no profile). */
  lemma EncodeNonEmpty(u: UserProfile)
    ensures Encode(u) != "" && Encode(u)[0] == '{'
  {
  }
}

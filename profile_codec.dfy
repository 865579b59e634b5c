/**
 * The text a profile is stored as. This stands in for `JSON.stringify` and
 * `JSON.parse` on a profile: a flat object with the keys in schema order,
 * absent optional fields left out, and strings escaped as `JSON.stringify`
 * escapes them.
 */
module ProfileCodec {
  import opened Common
  import opened Text
  import opened ProfileSchema

  /** The letter of JSON's two-character escape for a control character, where it has one. */
  function ShortEscapeLetter(c: char): Option<char> {
    if c == 8 as char then Some('b')
    else if c == 9 as char then Some('t')
    else if c == 10 as char then Some('n')
    else if c == 12 as char then Some('f')
    else if c == 13 as char then Some('r')
    else None
  }

  /** The control character a two-character escape letter stands for. */
  function ShortUnescape(l: char): Option<char> {
    if l == 'b' then Some(8 as char)
    else if l == 't' then Some(9 as char)
    else if l == 'n' then Some(10 as char)
    else if l == 'f' then Some(12 as char)
    else if l == 'r' then Some(13 as char)
    else None
  }

  /** A lower-case hexadecimal digit. */
  function HexDigit(d: int): char
    requires 0 <= d < 16
  {
    if d < 10 then ('0' as int + d) as char else ('a' as int + d - 10) as char
  }

  function HexValue(h: char): (r: Option<int>)
    ensures r.Some? ==> 0 <= r.value < 16
  {
    if '0' <= h <= '9' then Some(h as int - '0' as int)
    else if 'a' <= h <= 'f' then Some(h as int - 'a' as int + 10)
    else None
  }

  /**
   * One character as it is written inside a string literal: `"` and `\` behind
   * a backslash, a control character as its two-character escape or as
   * `\u00` and two hexadecimal digits, anything else as itself.
   */
  function EscapeChar(c: char): string {
    if c == '"' then "\\\"" else if c == '\\' then "\\\\"
    else if c < ' ' then
      match ShortEscapeLetter(c)
      case Some(l) => ['\\', l]
      case None => "\\u00" + [HexDigit(c as int / 16), HexDigit(c as int % 16)]
    else [c]
  }

  function Escape(t: string): string {
    if t == [] then [] else EscapeChar(t[0]) + Escape(t[1..])
  }

  /** A string literal: opening quote, escaped text, closing quote. */
  function Quote(t: string): string {
    "\"" + Escape(t) + "\""
  }

  function OptionalMember(key: string, value: Option<string>): string {
    match value
    case None => ""
    case Some(t) => ",\"" + key + "\":" + Quote(t)
  }

  /** One numeric member: its key text (with the brace or comma before it) and the number. */
  function IntMember(keyText: string, n: int): string {
    keyText + IntToString(n)
  }

  function MacrosText(p: Profile): string {
    IntMember("{\"protein\":", p.protein) + IntMember(",\"carbs\":", p.carbs) + IntMember(",\"fat\":", p.fat)
  }

  function Encode(p: Profile): string {
    MacrosText(p) + (OptionalMember("restrictions", p.restrictions) + (OptionalMember("fitnessGoal", p.fitnessGoal) + "}"))
  }

  /** Reads the escape sequence at the front of `s`: the character it stands for and its length. */
  function ParseEscape(s: string): (r: Option<(char, nat)>)
    requires s != [] && s[0] == '\\'
    ensures r.Some? ==> 2 <= r.value.1 <= |s|
  {
    if |s| < 2 then None
    else if s[1] == '"' || s[1] == '\\' then Some((s[1], 2))
    else if ShortUnescape(s[1]).Some? then Some((ShortUnescape(s[1]).value, 2))
    else if |s| >= 6 && s[1] == 'u' && s[2] == '0' && s[3] == '0' && HexValue(s[4]).Some? && HexValue(s[5]).Some? then
      var v := HexValue(s[4]).value * 16 + HexValue(s[5]).value;
      if v < 0x20 && ShortEscapeLetter(v as char).None? then Some((v as char, 6)) else None
    else None
  }

  /**
   * Reads the body of a string literal up to and including its closing quote;
   * a raw control character is refused, as JSON requires.
   */
  function ParseStringBody(s: string): Option<(string, string)>
    decreases |s|
  {
    if s == [] then None
    else if s[0] == '"' then Some(([], s[1..]))
    else if s[0] == '\\' then
      var (c, n) :- ParseEscape(s);
      var (t, rest) :- ParseStringBody(s[n..]);
      Some(([c] + t, rest))
    else if s[0] < ' ' then None
    else
      var (t, rest) :- ParseStringBody(s[1..]);
      Some(([s[0]] + t, rest))
  }

  function ParseOptionalMember(key: string, s: string): Option<(Option<string>, string)> {
    match Expect(",\"" + key + "\":\"", s)
    case None => Some((None, s))
    case Some(body) =>
      var (t, rest) :- ParseStringBody(body);
      Some((Some(t), rest))
  }

  /** The three macros at the front of a stored profile. */
  function ParseMacros(s: string): Option<(int, int, int, string)> {
    var (protein, s1) :- ParseIntAfter("{\"protein\":", s);
    var (carbs, s2) :- ParseIntAfter(",\"carbs\":", s1);
    var (fat, s3) :- ParseIntAfter(",\"fat\":", s2);
    Some((protein, carbs, fat, s3))
  }

  /** Reads a stored profile back; `None` is a parse failure. */
  function Decode(s: string): Option<Profile> {
    var (protein, carbs, fat, s1) :- ParseMacros(s);
    var (restrictions, s2) :- ParseOptionalMember("restrictions", s1);
    var (goal, s3) :- ParseOptionalMember("fitnessGoal", s2);
    if s3 == "}" then Some(Profile(protein, carbs, fat, restrictions, goal)) else None
  }

  lemma HexRoundTrip(d: int)
    requires 0 <= d < 16
    ensures HexValue(HexDigit(d)) == Some(d)
  {
  }

  lemma HexDigitOfValue(h: char)
    requires HexValue(h).Some?
    ensures HexDigit(HexValue(h).value) == h
  {
  }

  /** Every escape `EscapeChar` writes reads back as the character it stands for. */
  lemma EscapeCharParses(c: char, tail: string)
    requires c == '"' || c == '\\' || c < ' '
    ensures ParseEscape(EscapeChar(c) + tail) == Some((c, |EscapeChar(c)|))
  {
    var s := EscapeChar(c) + tail;
    if c != '"' && c != '\\' && ShortEscapeLetter(c).None? {
      var hi, lo := c as int / 16, c as int % 16;
      assert s[..6] == "\\u00" + [HexDigit(hi), HexDigit(lo)];
      assert s[4] == HexDigit(hi) && s[5] == HexDigit(lo);
      HexRoundTrip(hi);
      HexRoundTrip(lo);
      assert hi * 16 + lo == c as int;
    }
  }

  /** An escape sequence that reads is exactly what `EscapeChar` writes for its character. */
  lemma ParseEscapeCanonical(s: string)
    requires s != [] && s[0] == '\\' && ParseEscape(s).Some?
    ensures s[..ParseEscape(s).value.1] == EscapeChar(ParseEscape(s).value.0)
  {
    var (c, n) := ParseEscape(s).value;
    if s[1] != '"' && s[1] != '\\' && ShortUnescape(s[1]).None? {
      var hi, lo := HexValue(s[4]).value, HexValue(s[5]).value;
      assert c as int == hi * 16 + lo;
      assert c as int / 16 == hi && c as int % 16 == lo;
      HexDigitOfValue(s[4]);
      HexDigitOfValue(s[5]);
      assert s[..6] == "\\u00" + [s[4], s[5]];
    }
  }

  lemma {:induction false} ParseEscaped(t: string, rest: string)
    ensures ParseStringBody(Escape(t) + "\"" + rest) == Some((t, rest))
  {
    if t == [] {
      assert Escape(t) + "\"" + rest == "\"" + rest;
      assert ("\"" + rest)[1..] == rest;
    } else {
      var tail := Escape(t[1..]) + "\"" + rest;
      assert Escape(t) + "\"" + rest == EscapeChar(t[0]) + tail;
      ParseEscaped(t[1..], rest);
      assert [t[0]] + t[1..] == t;
      if t[0] == '"' || t[0] == '\\' || t[0] < ' ' {
        EscapeCharParses(t[0], tail);
        assert (EscapeChar(t[0]) + tail)[|EscapeChar(t[0])|..] == tail;
      } else {
        assert (EscapeChar(t[0]) + tail)[1..] == tail;
      }
    }
  }

  /** No raw control character, which section 7 of RFC 8259 forbids inside a string. */
  predicate NoControl(s: string) {
    forall i :: 0 <= i < |s| ==> s[i] >= ' '
  }

  /** Nothing `Escape` writes is a raw control character. */
  lemma {:induction false} EscapeHasNoControl(t: string)
    ensures NoControl(Escape(t))
  {
    if t != [] {
      EscapeHasNoControl(t[1..]);
      var head := EscapeChar(t[0]);
      assert forall i :: 0 <= i < |head| ==> head[i] >= ' ';
      assert Escape(t) == head + Escape(t[1..]);
    }
  }


  lemma IntMemberRoundTrip(keyText: string, n: int, rest: string)
    requires StopsNumeral(rest)
    ensures ParseIntAfter(keyText, IntMember(keyText, n) + rest) == Some((n, rest))
  {
    ParseIntAfterRoundTrip(keyText, n, rest);
  }

  /**
   * What may follow an optional member: the closing brace, or for
   * `restrictions` also the goal member, whose key differs at its first letter.
   */
  predicate FollowsMember(key: string, rest: string) {
    (|rest| > 0 && rest[0] == '}') || (key == "restrictions" && |rest| > 2 && rest[..3] == ",\"f")
  }

  lemma AbsentMemberRoundTrip(key: string, rest: string)
    requires key == "restrictions" || key == "fitnessGoal"
    requires FollowsMember(key, rest)
    ensures ParseOptionalMember(key, rest) == Some((None, rest))
  {
    var lit := ",\"" + key + "\":\"";
    if rest[0] == '}' {
      ExpectMismatch(lit, rest, 0);
    } else {
      assert lit[2] == key[0];
      ExpectMismatch(lit, rest, 2);
    }
  }

  lemma PresentMemberRoundTrip(key: string, t: string, rest: string)
    ensures ParseOptionalMember(key, OptionalMember(key, Some(t)) + rest) == Some((Some(t), rest))
  {
    var lit := ",\"" + key + "\":\"";
    assert OptionalMember(key, Some(t)) + rest == lit + (Escape(t) + "\"" + rest);
    ExpectPrefix(lit, Escape(t) + "\"" + rest);
    ParseEscaped(t, rest);
  }

  lemma OptionalMemberRoundTrip(key: string, value: Option<string>, rest: string)
    requires key == "restrictions" || key == "fitnessGoal"
    requires FollowsMember(key, rest)
    ensures ParseOptionalMember(key, OptionalMember(key, value) + rest) == Some((value, rest))
  {
    match value
    case None =>
      assert OptionalMember(key, value) + rest == rest;
      AbsentMemberRoundTrip(key, rest);
    case Some(t) =>
      PresentMemberRoundTrip(key, t, rest);
  }

  lemma MacrosRoundTrip(p: Profile, rest: string)
    requires StopsNumeral(rest)
    ensures ParseMacros(MacrosText(p) + rest) == Some((p.protein, p.carbs, p.fat, rest))
  {
    var fatTail := IntMember(",\"fat\":", p.fat) + rest;
    var carbsTail := IntMember(",\"carbs\":", p.carbs) + fatTail;
    assert MacrosText(p) + rest == IntMember("{\"protein\":", p.protein) + carbsTail;
    IntMemberRoundTrip("{\"protein\":", p.protein, carbsTail);
    IntMemberRoundTrip(",\"carbs\":", p.carbs, fatTail);
    IntMemberRoundTrip(",\"fat\":", p.fat, rest);
  }

  lemma DecodeSteps(s: string, protein: int, carbs: int, fat: int, restrictions: Option<string>,
                    goal: Option<string>, s1: string, s2: string)
    requires ParseMacros(s) == Some((protein, carbs, fat, s1))
    requires ParseOptionalMember("restrictions", s1) == Some((restrictions, s2))
    requires ParseOptionalMember("fitnessGoal", s2) == Some((goal, "}"))
    ensures Decode(s) == Some(Profile(protein, carbs, fat, restrictions, goal))
  {
  }

  lemma GoalTailFollowsRestrictions(goal: Option<string>)
    ensures FollowsMember("restrictions", OptionalMember("fitnessGoal", goal) + "}")
    ensures FollowsMember("fitnessGoal", "}")
  {
    if goal.Some? {
      assert (OptionalMember("fitnessGoal", goal) + "}")[..3] == ",\"f";
    }
  }

  lemma OptionalTailStopsNumeral(p: Profile)
    ensures StopsNumeral(OptionalMember("restrictions", p.restrictions)
      + (OptionalMember("fitnessGoal", p.fitnessGoal) + "}"))
  {
    var goalTail := OptionalMember("fitnessGoal", p.fitnessGoal) + "}";
    assert goalTail[0] == ',' || goalTail[0] == '}';
    var optTail := OptionalMember("restrictions", p.restrictions) + goalTail;
    assert optTail[0] == ',' || optTail[0] == '}';
  }

  /** A stored profile reads back as itself. */
  lemma DecodeEncode(p: Profile)
    ensures Decode(Encode(p)) == Some(p)
  {
    var goalTail := OptionalMember("fitnessGoal", p.fitnessGoal) + "}";
    var optTail := OptionalMember("restrictions", p.restrictions) + goalTail;
    OptionalTailStopsNumeral(p);
    MacrosRoundTrip(p, optTail);
    GoalTailFollowsRestrictions(p.fitnessGoal);
    OptionalMemberRoundTrip("restrictions", p.restrictions, goalTail);
    OptionalMemberRoundTrip("fitnessGoal", p.fitnessGoal, "}");
    DecodeSteps(Encode(p), p.protein, p.carbs, p.fat, p.restrictions, p.fitnessGoal, optTail, goalTail);
  }

  /** The body of a string literal that reads is the escaped text, its closing quote and the rest. */
  lemma {:induction false} ParseStringBodyCanonical(s: string)
    requires ParseStringBody(s).Some?
    ensures s == Escape(ParseStringBody(s).value.0) + "\"" + ParseStringBody(s).value.1
    decreases |s|
  {
    var (t, rest) := ParseStringBody(s).value;
    if s[0] == '"' {
      assert t == [];
      assert s == "\"" + s[1..];
    } else if s[0] == '\\' {
      var (c, n) := ParseEscape(s).value;
      ParseEscapeCanonical(s);
      ParseStringBodyCanonical(s[n..]);
      var t' := ParseStringBody(s[n..]).value.0;
      assert t == [c] + t' && t[0] == c && t[1..] == t';
      assert s == s[..n] + s[n..];
    } else {
      ParseStringBodyCanonical(s[1..]);
      var t' := ParseStringBody(s[1..]).value.0;
      assert t == [s[0]] + t' && t[0] == s[0] && t[1..] == t';
      assert s == [s[0]] + s[1..];
    }
  }

  lemma PresentMemberText(key: string, t: string, rest: string)
    ensures OptionalMember(key, Some(t)) + rest == (",\"" + key + "\":\"") + (Escape(t) + "\"" + rest)
  {
  }

  /** An optional member that reads is the member's text followed by the rest. */
  lemma ParseOptionalMemberCanonical(key: string, s: string)
    requires ParseOptionalMember(key, s).Some?
    ensures s == OptionalMember(key, ParseOptionalMember(key, s).value.0) + ParseOptionalMember(key, s).value.1
  {
    var lit := ",\"" + key + "\":\"";
    var e := Expect(lit, s);
    if e.Some? {
      var body := e.value;
      assert s == lit + body;
      ParseStringBodyCanonical(body);
      var (t, rest) := ParseStringBody(body).value;
      PresentMemberText(key, t, rest);
    }
  }

  /** Three macros that read are their members' text followed by the rest. */
  lemma ParseMacrosCanonical(s: string)
    requires ParseMacros(s).Some?
    ensures var (protein, carbs, fat, rest) := ParseMacros(s).value;
      s == IntMember("{\"protein\":", protein) + (IntMember(",\"carbs\":", carbs)
           + (IntMember(",\"fat\":", fat) + rest))
  {
    var (protein, s1) := ParseIntAfter("{\"protein\":", s).value;
    var (carbs, s2) := ParseIntAfter(",\"carbs\":", s1).value;
    var (fat, s3) := ParseIntAfter(",\"fat\":", s2).value;
    ParseIntAfterCanonical("{\"protein\":", s);
    ParseIntAfterCanonical(",\"carbs\":", s1);
    ParseIntAfterCanonical(",\"fat\":", s2);
    assert s2 == IntMember(",\"fat\":", fat) + s3;
    assert s1 == IntMember(",\"carbs\":", carbs) + s2;
    assert s == IntMember("{\"protein\":", protein) + s1;
  }

  /** Only the text a profile is saved as reads back, and it reads back as that profile. */
  lemma DecodeOnlyEncodings(s: string)
    requires Decode(s).Some?
    ensures s == Encode(Decode(s).value)
  {
    var p := Decode(s).value;
    var (protein, carbs, fat, s1) := ParseMacros(s).value;
    var (restrictions, s2) := ParseOptionalMember("restrictions", s1).value;
    ParseMacrosCanonical(s);
    ParseOptionalMemberCanonical("restrictions", s1);
    ParseOptionalMemberCanonical("fitnessGoal", s2);
    var a := IntMember("{\"protein\":", protein);
    var b := IntMember(",\"carbs\":", carbs);
    var c := IntMember(",\"fat\":", fat);
    assert s == a + (b + (c + s1));
    assert a + (b + (c + s1)) == (a + b + c) + s1;
    assert MacrosText(p) == a + b + c;
  }

  /**
   * The stored text determines the profile and nothing else reads: text
   * decodes to a profile exactly when it is that profile's saved form.
   */
  lemma DecodeIffEncoding(s: string, p: Profile)
    ensures Decode(s) == Some(p) <==> s == Encode(p)
  {
    DecodeEncode(p);
    if Decode(s).Some? {
      DecodeOnlyEncodings(s);
    }
  }

  /** A profile whose first number does not read is rejected. */
  lemma DecodeRejectsBadProtein(body: string)
    requires ParseInt(body).None?
    ensures Decode("{\"protein\":" + body) == None
  {
    ExpectPrefix("{\"protein\":", body);
  }

  /** JSON refuses a leading zero, so no entry whose protein is written `0d…` loads. */
  lemma DecodeRejectsLeadingZero(d: char, rest: string)
    requires IsDigit(d)
    ensures Decode("{\"protein\":0" + [d] + rest) == None
  {
    LeadingZeroRejected(d, rest);
    assert "{\"protein\":0" + [d] + rest == "{\"protein\":" + ("0" + [d] + rest);
    DecodeRejectsBadProtein("0" + [d] + rest);
  }

  /**
   * `-0` is not the saved form of any integer, so no entry whose protein is
   * written `-0`, with or without more digits after it, loads.
   */
  lemma DecodeRejectsNegativeZero(rest: string)
    ensures Decode("{\"protein\":-0" + rest) == None
  {
    NegativeZeroRejected(rest);
    assert "{\"protein\":-0" + rest == "{\"protein\":" + ("-0" + rest);
    DecodeRejectsBadProtein("-0" + rest);
  }

  /** Text that is not a stored profile is rejected rather than misread. */
  lemma IntToStringHasNoControl(n: int)
    ensures NoControl(IntToString(n))
  {
    var d := NatToString(if n < 0 then -n else n);
    assert forall i :: 0 <= i < |d| ==> IsDigit(d[i]);
  }

  lemma NoControlConcat(a: string, b: string)
    requires NoControl(a) && NoControl(b)
    ensures NoControl(a + b)
  {
    assert forall i :: 0 <= i < |a + b| ==> (a + b)[i] == if i < |a| then a[i] else b[i - |a|];
  }

  lemma IntMemberHasNoControl(keyText: string, n: int)
    requires NoControl(keyText)
    ensures NoControl(IntMember(keyText, n))
  {
    IntToStringHasNoControl(n);
    NoControlConcat(keyText, IntToString(n));
  }

  lemma OptionalMemberHasNoControl(key: string, value: Option<string>)
    requires NoControl(key)
    ensures NoControl(OptionalMember(key, value))
  {
    if value.Some? {
      var t := value.value;
      EscapeHasNoControl(t);
      NoControlConcat("\"", Escape(t));
      NoControlConcat("\"" + Escape(t), "\"");
      NoControlConcat(",\"", key);
      NoControlConcat(",\"" + key, "\":");
      NoControlConcat(",\"" + key + "\":", Quote(t));
    }
  }

  lemma MacroKeysHaveNoControl()
    ensures NoControl("{\"protein\":") && NoControl(",\"carbs\":") && NoControl(",\"fat\":")
  {
  }

  lemma MacrosHaveNoControl(p: Profile)
    ensures NoControl(MacrosText(p))
  {
    MacroKeysHaveNoControl();
    var a, b, c := IntMember("{\"protein\":", p.protein), IntMember(",\"carbs\":", p.carbs), IntMember(",\"fat\":", p.fat);
    IntMemberHasNoControl("{\"protein\":", p.protein);
    IntMemberHasNoControl(",\"carbs\":", p.carbs);
    IntMemberHasNoControl(",\"fat\":", p.fat);
    NoControlConcat(a, b);
    NoControlConcat(a + b, c);
  }

  lemma OptionalTailHasNoControl(restrictions: Option<string>, goal: Option<string>)
    ensures NoControl(OptionalMember("restrictions", restrictions) + (OptionalMember("fitnessGoal", goal) + "}"))
  {
    var r, g := OptionalMember("restrictions", restrictions), OptionalMember("fitnessGoal", goal);
    OptionalMemberHasNoControl("restrictions", restrictions);
    OptionalMemberHasNoControl("fitnessGoal", goal);
    NoControlConcat(g, "}");
    NoControlConcat(r, g + "}");
  }

  /** A stored profile holds no raw control character: every one in a string is escaped. */
  lemma EncodeHasNoControl(p: Profile)
    ensures NoControl(Encode(p))
  {
    MacrosHaveNoControl(p);
    OptionalTailHasNoControl(p.restrictions, p.fitnessGoal);
    NoControlConcat(MacrosText(p), OptionalMember("restrictions", p.restrictions) + (OptionalMember("fitnessGoal", p.fitnessGoal) + "}"));
  }

  /** Text with a raw control character anywhere, such as a line break inside a string, does not read. */
  lemma DecodeRefusesControl(s: string, i: int)
    requires 0 <= i < |s| && s[i] < ' '
    ensures Decode(s) == None
  {
    if Decode(s).Some? {
      DecodeOnlyEncodings(s);
      EncodeHasNoControl(Decode(s).value);
    }
  }

  lemma DecodeRejectsMalformed()
    ensures Decode("") == None
    ensures Decode("{\"protein\":abc}") == None
    ensures Decode("{\"protein\":07,\"carbs\":0,\"fat\":0}") == None
  {
    assert "{\"protein\":abc}" == "{\"protein\":" + "abc}";
    DecodeRejectsBadProtein("abc}");
    var tail := ",\"carbs\":0,\"fat\":0}";
    DecodeRejectsLeadingZero('7', tail);
    assert "{\"protein\":07,\"carbs\":0,\"fat\":0}" == "{\"protein\":0" + ['7'] + tail;
  }
}

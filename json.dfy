/** A small model of JSON as the context-profile route uses it: the values a request body can
    carry, JavaScript's truthiness of them, the compact text `JSON.stringify` writes for them and
    the reading `JSON.parse` gives a text. Numbers are integers; strings are Unicode scalar
    values. */
module JsonText {
  import opened Wrappers

  datatype Json =
    | JNull
    | JBool(b: bool)
    | JNumber(n: int)
    | JString(s: string)
    | JArray(items: seq<Json>)
    | JObject(members: seq<Member>)

  /** One `"key": value` pair of an object, in the order written. */
  datatype Member = Member(key: string, value: Json)

  /** JavaScript's `!!v` for a value decoded from JSON: `null`, `false`, `0` and `""` are falsy,
      every array and object is truthy. */
  predicate Truthy(j: Json) {
    match j
    case JNull => false
    case JBool(b) => b
    case JNumber(n) => n != 0
    case JString(s) => s != ""
    case JArray(_) => true
    case JObject(_) => true
  }

  // ---------------------------------------------------------------------------------------------
  // Characters

  predicate IsWhitespace(c: char) {
    c == ' ' || c == '\t' || c == '\n' || c == '\r'
  }

  predicate IsDigit(c: char) {
    '0' <= c <= '9'
  }

  predicate IsHex(c: char) {
    IsDigit(c) || 'a' <= c <= 'f' || 'A' <= c <= 'F'
  }

  function DigitChar(d: nat): (c: char)
    requires d < 10
    ensures IsDigit(c) && c as int - '0' as int == d
  {
    ('0' as int + d) as char
  }

  function HexDigit(v: nat): (c: char)
    requires v < 16
    ensures IsHex(c) && HexValue(c) == v
  {
    if v < 10 then ('0' as int + v) as char else ('a' as int + v - 10) as char
  }

  function HexValue(c: char): (v: nat)
    requires IsHex(c)
    ensures v < 16
  {
    if IsDigit(c) then c as int - '0' as int
    else if 'a' <= c <= 'f' then c as int - 'a' as int + 10
    else c as int - 'A' as int + 10
  }

  // ---------------------------------------------------------------------------------------------
  // Serialization (JSON.stringify without indentation)

  function NatDigits(n: nat): (r: string)
    ensures r != [] && IsDigit(r[0])
    decreases n
  {
    if n < 10 then [DigitChar(n)] else NatDigits(n / 10) + [DigitChar(n % 10)]
  }

  function SerializeInt(n: int): string {
    if n < 0 then "-" + NatDigits(-n) else NatDigits(n)
  }

  /** The escape `JSON.stringify` writes for one character of a string. */
  function EscapeChar(c: char): string {
    if c == '"' then "\\\""
    else if c == '\\' then "\\\\"
    else if c as int == 8 then "\\b"
    else if c as int == 12 then "\\f"
    else if c == '\n' then "\\n"
    else if c == '\r' then "\\r"
    else if c == '\t' then "\\t"
    else if c as int < 0x20 then "\\u00" + [HexDigit(c as int / 16), HexDigit(c as int % 16)]
    else [c]
  }

  function Escape(s: string): string {
    if s == [] then "" else EscapeChar(s[0]) + Escape(s[1..])
  }

  function Quote(s: string): string {
    "\"" + Escape(s) + "\""
  }

  function Serialize(j: Json): (r: string)
    ensures r != [] && !IsWhitespace(r[0])
    decreases j
  {
    match j
    case JNull => "null"
    case JBool(b) => if b then "true" else "false"
    case JNumber(n) => SerializeInt(n)
    case JString(s) => Quote(s)
    case JArray(items) => "[" + SerializeItems(items) + "]"
    case JObject(ms) => "{" + SerializeMembers(ms) + "}"
  }

  function SerializeItems(items: seq<Json>): string
    decreases items
  {
    if items == [] then ""
    else if |items| == 1 then Serialize(items[0])
    else Serialize(items[0]) + "," + SerializeItems(items[1..])
  }

  function SerializeMembers(ms: seq<Member>): string
    decreases ms
  {
    if ms == [] then ""
    else if |ms| == 1 then SerializeMember(ms[0])
    else SerializeMember(ms[0]) + "," + SerializeMembers(ms[1..])
  }

  function SerializeMember(m: Member): string
    decreases m
  {
    Quote(m.key) + ":" + Serialize(m.value)
  }

  // ---------------------------------------------------------------------------------------------
  // Parsing (JSON.parse); each parser returns the value read and the text after it

  function SkipWhitespace(s: string): (r: string)
    ensures |r| <= |s|
    ensures r == [] || !IsWhitespace(r[0])
  {
    if s != [] && IsWhitespace(s[0]) then SkipWhitespace(s[1..]) else s
  }

  /** The number of leading decimal digits of `u`. */
  function DigitRun(u: string): (k: nat)
    ensures k <= |u|
    ensures forall i | 0 <= i < k :: IsDigit(u[i])
    ensures k == |u| || !IsDigit(u[k])
  {
    if u != [] && IsDigit(u[0]) then 1 + DigitRun(u[1..]) else 0
  }

  function DigitsValue(d: string): nat
    requires forall i | 0 <= i < |d| :: IsDigit(d[i])
  {
    if d == [] then 0
    else
      var last := d[|d| - 1];
      assert IsDigit(last);
      DigitsValue(d[..|d| - 1]) * 10 + (last as int - '0' as int)
  }

  /** A non-negative integer without leading zeros: `0`, or a non-zero digit and more digits. */
  function ParseNat(u: string): (r: Option<(nat, string)>)
    ensures r.Some? ==> |r.value.1| < |u|
  {
    if u == [] || !IsDigit(u[0]) then None
    else if u[0] == '0' then Some((0, u[1..]))
    else
      var k := DigitRun(u);
      Some((DigitsValue(u[..k]), u[k..]))
  }

  function ParseInt(t: string): (r: Option<(int, string)>)
    ensures r.Some? ==> |r.value.1| < |t|
  {
    if t != [] && t[0] == '-' then
      match ParseNat(t[1..])
      case None => None
      case Some((n, rest)) => Some((-(n as int), rest))
    else
      match ParseNat(t)
      case None => None
      case Some((n, rest)) => Some((n, rest))
  }

  /** The character an escape sequence (the text after a backslash) stands for. */
  function ParseEscape(u: string): (r: Option<(char, string)>)
    ensures r.Some? ==> |r.value.1| < |u|
  {
    if u == [] then None
    else if u[0] == '"' then Some(('"', u[1..]))
    else if u[0] == '\\' then Some(('\\', u[1..]))
    else if u[0] == '/' then Some(('/', u[1..]))
    else if u[0] == 'b' then Some((8 as char, u[1..]))
    else if u[0] == 'f' then Some((12 as char, u[1..]))
    else if u[0] == 'n' then Some(('\n', u[1..]))
    else if u[0] == 'r' then Some(('\r', u[1..]))
    else if u[0] == 't' then Some(('\t', u[1..]))
    else if u[0] == 'u' && IsHexCode(u[1..]) then
      var code := HexCode(u[1..]);
      if code < 0xD800 || 0xDFFF < code then Some((code as char, u[5..]))
      else if code <= 0xDBFF && |u| >= 7 && u[5] == '\\' && u[6] == 'u' && IsHexCode(u[7..])
           && 0xDC00 <= HexCode(u[7..]) <= 0xDFFF then
        // a high surrogate followed by a low one: together they encode one character
        Some(((0x10000 + (code - 0xD800) * 0x400 + (HexCode(u[7..]) - 0xDC00)) as char, u[11..]))
      else None
    else None
  }

  /** `u` starts with four hexadecimal digits. */
  predicate IsHexCode(u: string) {
    |u| >= 4 && IsHex(u[0]) && IsHex(u[1]) && IsHex(u[2]) && IsHex(u[3])
  }

  /** The UTF-16 code unit written by the four hexadecimal digits `u` starts with. */
  function HexCode(u: string): (code: nat)
    requires IsHexCode(u)
    ensures code < 0x10000
  {
    HexValue(u[0]) * 4096 + HexValue(u[1]) * 256 + HexValue(u[2]) * 16 + HexValue(u[3])
  }

  /** The characters of a string literal up to and including its closing quote. */
  function ParseChars(t: string): (r: Option<(string, string)>)
    ensures r.Some? ==> |r.value.1| < |t|
    decreases |t|
  {
    if t == [] then None
    else if t[0] == '"' then Some(("", t[1..]))
    else if t[0] == '\\' then
      match ParseEscape(t[1..])
      case None => None
      case Some((c, rest)) =>
        match ParseChars(rest)
        case None => None
        case Some((cs, rest')) => Some(([c] + cs, rest'))
    else if t[0] as int < 0x20 then None
    else
      match ParseChars(t[1..])
      case None => None
      case Some((cs, rest)) => Some(([t[0]] + cs, rest))
  }

  function ParseValue(s: string): (r: Option<(Json, string)>)
    ensures r.Some? ==> |r.value.1| < |s|
    decreases |s|, 1
  {
    var t := SkipWhitespace(s);
    if t == [] then None
    else if t[0] == '[' then ParseArray(t[1..])
    else if t[0] == '{' then ParseObject(t[1..])
    else ParseScalar(t)
  }

  /** A literal, a string or a number at the start of `t`. */
  function ParseScalar(t: string): (r: Option<(Json, string)>)
    ensures r.Some? ==> |r.value.1| < |t|
  {
    if t == [] then None
    else if t[0] == 'n' then
      if |t| >= 4 && t[..4] == "null" then Some((JNull, t[4..])) else None
    else if t[0] == 't' then
      if |t| >= 4 && t[..4] == "true" then Some((JBool(true), t[4..])) else None
    else if t[0] == 'f' then
      if |t| >= 5 && t[..5] == "false" then Some((JBool(false), t[5..])) else None
    else if t[0] == '"' then
      match ParseChars(t[1..])
      case None => None
      case Some((str, rest)) => Some((JString(str), rest))
    else
      match ParseInt(t)
      case None => None
      case Some((n, rest)) => Some((JNumber(n), rest))
  }

  /** An array, from the text after its opening bracket. */
  function ParseArray(u: string): (r: Option<(Json, string)>)
    ensures r.Some? ==> |r.value.1| < |u|
    decreases |u|, 3
  {
    var v := SkipWhitespace(u);
    if v != [] && v[0] == ']' then Some((JArray([]), v[1..]))
    else
      match ParseItems(v)
      case None => None
      case Some((items, rest)) => Some((JArray(items), rest))
  }

  /** An object, from the text after its opening brace. */
  function ParseObject(u: string): (r: Option<(Json, string)>)
    ensures r.Some? ==> |r.value.1| < |u|
    decreases |u|, 3
  {
    var v := SkipWhitespace(u);
    if v != [] && v[0] == '}' then Some((JObject([]), v[1..]))
    else
      match ParseMembers(v)
      case None => None
      case Some((ms, rest)) => Some((JObject(ms), rest))
  }

  /** The elements of a non-empty array up to and including its closing bracket. */
  function ParseItems(s: string): (r: Option<(seq<Json>, string)>)
    ensures r.Some? ==> |r.value.1| < |s|
    decreases |s|, 2
  {
    match ParseValue(s)
    case None => None
    case Some((v, rest)) =>
      var t := SkipWhitespace(rest);
      if t == [] then None
      else if t[0] == ',' then
        match ParseItems(t[1..])
        case None => None
        case Some((vs, rest')) => Some(([v] + vs, rest'))
      else if t[0] == ']' then Some(([v], t[1..]))
      else None
  }

  /** The members of a non-empty object up to and including its closing brace. */
  function ParseMembers(s: string): (r: Option<(seq<Member>, string)>)
    ensures r.Some? ==> |r.value.1| < |s|
    decreases |s|, 2
  {
    var t := SkipWhitespace(s);
    if t == [] || t[0] != '"' then None
    else
      match ParseChars(t[1..])
      case None => None
      case Some((key, rest)) =>
        var u := SkipWhitespace(rest);
        if u == [] || u[0] != ':' then None
        else
          match ParseValue(u[1..])
          case None => None
          case Some((v, rest')) =>
            var w := SkipWhitespace(rest');
            if w == [] then None
            else if w[0] == ',' then
              match ParseMembers(w[1..])
              case None => None
              case Some((ms, rest'')) => Some(([Member(key, v)] + ms, rest''))
            else if w[0] == '}' then Some(([Member(key, v)], w[1..]))
            else None
  }

  /** `JSON.parse`: one value, surrounded by nothing but whitespace. */
  function Parse(s: string): Option<Json> {
    match ParseValue(s)
    case None => None
    case Some((v, rest)) => if SkipWhitespace(rest) == [] then Some(v) else None
  }

  /** An escaped surrogate pair is one character (here U+1F600), and a lone high surrogate,
      which a string of Unicode scalar values cannot hold, is refused. */
  lemma SurrogatePairParses()
    ensures Parse("\"\\uD83D\\uDE00\"") == Some(JString([0x1F600 as char]))
    ensures Parse("\"\\uD83D\"") == None
  {
    var s := "\"\\uD83D\\uDE00\"";
    var u := s[2..];
    assert u[1..][..4] == "D83D" && u[7..][..4] == "DE00";
    assert HexCode(u[1..]) == 0xD83D && HexCode(u[7..]) == 0xDE00;
    assert u[11..] == "\"";
    assert ParseEscape(u) == Some((0x1F600 as char, "\""));
    var t := s[1..];
    assert t != [] && t[0] != '"' && t[0] == '\\' && t[1..] == u;
    assert ParseChars("\"") == Some(("", ""));
    assert ParseChars(t) == Some(([0x1F600 as char] + "", ""));
    assert SkipWhitespace(s) == s;
    assert [0x1F600 as char] + "" == [0x1F600 as char];
    assert s[0] == '"';
    assert ParseScalar(s) == Some((JString([0x1F600 as char]), ""));
    assert ParseValue(s) == Some((JString([0x1F600 as char]), ""));
    var lone := "\"\\uD83D\"";
    var v := lone[2..];
    assert v[1..][..4] == "D83D" && HexCode(v[1..]) == 0xD83D;
    assert ParseEscape(v) == None;
    assert lone[1..][0] == '\\' && lone[1..][1..] == v;
    assert SkipWhitespace(lone) == lone;
  }

  // ---------------------------------------------------------------------------------------------
  // Round trip: JSON.parse(JSON.stringify(v)) equals v

  /** The text after a serialized value cannot be mistaken for more of it. */
  predicate Delimits(rest: string) {
    rest == [] || !IsDigit(rest[0])
  }

  lemma {:induction false} NatDigitsShape(n: nat)
    ensures NatDigits(n) != []
    ensures forall i | 0 <= i < |NatDigits(n)| :: IsDigit(NatDigits(n)[i])
    ensures NatDigits(n)[0] == '0' <==> n == 0
    ensures n == 0 ==> NatDigits(n) == "0"
    ensures DigitsValue(NatDigits(n)) == n
    decreases n
  {
    if n >= 10 {
      NatDigitsShape(n / 10);
      var d := NatDigits(n / 10);
      assert NatDigits(n) == d + [DigitChar(n % 10)];
      assert (d + [DigitChar(n % 10)])[..|d|] == d;
    }
  }

  lemma {:induction false} DigitRunOfDigits(d: string, rest: string)
    requires forall i | 0 <= i < |d| :: IsDigit(d[i])
    requires Delimits(rest)
    ensures DigitRun(d + rest) == |d|
    decreases |d|
  {
    if d != [] {
      assert (d + rest)[1..] == d[1..] + rest;
      DigitRunOfDigits(d[1..], rest);
    }
  }

  lemma NatRoundTrip(n: nat, rest: string)
    requires Delimits(rest)
    ensures ParseNat(NatDigits(n) + rest) == Some((n, rest))
  {
    NatDigitsShape(n);
    var d := NatDigits(n);
    if n != 0 {
      DigitRunOfDigits(d, rest);
      assert (d + rest)[..|d|] == d;
      assert (d + rest)[|d|..] == rest;
    }
  }

  lemma IntRoundTrip(n: int, rest: string)
    requires Delimits(rest)
    ensures ParseInt(SerializeInt(n) + rest) == Some((n, rest))
  {
    NatDigitsShape(if n < 0 then -n else n);
    if n < 0 {
      NatRoundTrip(-n, rest);
      assert ("-" + NatDigits(-n) + rest)[1..] == NatDigits(-n) + rest;
    } else {
      NatRoundTrip(n, rest);
    }
  }

  /** Every escape `JSON.stringify` writes is either the character itself or a backslash
      sequence that `JSON.parse` reads back as that character. */
  lemma EscapeCharRoundTrip(c: char, tail: string)
    ensures EscapeChar(c) != []
    ensures EscapeChar(c) == [c] ==> c != '"' && c != '\\' && c as int >= 0x20
    ensures EscapeChar(c) != [c] ==>
              EscapeChar(c)[0] == '\\' && ParseEscape(EscapeChar(c)[1..] + tail) == Some((c, tail))
  {
    if c as int < 0x20 && c as int != 8 && c as int != 12 && c != '\n' && c != '\r' && c != '\t' {
      var u := EscapeChar(c)[1..] + tail;
      var hi, lo := c as int / 16, c as int % 16;
      assert u[..5] == ['u', '0', '0', HexDigit(hi), HexDigit(lo)];
      assert u[5..] == tail;
    }
  }

  /** One escaped character is read back before the rest of the literal. */
  lemma CharsStep(c: char, tail: string)
    ensures ParseChars(EscapeChar(c) + tail) == (match ParseChars(tail)
                                                case None => None
                                                case Some((cs, rest)) => Some(([c] + cs, rest)))
  {
    var t := EscapeChar(c) + tail;
    EscapeCharRoundTrip(c, tail);
    if EscapeChar(c) == [c] {
      assert t[1..] == tail;
    } else {
      assert t[1..] == EscapeChar(c)[1..] + tail;
    }
  }

  lemma {:induction false} StringRoundTrip(s: string, rest: string)
    ensures ParseChars(Escape(s) + "\"" + rest) == Some((s, rest))
    decreases |s|
  {
    if s != [] {
      var c := s[0];
      assert Escape(s) == EscapeChar(c) + Escape(s[1..]);
      Associate4(EscapeChar(c), Escape(s[1..]), "\"", rest);
      StringRoundTrip(s[1..], rest);
      CharsStep(c, Escape(s[1..]) + "\"" + rest);
      assert [c] + s[1..] == s;
    }
  }

  lemma SerializeItemsStart(items: seq<Json>)
    requires items != []
    ensures SerializeItems(items) != []
    ensures SerializeItems(items)[0] == Serialize(items[0])[0]
  {
  }

  lemma LiteralRoundTrip(j: Json, rest: string)
    requires j.JNull? || j.JBool?
    ensures ParseScalar(Serialize(j) + rest) == Some((j, rest))
  {
    var s := Serialize(j) + rest;
    if j.JNull? {
      assert s[..4] == "null" && s[4..] == rest;
    } else if j.b {
      assert s[..4] == "true" && s[4..] == rest;
    } else {
      assert s[..5] == "false" && s[5..] == rest;
    }
  }

  lemma NumberRoundTrip(n: int, rest: string)
    requires Delimits(rest)
    ensures ParseScalar(Serialize(JNumber(n)) + rest) == Some((JNumber(n), rest))
  {
    NatDigitsShape(if n < 0 then -n else n);
    IntRoundTrip(n, rest);
  }

  lemma StringValueRoundTrip(str: string, rest: string)
    ensures ParseScalar(Serialize(JString(str)) + rest) == Some((JString(str), rest))
  {
    var s := Serialize(JString(str)) + rest;
    assert s[1..] == Escape(str) + "\"" + rest;
    StringRoundTrip(str, rest);
  }

  lemma ScalarRoundTrip(j: Json, rest: string)
    requires !j.JArray? && !j.JObject?
    requires Delimits(rest)
    ensures ParseScalar(Serialize(j) + rest) == Some((j, rest))
  {
    match j
    case JNumber(n) => NumberRoundTrip(n, rest);
    case JString(str) => StringValueRoundTrip(str, rest);
    case _ => LiteralRoundTrip(j, rest);
  }

  /** One step of `ParseItems`: an element, then a comma or the closing bracket. */
  lemma ParseItemsStep(s: string, x: Json, after: string)
    requires ParseValue(s) == Some((x, after))
    requires after != [] && (after[0] == ',' || after[0] == ']')
    ensures after[0] == ']' ==> ParseItems(s) == Some(([x], after[1..]))
    ensures after[0] == ',' ==>
              ParseItems(s) == (match ParseItems(after[1..])
                                case None => None
                                case Some((vs, rest)) => Some(([x] + vs, rest)))
  {
    assert SkipWhitespace(after) == after;
  }

  /** One step of `ParseMembers`: a key, a colon, a value, then a comma or the closing brace. */
  lemma ParseMembersStep(s: string, key: string, u: string, v: Json, w: string)
    requires s != [] && s[0] == '"'
    requires ParseChars(s[1..]) == Some((key, u))
    requires u != [] && u[0] == ':'
    requires ParseValue(u[1..]) == Some((v, w))
    requires w != [] && (w[0] == ',' || w[0] == '}')
    ensures w[0] == '}' ==> ParseMembers(s) == Some(([Member(key, v)], w[1..]))
    ensures w[0] == ',' ==>
              ParseMembers(s) == (match ParseMembers(w[1..])
                                  case None => None
                                  case Some((ms, rest)) => Some(([Member(key, v)] + ms, rest)))
  {
    assert SkipWhitespace(s) == s;
    assert SkipWhitespace(u) == u;
    assert SkipWhitespace(w) == w;
  }

  lemma {:induction false} ValueRoundTrip(j: Json, rest: string)
    requires Delimits(rest)
    ensures ParseValue(Serialize(j) + rest) == Some((j, rest))
    decreases j, 1
  {
    var s := Serialize(j) + rest;
    assert SkipWhitespace(s) == s;
    match j
    case JArray(items) =>
      assert s[1..] == SerializeItems(items) + "]" + rest;
      ArrayRoundTrip(items, rest);
    case JObject(ms) =>
      assert s[1..] == SerializeMembers(ms) + "}" + rest;
      ObjectRoundTrip(ms, rest);
    case _ =>
      ScalarRoundTrip(j, rest);
  }

  lemma {:induction false} ArrayRoundTrip(items: seq<Json>, rest: string)
    ensures ParseArray(SerializeItems(items) + "]" + rest) == Some((JArray(items), rest))
    decreases items, 2
  {
    var body := SerializeItems(items) + "]" + rest;
    if items != [] {
      SerializeItemsStart(items);
      assert SkipWhitespace(body) == body;
      ItemsRoundTrip(items, rest);
    }
  }

  lemma SerializeMembersStart(ms: seq<Member>)
    requires ms != []
    ensures SerializeMembers(ms) != [] && SerializeMembers(ms)[0] == '"'
  {
  }

  lemma {:induction false} ObjectRoundTrip(ms: seq<Member>, rest: string)
    ensures ParseObject(SerializeMembers(ms) + "}" + rest) == Some((JObject(ms), rest))
    decreases ms, 2
  {
    var body := SerializeMembers(ms) + "}" + rest;
    if ms != [] {
      SerializeMembersStart(ms);
      assert SkipWhitespace(body) == body;
      MembersRoundTrip(ms, rest);
    }
  }

  lemma {:induction false} ItemsRoundTrip(items: seq<Json>, rest: string)
    requires items != []
    ensures ParseItems(SerializeItems(items) + "]" + rest) == Some((items, rest))
    decreases items, 1
  {
    var x := items[0];
    var after := if |items| == 1 then "]" + rest else "," + SerializeItems(items[1..]) + "]" + rest;
    assert SerializeItems(items) + "]" + rest == Serialize(x) + after;
    ValueRoundTrip(x, after);
    ParseItemsStep(Serialize(x) + after, x, after);
    if |items| == 1 {
      assert [x] == items;
    } else {
      assert after[1..] == SerializeItems(items[1..]) + "]" + rest;
      ItemsRoundTrip(items[1..], rest);
      assert [x] + items[1..] == items;
    }
  }

  /** The text of one member followed by more text, split at its key. */
  lemma MemberText(m: Member, more: string)
    ensures SerializeMember(m) + more == "\"" + (Escape(m.key) + "\"" + (":" + Serialize(m.value) + more))
  {
  }

  /** One member parses back, whatever comma or closing brace follows it. */
  lemma {:induction false} MemberRoundTrip(m: Member, tail: string)
    requires tail != [] && (tail[0] == ',' || tail[0] == '}')
    ensures tail[0] == '}' ==> ParseMembers(SerializeMember(m) + tail) == Some(([m], tail[1..]))
    ensures tail[0] == ',' ==>
              ParseMembers(SerializeMember(m) + tail) == (match ParseMembers(tail[1..])
                                                         case None => None
                                                         case Some((ms, rest)) => Some(([m] + ms, rest)))
    decreases m, 0
  {
    var u := ":" + Serialize(m.value) + tail;
    var s := SerializeMember(m) + tail;
    MemberText(m, tail);
    assert s[1..] == Escape(m.key) + "\"" + u;
    StringRoundTrip(m.key, u);
    assert u[1..] == Serialize(m.value) + tail;
    ValueRoundTrip(m.value, tail);
    ParseMembersStep(s, m.key, u, m.value, tail);
  }

  lemma {:induction false} MembersRoundTrip(ms: seq<Member>, rest: string)
    requires ms != []
    ensures ParseMembers(SerializeMembers(ms) + "}" + rest) == Some((ms, rest))
    decreases ms, 1
  {
    var m := ms[0];
    if |ms| == 1 {
      LastMemberText(m, rest);
      MemberRoundTrip(m, "}" + rest);
      assert [m] == ms;
    } else {
      var others := SerializeMembers(ms[1..]) + "}" + rest;
      MoreMembersText(ms, rest);
      Associate4(",", SerializeMembers(ms[1..]), "}", rest);
      assert ("," + others)[1..] == others;
      MemberRoundTrip(m, "," + others);
      MembersRoundTrip(ms[1..], rest);
      assert [m] + ms[1..] == ms;
    }
  }

  lemma LastMemberText(m: Member, rest: string)
    ensures SerializeMembers([m]) + "}" + rest == SerializeMember(m) + ("}" + rest)
  {
  }

  lemma MoreMembersText(ms: seq<Member>, rest: string)
    requires |ms| > 1
    ensures SerializeMembers(ms) + "}" + rest
         == SerializeMember(ms[0]) + ("," + SerializeMembers(ms[1..]) + "}" + rest)
  {
    MembersUnfold(ms);
    Associate5(SerializeMember(ms[0]), ",", SerializeMembers(ms[1..]), "}", rest);
  }

  lemma Associate5(a: string, b: string, c: string, d: string, e: string)
    ensures (a + b + c) + d + e == a + (b + c + d + e)
  {
  }

  lemma MembersUnfold(ms: seq<Member>)
    requires |ms| > 1
    ensures SerializeMembers(ms) == SerializeMember(ms[0]) + "," + SerializeMembers(ms[1..])
  {
  }

  lemma Associate4(a: string, b: string, c: string, d: string)
    ensures a + b + c + d == a + (b + c + d)
  {
  }

  /** `JSON.parse(JSON.stringify(v))` gives back `v`. */
  lemma SerializeThenParse(j: Json)
    ensures Parse(Serialize(j)) == Some(j)
  {
    ValueRoundTrip(j, "");
    assert Serialize(j) + "" == Serialize(j);
  }
}

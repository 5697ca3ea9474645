/**
 * A parsed JSON value as `res.json()` hands it to the chat page, the
 * optional-chaining member read `data?.key`, and `JSON.stringify(data)`
 * without replacer or indentation (section 25.5.2 of ECMA-262).
 */
module Json {
  import opened Wrappers

  /**
   * The rendering of a finite JavaScript number by Number::toString; never
   * empty and never a non-finite rendering. A number literal that
   * `JSON.parse` rounds to an infinity is given as JNull instead: both fail
   * the `typeof … === "string"` test and both stringify as `null`.
   */
  type NumberText = s: string | |s| > 0 && s != "Infinity" && s != "-Infinity" && s != "NaN" witness "0"

  /**
   * A value produced by `JSON.parse`. An object lists its own properties in
   * the engine's enumeration order; `JSON.parse` gives each key once
   * (`DistinctKeys`); `ParsedJson` is the subset of values that do.
   */
  datatype Json =
    | JNull
    | JBool(b: bool)
    | JNumber(rendering: NumberText)
    | JString(s: string)
    | JArray(items: seq<Json>)
    | JObject(members: seq<(string, Json)>)

  /** No two members of an object share a key. */
  predicate DistinctKeys(members: seq<(string, Json)>) {
    forall i, j | 0 <= i < j < |members| :: members[i].0 != members[j].0
  }

  /** Every object inside `j`, `j` included, has distinct keys. */
  predicate WellFormed(j: Json) {
    match j
    case JArray(items) => forall i | 0 <= i < |items| :: WellFormed(items[i])
    case JObject(members) => DistinctKeys(members) && forall i | 0 <= i < |members| :: WellFormed(members[i].1)
    case _ => true
  }

  /** The values `JSON.parse` can return. */
  type ParsedJson = j: Json | WellFormed(j) witness JNull

  /** The value of the first member named `key`, if any. */
  function Find(members: seq<(string, Json)>, key: string): (r: Option<Json>)
    ensures r.Some? ==> exists i | 0 <= i < |members| ::
      members[i] == (key, r.value) && forall j | 0 <= j < i :: members[j].0 != key
    ensures r.None? <==> forall i | 0 <= i < |members| :: members[i].0 != key
  {
    if |members| == 0 then None
    else if members[0].0 == key then Some(members[0].1)
    else Find(members[1..], key)
  }

  /**
   * `data?.key` for a key no prototype defines (such as "message" and
   * "reply"): a member of an object; `undefined` (None) for every other value.
   */
  function Member(data: Json, key: string): (r: Option<Json>)
    ensures r.Some? <==> data.JObject? && exists i | 0 <= i < |data.members| :: data.members[i].0 == key
    ensures r.Some? ==> (key, r.value) in data.members
  {
    if data.JObject? then Find(data.members, key) else None
  }

  /** `typeof data?.key === "string"`, yielding the string when it holds. */
  function StringMember(data: Json, key: string): (r: Option<string>)
    ensures r.Some? <==> Member(data, key).Some? && Member(data, key).value.JString?
    ensures r.Some? ==> Member(data, key) == Some(JString(r.value))
  {
    match Member(data, key)
    case Some(JString(s)) => Some(s)
    case _ => None
  }

  /** The lower-case hexadecimal digit for `d`. */
  function HexDigit(d: nat): char
    requires d < 16
  {
    if d < 10 then ('0' as int + d) as char else ('a' as int + d - 10) as char
  }

  /** The value of a hexadecimal digit of either case. */
  function HexValue(c: char): Option<nat> {
    if '0' <= c <= '9' then Some(c as int - '0' as int)
    else if 'a' <= c <= 'f' then Some(c as int - 'a' as int + 10)
    else if 'A' <= c <= 'F' then Some(c as int - 'A' as int + 10)
    else None
  }

  /** The escape QuoteJSONString writes for one character. */
  function Escape(c: char): string {
    if c == '\U{0008}' then "\\b"
    else if c == '\t' then "\\t"
    else if c == '\n' then "\\n"
    else if c == '\U{000C}' then "\\f"
    else if c == '\r' then "\\r"
    else if c == '"' then "\\\""
    else if c == '\\' then "\\\\"
    else if c < ' ' then "\\u00" + [HexDigit(c as int / 16), HexDigit(c as int % 16)]
    else [c]
  }

  function EscapeAll(s: string): (r: string)
    ensures |r| >= |s|
  {
    if s == [] then [] else Escape(s[0]) + EscapeAll(s[1..])
  }

  /** QuoteJSONString: `s` as a JSON string literal, opened and closed by a double quote. */
  function Quote(s: string): (r: string)
    ensures |r| >= |s| + 2 && r[0] == '"' && r[|r| - 1] == '"'
  {
    "\"" + EscapeAll(s) + "\""
  }

  /** Joins the rendered elements of an array or object with commas. */
  function Join(parts: seq<string>): string {
    if |parts| == 0 then "" else if |parts| == 1 then parts[0] else parts[0] + "," + Join(parts[1..])
  }

  /** `JSON.stringify(data)`; never empty. */
  function Stringify(data: Json): (r: string)
    ensures |r| > 0
    ensures data.JString? ==> r == Quote(data.s)
  {
    match data
    case JNull => "null"
    case JBool(b) => if b then "true" else "false"
    case JNumber(text) => text
    case JString(s) => Quote(s)
    case JArray(items) =>
      "[" + Join(seq(|items|, i requires 0 <= i < |items| => Stringify(items[i]))) + "]"
    case JObject(members) =>
      "{" + Join(seq(|members|, i requires 0 <= i < |members| =>
                    Quote(members[i].0) + ":" + Stringify(members[i].1))) + "}"
  }

  // Reading JSON string literals back, as the inverse of Quote.

  /** Decodes the first character of a JSON string body: the character and how many characters it took. */
  function DecodeOne(t: string): (r: Option<(char, nat)>)
    requires |t| > 0
    ensures r.Some? ==> 0 < r.value.1 <= |t|
  {
    if t[0] == '"' then None
    else if t[0] != '\\' then Some((t[0], 1))
    else if |t| < 2 then None
    else if t[1] == 'b' then Some(('\U{0008}', 2))
    else if t[1] == 't' then Some(('\t', 2))
    else if t[1] == 'n' then Some(('\n', 2))
    else if t[1] == 'f' then Some(('\U{000C}', 2))
    else if t[1] == 'r' then Some(('\r', 2))
    else if t[1] == '"' then Some(('"', 2))
    else if t[1] == '\\' then Some(('\\', 2))
    else if t[1] == '/' then Some(('/', 2))
    else if t[1] == 'u' && |t| >= 6 then
      match (HexValue(t[2]), HexValue(t[3]), HexValue(t[4]), HexValue(t[5]))
      case (Some(a), Some(b), Some(c), Some(d)) =>
        var v := a * 4096 + b * 256 + c * 16 + d;
        if v < 0xD800 || 0xE000 <= v < 0x11_0000 then Some((v as char, 6)) else None
      case _ => None
    else None
  }

  /** Decodes the body of a JSON string literal (without its quotes). */
  function Unescape(t: string): Option<string>
    decreases |t|
  {
    if t == [] then Some([])
    else match DecodeOne(t)
      case None => None
      case Some((c, n)) =>
        match Unescape(t[n..])
        case None => None
        case Some(rest) => Some([c] + rest)
  }

  /** Reads back a literal written by Quote (its left inverse; not a full JSON string parser). */
  function Unquote(t: string): Option<string> {
    if |t| >= 2 && t[0] == '"' && t[|t| - 1] == '"' then Unescape(t[1..|t| - 1]) else None
  }

  /** The escape of `c` decodes back to `c`, using exactly its own characters. */
  lemma DecodeEscape(c: char, rest: string)
    ensures DecodeOne(Escape(c) + rest) == Some((c, |Escape(c)|))
  {
  }

  lemma {:induction false} UnescapeEscapeAll(s: string)
    ensures Unescape(EscapeAll(s)) == Some(s)
  {
    if s != [] {
      var e := Escape(s[0]);
      DecodeEscape(s[0], EscapeAll(s[1..]));
      assert (e + EscapeAll(s[1..]))[|e|..] == EscapeAll(s[1..]);
      UnescapeEscapeAll(s[1..]);
      assert [s[0]] + s[1..] == s;
    }
  }

  /** JSON.stringify's quoting loses nothing: the literal reads back as the original string. */
  lemma QuoteRoundTrip(s: string)
    ensures Unquote(Quote(s)) == Some(s)
  {
    var q := Quote(s);
    assert q[1..|q| - 1] == EscapeAll(s);
    UnescapeEscapeAll(s);
  }

  /** With distinct keys, the member found is the only member with that key. */
  lemma {:induction false} FindUnique(members: seq<(string, Json)>, key: string, i: int)
    requires DistinctKeys(members)
    requires 0 <= i < |members| && members[i].0 == key
    ensures Find(members, key) == Some(members[i].1)
  {
    if i > 0 {
      assert members[0].0 != key;
      FindUnique(members[1..], key, i - 1);
    }
  }

  /** Distinct strings stringify differently. */
  lemma QuoteInjective(s: string, t: string)
    requires Quote(s) == Quote(t)
    ensures s == t
  {
    QuoteRoundTrip(s);
    QuoteRoundTrip(t);
  }
}

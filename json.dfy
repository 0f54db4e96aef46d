/**
 * JSON values as the client sends and receives them: `JSON.stringify` of a
 * request's parameters (ECMA-262, section 25.5.2, compact form without
 * whitespace), a parser for that compact form that undoes it, and the
 * ECMAScript `String(value)` conversion that `URLSearchParams` applies to
 * each parameter value.
 *
 * Numbers are integers here; JavaScript's binary floating point is not
 * modelled.
 */
module Json {
  import opened Wrappers
  import Utf8
  import Percent

  datatype Json =
    | JNull
    | JBool(b: bool)
    | JNum(n: int)
    | JStr(s: string)
    | JArr(items: seq<Json>)
    | JObj(fields: seq<Field>)

  /** One member of a JSON object, in insertion order. */
  datatype Field = Field(key: string, value: Json)

  predicate IsDigit(c: char) {
    0x30 <= c as int <= 0x39
  }

  // ---------------------------------------------------------------------
  // Decimal numerals

  /** The shortest decimal numeral of a natural number. */
  function NatToString(n: nat): (s: string)
    ensures |s| >= 1
    ensures forall i :: 0 <= i < |s| ==> IsDigit(s[i])
  {
    if n < 10 then [(0x30 + n) as char]
    else NatToString(n / 10) + [(0x30 + n % 10) as char]
  }

  /** The value of a numeral. */
  function DigitsValue(ds: string): nat
    requires forall i :: 0 <= i < |ds| ==> IsDigit(ds[i])
  {
    if ds == [] then 0
    else
      var last := ds[|ds| - 1];
      assert IsDigit(last);
      DigitsValue(ds[..|ds| - 1]) * 10 + (last as int - 0x30)
  }

  lemma {:induction false} DigitsValueOfNatToString(n: nat)
    ensures DigitsValue(NatToString(n)) == n
  {
    if n >= 10 {
      var s := NatToString(n);
      assert s[..|s| - 1] == NatToString(n / 10);
      DigitsValueOfNatToString(n / 10);
    }
  }

  /** The number of leading digits of s. */
  function DigitSpan(s: string): (k: nat)
    ensures k <= |s|
    ensures forall i :: 0 <= i < k ==> IsDigit(s[i])
    ensures k < |s| ==> !IsDigit(s[k])
  {
    if s == [] || !IsDigit(s[0]) then 0 else 1 + DigitSpan(s[1..])
  }

  lemma {:induction false} DigitSpanOfDigits(ds: string, rest: string)
    requires forall i :: 0 <= i < |ds| ==> IsDigit(ds[i])
    requires rest == [] || !IsDigit(rest[0])
    ensures DigitSpan(ds + rest) == |ds|
  {
    if ds != [] {
      assert (ds + rest)[1..] == ds[1..] + rest;
      DigitSpanOfDigits(ds[1..], rest);
    }
  }

  // ---------------------------------------------------------------------
  // JSON.stringify

  const LowerHex: string := "0123456789abcdef"
  const Backspace: char := 0x08 as char
  const FormFeed: char := 0x0C as char

  /** How JSON.stringify writes one character inside a string literal. */
  function EscapeChar(c: char): string
  {
    if c == '"' then "\\\""
    else if c == '\\' then "\\\\"
    else if c == Backspace then "\\b"
    else if c == '\t' then "\\t"
    else if c == '\n' then "\\n"
    else if c == FormFeed then "\\f"
    else if c == '\r' then "\\r"
    else if c as int < 0x20 then "\\u00" + [LowerHex[c as int / 16], LowerHex[c as int % 16]]
    else [c]
  }

  function Escape(s: string): string
  {
    if s == [] then [] else EscapeChar(s[0]) + Escape(s[1..])
  }

  function Quote(s: string): string
  {
    "\"" + Escape(s) + "\""
  }

  function Stringify(v: Json): string
  {
    match v
    case JNull => "null"
    case JBool(b) => if b then "true" else "false"
    case JNum(n) => if n < 0 then "-" + NatToString(-n) else NatToString(n)
    case JStr(s) => Quote(s)
    case JArr(items) => "[" + StringifyItems(items) + "]"
    case JObj(fields) => "{" + StringifyFields(fields) + "}"
  }

  /** The elements of an array, separated by commas. */
  function StringifyItems(items: seq<Json>): string
  {
    if items == [] then ""
    else if |items| == 1 then Stringify(items[0])
    else Stringify(items[0]) + "," + StringifyItems(items[1..])
  }

  /** One member of an object: `"key":value`. */
  function StringifyField(f: Field): string
  {
    Quote(f.key) + ":" + Stringify(f.value)
  }

  /** The members of an object, separated by commas. */
  function StringifyFields(fields: seq<Field>): string
  {
    if fields == [] then ""
    else if |fields| == 1 then StringifyField(fields[0])
    else StringifyField(fields[0]) + "," + StringifyFields(fields[1..])
  }

  // ---------------------------------------------------------------------
  // The parser for the compact form

  /** The value of four hexadecimal digits. */
  function Hex4(s: string): (r: Option<int>)
    requires |s| == 4
    ensures r.Some? ==> 0 <= r.value < 0x10000
  {
    if Percent.HexValue(s[0]).None? || Percent.HexValue(s[1]).None? || Percent.HexValue(s[2]).None? || Percent.HexValue(s[3]).None? then None
    else Some(((Percent.HexValue(s[0]).value * 16 + Percent.HexValue(s[1]).value) * 16 + Percent.HexValue(s[2]).value) * 16 + Percent.HexValue(s[3]).value)
  }

  /** The character a two-character escape `\e` stands for. */
  function ShortEscape(e: char): Option<char>
  {
    if e == '"' then Some('"')
    else if e == '\\' then Some('\\')
    else if e == '/' then Some('/')
    else if e == 'b' then Some(Backspace)
    else if e == 't' then Some('\t')
    else if e == 'n' then Some('\n')
    else if e == 'f' then Some(FormFeed)
    else if e == 'r' then Some('\r')
    else None
  }

  /**
   * Reads one character of a string literal's body, an escape sequence or a
   * plain character, and says how many characters it used. None at the
   * closing quote, on a raw control character and on a malformed escape.
   */
  function ParseChar(s: string): (r: Option<(char, nat)>)
    ensures r.Some? ==> 1 <= r.value.1 <= |s|
  {
    if s == [] || s[0] == '"' then None
    else if s[0] == '\\' then
      if |s| >= 2 && ShortEscape(s[1]).Some? then Some((ShortEscape(s[1]).value, 2))
      else if |s| >= 6 && s[1] == 'u' && Hex4(s[2..6]).Some? && Utf8.IsScalar(Hex4(s[2..6]).value) then
        Some((Hex4(s[2..6]).value as char, 6))
      else None
    else if s[0] as int < 0x20 then None
    else Some((s[0], 1))
  }

  /** Puts c in front of the characters a string-body parse produced. */
  function Prepend(c: char, r: Option<(string, string)>): Option<(string, string)>
  {
    match r
    case None => None
    case Some((cs, rest)) => Some(([c] + cs, rest))
  }

  /**
   * Reads the rest of a string literal after its opening quote: the
   * characters up to the closing quote, and what follows that quote.
   */
  function ParseStringBody(s: string): (r: Option<(string, string)>)
    ensures r.Some? ==> |r.value.1| < |s|
    decreases |s|
  {
    if s == [] then None
    else if s[0] == '"' then Some(([], s[1..]))
    else
      match ParseChar(s)
      case None => None
      case Some((c, k)) => Prepend(c, ParseStringBody(s[k..]))
  }

  /** Reads one JSON value from the front of s, returning it with what follows. */
  function ParseValue(s: string): (r: Option<(Json, string)>)
    ensures r.Some? ==> |r.value.1| < |s|
    decreases |s|, 2
  {
    if s == [] then None
    else
      match s[0]
      case 'n' => ParseWord(s, "null", JNull)
      case 't' => ParseWord(s, "true", JBool(true))
      case 'f' => ParseWord(s, "false", JBool(false))
      case '"' => ParseString(s)
      case '[' => ParseArray(s)
      case '{' => ParseObject(s)
      case _ => ParseNumber(s)
  }

  /** Reads a literal word such as `null`. */
  function ParseWord(s: string, word: string, v: Json): (r: Option<(Json, string)>)
    requires |word| > 0
    ensures r.Some? ==> |r.value.1| < |s|
  {
    if |s| >= |word| && s[..|word|] == word then Some((v, s[|word|..])) else None
  }

  /** Reads a string literal, opening quote included. */
  function ParseString(s: string): (r: Option<(Json, string)>)
    ensures r.Some? ==> |r.value.1| < |s|
  {
    if s == [] || s[0] != '"' then None
    else
      match ParseStringBody(s[1..])
      case None => None
      case Some((cs, rest)) => Some((JStr(cs), rest))
  }

  /** Reads a run of at least one digit, as many as there are. */
  function ParseDigits(s: string): (r: Option<(nat, string)>)
    ensures r.Some? ==> |r.value.1| < |s|
  {
    var k := DigitSpan(s);
    if k == 0 then None else Some((DigitsValue(s[..k]), s[k..]))
  }

  /** Reads an integer: an optional minus sign and at least one digit. */
  function ParseNumber(s: string): (r: Option<(Json, string)>)
    ensures r.Some? ==> |r.value.1| < |s|
  {
    if s == [] then None
    else if s[0] == '-' then
      match ParseDigits(s[1..])
      case None => None
      case Some((d, rest)) => Some((JNum(0 - d), rest))
    else
      match ParseDigits(s)
      case None => None
      case Some((d, rest)) => Some((JNum(d), rest))
  }

  function ParseArray(s: string): (r: Option<(Json, string)>)
    ensures r.Some? ==> |r.value.1| < |s|
    decreases |s|, 1
  {
    if s == [] || s[0] != '[' then None
    else if |s| >= 2 && s[1] == ']' then Some((JArr([]), s[2..]))
    else
      AsArray(ParseItems(s[1..]))
  }

  function ParseObject(s: string): (r: Option<(Json, string)>)
    ensures r.Some? ==> |r.value.1| < |s|
    decreases |s|, 1
  {
    if s == [] || s[0] != '{' then None
    else if |s| >= 2 && s[1] == '}' then Some((JObj([]), s[2..]))
    else
      AsObject(ParseFields(s[1..]))
  }

  /** Reads `value,value,...,value]`: the elements of a non-empty array and its closing bracket. */
  function ParseItems(s: string): (r: Option<(seq<Json>, string)>)
    ensures r.Some? ==> |r.value.1| < |s|
    decreases |s|, 3
  {
    match ParseValue(s)
    case None => None
    case Some((v, rest)) =>
      if rest == [] then None
      else if rest[0] == ']' then Some(([v], rest[1..]))
      else if rest[0] == ',' then ConsItem(v, ParseItems(rest[1..]))
      else None
  }

  /** Reads one member `"key":value` of an object. */
  function ParseField(s: string): (r: Option<(Field, string)>)
    ensures r.Some? ==> |r.value.1| < |s|
    decreases |s|, 2
  {
    if s == [] || s[0] != '"' then None
    else
      match ParseStringBody(s[1..])
      case None => None
      case Some((key, afterKey)) =>
        if afterKey == [] || afterKey[0] != ':' then None
        else WithKey(key, ParseValue(afterKey[1..]))
  }

  /** Reads `"key":value,...,"key":value}`: the members of a non-empty object and its closing brace. */
  function ParseFields(s: string): (r: Option<(seq<Field>, string)>)
    ensures r.Some? ==> |r.value.1| < |s|
    decreases |s|, 3
  {
    match ParseField(s)
    case None => None
    case Some((f, rest)) =>
      if rest == [] then None
      else if rest[0] == '}' then Some(([f], rest[1..]))
      else if rest[0] == ',' then ConsField(f, ParseFields(rest[1..]))
      else None
  }

  function AsArray(r: Option<(seq<Json>, string)>): (r': Option<(Json, string)>)
    ensures r'.Some? <==> r.Some?
    ensures r.Some? ==> r'.value.1 == r.value.1
  {
    match r
    case None => None
    case Some((items, rest)) => Some((JArr(items), rest))
  }

  function AsObject(r: Option<(seq<Field>, string)>): (r': Option<(Json, string)>)
    ensures r'.Some? <==> r.Some?
    ensures r.Some? ==> r'.value.1 == r.value.1
  {
    match r
    case None => None
    case Some((fields, rest)) => Some((JObj(fields), rest))
  }

  function ConsItem(v: Json, r: Option<(seq<Json>, string)>): (r': Option<(seq<Json>, string)>)
    ensures r'.Some? <==> r.Some?
    ensures r.Some? ==> r'.value.1 == r.value.1
  {
    match r
    case None => None
    case Some((vs, rest)) => Some(([v] + vs, rest))
  }

  function WithKey(key: string, r: Option<(Json, string)>): (r': Option<(Field, string)>)
    ensures r'.Some? <==> r.Some?
    ensures r.Some? ==> r'.value.1 == r.value.1
  {
    match r
    case None => None
    case Some((v, rest)) => Some((Field(key, v), rest))
  }

  function ConsField(f: Field, r: Option<(seq<Field>, string)>): (r': Option<(seq<Field>, string)>)
    ensures r'.Some? <==> r.Some?
    ensures r.Some? ==> r'.value.1 == r.value.1
  {
    match r
    case None => None
    case Some((fs, rest)) => Some(([f] + fs, rest))
  }

  /** Parses a whole document: one value and nothing after it. */
  function Parse(s: string): Option<Json>
  {
    match ParseValue(s)
    case Some((v, rest)) => if rest == [] then Some(v) else None
    case None => None
  }

  // ---------------------------------------------------------------------
  // Round trip: the parser reads back what Stringify writes

  /** What may follow a value in a document this module writes. */
  predicate Delimited(rest: string) {
    rest == [] || rest[0] == ',' || rest[0] == ']' || rest[0] == '}'
  }

  lemma HexRoundTrip(d: int)
    requires 0 <= d < 16
    ensures Percent.HexValue(LowerHex[d]) == Some(d)
  {
  }

  lemma ControlEscapeParses(c: char, rest: string)
    requires c as int < 0x20
    ensures ParseChar("\\u00" + [LowerHex[c as int / 16], LowerHex[c as int % 16]] + rest) == Some((c, 6))
  {
    var n := c as int;
    var hex := "00" + [LowerHex[n / 16], LowerHex[n % 16]];
    var s := "\\u00" + [LowerHex[n / 16], LowerHex[n % 16]] + rest;
    assert s[2..6] == hex;
    HexRoundTrip(n / 16);
    HexRoundTrip(n % 16);
    assert Hex4(hex) == Some(n);
  }

  lemma ShortEscapeParses(e: char, rest: string)
    requires ShortEscape(e).Some?
    ensures ParseChar(['\\', e] + rest) == Some((ShortEscape(e).value, 2))
  {
  }

  /** ParseChar reads back the character EscapeChar wrote. */
  lemma EscapeCharParses(c: char, rest: string)
    ensures |EscapeChar(c)| >= 1 && (EscapeChar(c) + rest)[0] != '"'
    ensures ParseChar(EscapeChar(c) + rest) == Some((c, |EscapeChar(c)|))
  {
    if c == '"' {
      ShortEscapeParses('"', rest);
    } else if c == '\\' {
      ShortEscapeParses('\\', rest);
    } else if c == Backspace {
      ShortEscapeParses('b', rest);
    } else if c == '\t' {
      ShortEscapeParses('t', rest);
    } else if c == '\n' {
      ShortEscapeParses('n', rest);
    } else if c == FormFeed {
      ShortEscapeParses('f', rest);
    } else if c == '\r' {
      ShortEscapeParses('r', rest);
    } else if c as int < 0x20 {
      ControlEscapeParses(c, rest);
    }
  }

  /** One step of ParseStringBody over a character written as e. */
  lemma StringBodyStep(e: string, c: char, rest: string)
    requires e != [] && (e + rest)[0] != '"'
    requires ParseChar(e + rest) == Some((c, |e|))
    ensures ParseStringBody(e + rest) == Prepend(c, ParseStringBody(rest))
  {
    assert (e + rest)[|e|..] == rest;
  }

  lemma {:induction false} EscapeParses(cs: string, rest: string)
    ensures ParseStringBody(Escape(cs) + "\"" + rest) == Some((cs, rest))
  {
    if cs == [] {
      assert Escape(cs) + "\"" + rest == "\"" + rest;
    } else {
      var e := EscapeChar(cs[0]);
      var tail := Escape(cs[1..]) + "\"" + rest;
      assert Escape(cs) + "\"" + rest == e + tail;
      EscapeCharParses(cs[0], tail);
      StringBodyStep(e, cs[0], tail);
      EscapeParses(cs[1..], rest);
      assert [cs[0]] + cs[1..] == cs;
    }
  }

  lemma WordParses(word: string, v: Json, rest: string)
    requires word in {"null", "true", "false"}
    requires Stringify(v) == word
    ensures ParseValue(Stringify(v) + rest) == Some((v, rest))
  {
    var s := word + rest;
    assert s[..|word|] == word;
    assert s[|word|..] == rest;
  }

  lemma StringParses(cs: string, rest: string)
    ensures ParseValue(Stringify(JStr(cs)) + rest) == Some((JStr(cs), rest))
  {
    var s := Stringify(JStr(cs)) + rest;
    assert s == "\"" + (Escape(cs) + "\"" + rest);
    EscapeParses(cs, rest);
  }

  /** A value that starts with a digit is read as a number. */
  lemma DigitDispatch(s: string)
    requires s != [] && IsDigit(s[0])
    ensures ParseValue(s) == ParseNumber(s)
  {
  }

  /** A value that starts with a minus sign is read as a number. */
  lemma MinusDispatch(x: string)
    ensures ParseValue("-" + x) == ParseNumber("-" + x)
  {
  }

  lemma DigitsParse(ds: string, rest: string)
    requires |ds| >= 1 && forall i :: 0 <= i < |ds| ==> IsDigit(ds[i])
    requires Delimited(rest)
    ensures ParseDigits(ds + rest) == Some((DigitsValue(ds), rest))
  {
    DigitSpanOfDigits(ds, rest);
    var s := ds + rest;
    assert s[..|ds|] == ds;
    assert s[|ds|..] == rest;
  }

  lemma NegativeParse(x: string, d: nat, rest: string)
    requires ParseDigits(x) == Some((d, rest))
    ensures ParseNumber("-" + x) == Some((JNum(0 - d), rest))
  {
    assert ("-" + x)[0] == '-';
    Tail('-', x);
  }

  lemma NumberParses(n: int, rest: string)
    requires Delimited(rest)
    ensures ParseValue(Stringify(JNum(n)) + rest) == Some((JNum(n), rest))
  {
    if n < 0 {
      NegativeNumberParses(n, rest);
    } else {
      var ds := NatToString(n);
      DigitsValueOfNatToString(n);
      DigitsParse(ds, rest);
      DigitDispatch(ds + rest);
    }
  }

  lemma NegativeNumberParses(n: int, rest: string)
    requires n < 0
    requires Delimited(rest)
    ensures ParseValue(Stringify(JNum(n)) + rest) == Some((JNum(n), rest))
  {
    var ds := NatToString(-n);
    assert Stringify(JNum(n)) == "-" + ds;
    DigitsValueOfNatToString(-n);
    DigitsParse(ds, rest);
    NegativeParse(ds + rest, -n, rest);
    Assoc("-", ds, rest);
    MinusDispatch(ds + rest);
  }

  /** Parsing what Stringify wrote gives back the value and leaves what followed it. */
  lemma {:induction false} ValueParses(v: Json, rest: string)
    requires Delimited(rest)
    ensures ParseValue(Stringify(v) + rest) == Some((v, rest))
    decreases v, 1
  {
    match v
    case JNull => WordParses("null", JNull, rest);
    case JBool(b) =>
      if b { WordParses("true", v, rest); } else { WordParses("false", v, rest); }
    case JNum(n) => NumberParses(n, rest);
    case JStr(cs) => StringParses(cs, rest);
    case JArr(items) =>
      if items == [] {
        EmptyArrayParses(rest);
      } else {
        ItemsParse(items, rest);
        NonEmptyArrayParses(items, rest);
      }
    case JObj(fields) =>
      if fields == [] {
        EmptyObjectParses(rest);
      } else {
        FieldsParse(fields, rest);
        NonEmptyObjectParses(fields, rest);
      }
  }

  lemma EmptyArrayParses(rest: string)
    ensures ParseValue(Stringify(JArr([])) + rest) == Some((JArr([]), rest))
  {
    assert StringifyItems([]) == "";
    assert Stringify(JArr([])) == "[]";
    assert ("[]" + rest)[2..] == rest;
  }

  lemma EmptyObjectParses(rest: string)
    ensures ParseValue(Stringify(JObj([])) + rest) == Some((JObj([]), rest))
  {
    assert StringifyFields([]) == "";
    assert Stringify(JObj([])) == "{}";
    assert ("{}" + rest)[2..] == rest;
  }

  /** A written value never starts with a closing bracket. */
  lemma ValueStart(v: Json)
    ensures |Stringify(v)| > 0 && Stringify(v)[0] != ']'
  {
    match v
    case JNum(n) =>
      if n >= 0 { assert IsDigit(NatToString(n)[0]); }
    case JStr(s) =>
      assert Stringify(v) == "\"" + Escape(s) + "\"";
    case _ =>
  }

  /** A written array element never starts with a closing bracket. */
  lemma ItemsStart(items: seq<Json>)
    requires items != []
    ensures |StringifyItems(items)| > 0 && StringifyItems(items)[0] != ']'
  {
    var first := Stringify(items[0]);
    ValueStart(items[0]);
    if |items| > 1 {
      var tail := StringifyItems(items[1..]);
      assert StringifyItems(items) == first + "," + tail;
      assert (first + "," + tail)[0] == first[0];
    }
  }

  /** A written object member starts with the quote of its key. */
  lemma FieldsStart(fields: seq<Field>)
    requires fields != []
    ensures |StringifyFields(fields)| > 0 && StringifyFields(fields)[0] == '"'
  {
    var first := StringifyField(fields[0]);
    assert StringifyFields(fields) == first + (if |fields| == 1 then "" else "," + StringifyFields(fields[1..]));
    assert first == "\"" + Escape(fields[0].key) + "\"" + ":" + Stringify(fields[0].value);
  }

  lemma Assoc(a: string, b: string, c: string)
    ensures a + b + c == a + (b + c)
  {
  }

  lemma Tail(c: char, x: string)
    ensures ([c] + x)[1..] == x
  {
  }

  /** An opening bracket followed by something other than a closing one starts a non-empty array. */
  lemma ArrayDispatch(body: string)
    requires body != [] && body[0] != ']'
    ensures ParseValue("[" + body) == AsArray(ParseItems(body))
  {
    assert ("[" + body)[0] == '[';
    Tail('[', body);
  }

  /** An opening brace followed by something other than a closing one starts a non-empty object. */
  lemma ObjectDispatch(body: string)
    requires body != [] && body[0] != '}'
    ensures ParseValue("{" + body) == AsObject(ParseFields(body))
  {
    assert ("{" + body)[0] == '{';
    Tail('{', body);
  }

  lemma NonEmptyArrayParses(items: seq<Json>, rest: string)
    requires items != []
    requires ParseItems(StringifyItems(items) + "]" + rest) == Some((items, rest))
    ensures ParseValue(Stringify(JArr(items)) + rest) == Some((JArr(items), rest))
  {
    var inner := StringifyItems(items);
    Assoc("[" + inner, "]", rest);
    Assoc("[", inner, "]" + rest);
    Assoc(inner, "]", rest);
    ItemsStart(items);
    ArrayDispatch(inner + "]" + rest);
  }

  lemma NonEmptyObjectParses(fields: seq<Field>, rest: string)
    requires fields != []
    requires ParseFields(StringifyFields(fields) + "}" + rest) == Some((fields, rest))
    ensures ParseValue(Stringify(JObj(fields)) + rest) == Some((JObj(fields), rest))
  {
    var inner := StringifyFields(fields);
    Assoc("{" + inner, "}", rest);
    Assoc("{", inner, "}" + rest);
    Assoc(inner, "}", rest);
    FieldsStart(fields);
    ObjectDispatch(inner + "}" + rest);
  }

  /** StringifyItems splits into its first element and the rest. */
  lemma ItemsSplit(items: seq<Json>, rest: string)
    requires items != []
    ensures StringifyItems(items) + "]" + rest ==
            Stringify(items[0]) + (if |items| == 1 then "]" + rest else "," + (StringifyItems(items[1..]) + "]" + rest))
  {
    var first := Stringify(items[0]);
    if |items| == 1 {
      Assoc(first, "]", rest);
    } else {
      var tail := StringifyItems(items[1..]);
      SplitFirst(first, tail, "]", rest);
    }
  }

  /** Regrouping `first,tail` followed by a closing bracket and what follows. */
  lemma SplitFirst(first: string, tail: string, close: string, rest: string)
    ensures first + "," + tail + close + rest == first + ("," + (tail + close + rest))
  {
    Assoc(first + "," + tail, close, rest);
    Assoc(first + ",", tail, close + rest);
    Assoc(first, ",", tail + (close + rest));
    Assoc(tail, close, rest);
  }

  lemma ItemsStep(s: string, v: Json, after: string)
    requires ParseValue(s) == Some((v, after))
    ensures after != [] && after[0] == ']' ==> ParseItems(s) == Some(([v], after[1..]))
    ensures after != [] && after[0] == ',' ==> ParseItems(s) == ConsItem(v, ParseItems(after[1..]))
  {
  }

  lemma {:induction false} ItemsParse(items: seq<Json>, rest: string)
    requires items != []
    requires Delimited(rest)
    ensures ParseItems(StringifyItems(items) + "]" + rest) == Some((items, rest))
    decreases items, 0
  {
    var v := items[0];
    ItemsSplit(items, rest);
    if |items| == 1 {
      ValueParses(v, "]" + rest);
      ItemsStep(Stringify(v) + ("]" + rest), v, "]" + rest);
      assert ("]" + rest)[1..] == rest;
      assert [v] == items;
    } else {
      var tail := StringifyItems(items[1..]) + "]" + rest;
      ValueParses(v, "," + tail);
      ItemsStep(Stringify(v) + ("," + tail), v, "," + tail);
      assert ("," + tail)[1..] == tail;
      ItemsParse(items[1..], rest);
      assert [v] + items[1..] == items;
    }
  }

  /** One step of ParseField: a key, a colon and a value. */
  lemma FieldStep(key: string, x: string)
    ensures ParseField(Quote(key) + (":" + x)) == WithKey(key, ParseValue(x))
  {
    var e := Escape(key);
    Assoc("\"" + e, "\"", ":" + x);
    Assoc("\"", e, "\"" + (":" + x));
    Assoc(e, "\"", ":" + x);
    Tail('"', e + "\"" + (":" + x));
    EscapeParses(key, ":" + x);
    Tail(':', x);
  }

  lemma {:induction false} FieldParses(f: Field, after: string)
    requires Delimited(after)
    ensures ParseField(StringifyField(f) + after) == Some((f, after))
    decreases f, 1
  {
    var q := Quote(f.key);
    var v := Stringify(f.value);
    Assoc(q + ":", v, after);
    Assoc(q, ":", v + after);
    FieldStep(f.key, v + after);
    ValueParses(f.value, after);
  }

  /** StringifyFields splits into its first member and the rest. */
  lemma FieldsSplit(fields: seq<Field>, rest: string)
    requires fields != []
    ensures StringifyFields(fields) + "}" + rest ==
            StringifyField(fields[0]) + (if |fields| == 1 then "}" + rest else "," + (StringifyFields(fields[1..]) + "}" + rest))
  {
    var first := StringifyField(fields[0]);
    if |fields| == 1 {
      Assoc(first, "}", rest);
    } else {
      var tail := StringifyFields(fields[1..]);
      SplitFirst(first, tail, "}", rest);
    }
  }

  lemma FieldsStep(s: string, f: Field, after: string)
    requires ParseField(s) == Some((f, after))
    ensures after != [] && after[0] == '}' ==> ParseFields(s) == Some(([f], after[1..]))
    ensures after != [] && after[0] == ',' ==> ParseFields(s) == ConsField(f, ParseFields(after[1..]))
  {
  }

  lemma {:induction false} FieldsParse(fields: seq<Field>, rest: string)
    requires fields != []
    requires Delimited(rest)
    ensures ParseFields(StringifyFields(fields) + "}" + rest) == Some((fields, rest))
    decreases fields, 0
  {
    var f := fields[0];
    FieldsSplit(fields, rest);
    if |fields| == 1 {
      FieldParses(f, "}" + rest);
      FieldsStep(StringifyField(f) + ("}" + rest), f, "}" + rest);
      assert ("}" + rest)[1..] == rest;
      assert [f] == fields;
    } else {
      var tail := StringifyFields(fields[1..]) + "}" + rest;
      FieldParses(f, "," + tail);
      FieldsStep(StringifyField(f) + ("," + tail), f, "," + tail);
      assert ("," + tail)[1..] == tail;
      FieldsParse(fields[1..], rest);
      assert [f] + fields[1..] == fields;
    }
  }

  /** JSON.stringify loses nothing: parsing its output gives the value back. */
  lemma StringifyRoundTrip(v: Json)
    ensures Parse(Stringify(v)) == Some(v)
  {
    ValueParses(v, []);
    assert Stringify(v) + [] == Stringify(v);
  }

  // ---------------------------------------------------------------------
  // String(value)

  /**
   * ECMAScript `String(value)` on a parsed JSON value: arrays are joined with
   * commas (a null element becomes the empty string), objects become
   * "[object Object]".
   */
  function ToDisplayString(v: Json): string
  {
    match v
    case JNull => "null"
    case JBool(b) => if b then "true" else "false"
    case JNum(n) => if n < 0 then "-" + NatToString(-n) else NatToString(n)
    case JStr(s) => s
    case JArr(items) => JoinItems(items)
    case JObj(_) => "[object Object]"
  }

  /** A scalar other than a string displays as its JSON text; a string displays as itself, unquoted. */
  lemma DisplayScalar(v: Json)
    requires !v.JArr? && !v.JObj?
    ensures v.JStr? ==> ToDisplayString(v) == v.s
    ensures !v.JStr? ==> ToDisplayString(v) == Stringify(v)
  {
  }

  /** Joining two non-empty runs of elements puts one comma between their displays. */
  lemma {:induction false} JoinItemsAppend(a: seq<Json>, b: seq<Json>)
    requires a != [] && b != []
    ensures JoinItems(a + b) == JoinItems(a) + "," + JoinItems(b)
  {
    assert (a + b)[0] == a[0];
    if |a| == 1 {
      assert (a + b)[1..] == b;
    } else {
      assert (a + b)[1..] == a[1..] + b;
      JoinItemsAppend(a[1..], b);
    }
  }

  /**
   * An array of numbers and booleans displays as its JSON text without the
   * brackets: `String([1,true])` is `1,true`.
   */
  lemma {:induction false} DisplayFlatArray(items: seq<Json>)
    requires forall i :: 0 <= i < |items| ==> items[i].JNum? || items[i].JBool?
    ensures ToDisplayString(JArr(items)) == StringifyItems(items)
  {
    if items != [] {
      DisplayScalar(items[0]);
      if |items| > 1 {
        DisplayFlatArray(items[1..]);
      }
    }
  }

  /** `Array.prototype.join(",")`. */
  function JoinItems(items: seq<Json>): string
  {
    if items == [] then ""
    else
      var first := if items[0].JNull? then "" else ToDisplayString(items[0]);
      if |items| == 1 then first else first + "," + JoinItems(items[1..])
  }
}

/** The text forms of a value that the session store deals in:
    `JSON.stringify` (how the signed-in user is written), `JSON.parse` (how
    it is read back) and `String(v)` (what `localStorage.setItem` stores
    for a value that is not already a string). */
module JsonText {

  import opened Wrappers
  import opened Json
  import opened Text

  // ---------------------------------------------------------------- stringify

  function HexDigit(d: nat): (c: char)
    requires d < 16
  {
    if d < 10 then DigitChar(d) else (d - 10 + 'a' as int) as char
  }

  /** One character of a string as `JSON.stringify` writes it: the quote
      and the backslash escaped, the short escapes for backspace, form feed,
      newline, carriage return and tab, `\u00xx` for the other control
      characters, and every other character as itself. */
  function EscapeChar(c: char): (r: string)
    ensures |r| >= 1
    ensures |r| == 1 <==> r == [c]
  {
    if c == '"' then ['\\', '"']
    else if c == '\\' then ['\\', '\\']
    else if c == 8 as char then ['\\', 'b']
    else if c == 12 as char then ['\\', 'f']
    else if c == '\n' then ['\\', 'n']
    else if c == '\r' then ['\\', 'r']
    else if c == '\t' then ['\\', 't']
    else if (c as int) < 32 then ['\\', 'u', '0', '0', HexDigit(c as int / 16), HexDigit(c as int % 16)]
    else [c]
  }

  function Escape(s: string): string {
    if s == [] then [] else EscapeChar(s[0]) + Escape(s[1..])
  }

  /** `JSON.stringify(v)`: no white space, members in enumeration order. */
  function Stringify(v: Json): (r: string)
    ensures |r| >= 1
    decreases v, 1
  {
    match v
    case Null => "null"
    case Bool(b) => if b then "true" else "false"
    case Num(n) => Decimal(n)
    case Str(s) => "\"" + Escape(s) + "\""
    case Arr(items) => "[" + Elements(items) + "]"
    case Obj(fields) => "{" + Members(fields) + "}"
  }

  /** The elements of an array, separated by commas. */
  function Elements(items: seq<Json>): string
    decreases items
  {
    if items == [] then ""
    else if |items| == 1 then Stringify(items[0])
    else Stringify(items[0]) + "," + Elements(items[1..])
  }

  /** The members of an object, `"key":value`, separated by commas. */
  function Members(fields: seq<(string, Json)>): string
    decreases fields
  {
    if fields == [] then ""
    else
      var f := fields[0];
      assert f in fields && f.1 < f;
      var member := MemberString(f.0, f.1);
      if |fields| == 1 then member else member + "," + Members(fields[1..])
  }

  function MemberString(key: string, v: Json): string
    decreases v, 2
  {
    "\"" + Escape(key) + "\":" + Stringify(v)
  }

  // -------------------------------------------------------------------- parse

  predicate IsSpace(c: char) {
    c == ' ' || c == '\t' || c == '\n' || c == '\r'
  }

  predicate IsDigit(c: char) {
    '0' <= c <= '9'
  }

  function SkipSpace(s: string): (r: string)
    ensures |r| <= |s|
    ensures r == [] || !IsSpace(r[0])
  {
    if s != [] && IsSpace(s[0]) then SkipSpace(s[1..]) else s
  }

  /** The longest prefix of decimal digits, and what follows it. */
  function TakeDigits(s: string): (r: (string, string))
    ensures r.0 + r.1 == s
    ensures forall i :: 0 <= i < |r.0| ==> IsDigit(r.0[i])
    ensures r.1 == [] || !IsDigit(r.1[0])
  {
    if s != [] && IsDigit(s[0]) then
      var r := TakeDigits(s[1..]);
      assert [s[0]] + r.0 + r.1 == s;
      ([s[0]] + r.0, r.1)
    else ([], s)
  }

  /** An integer: an optional minus sign, then `0` or digits without a
      leading zero. A fraction or an exponent is left in the remainder,
      where it makes the whole text fail. */
  function ParseNumber(s: string): (r: Option<(Json, string)>)
    ensures r.Some? ==> |r.value.1| < |s|
  {
    var neg := s != [] && s[0] == '-';
    var t := if neg then s[1..] else s;
    if t == [] || !IsDigit(t[0]) then None
    else if t[0] == '0' then Some((Num(0), t[1..]))
    else
      var split := TakeDigits(t);
      var m: int := DigitsValue(split.0);
      Some((Num(if neg then -m else m), split.1))
  }

  function Literal(s: string, word: string, v: Json): (r: Option<(Json, string)>)
    requires |word| > 0
    ensures r.Some? ==> |r.value.1| < |s|
  {
    if |word| <= |s| && s[..|word|] == word then Some((v, s[|word|..])) else None
  }

  function HexValue(c: char): (r: Option<nat>)
    ensures r.Some? ==> r.value < 16
  {
    if '0' <= c <= '9' then Some(c as int - '0' as int)
    else if 'a' <= c <= 'f' then Some(c as int - 'a' as int + 10)
    else if 'A' <= c <= 'F' then Some(c as int - 'A' as int + 10)
    else None
  }

  /** The character an escape sequence stands for, given the text after
      its backslash. A `\u` escape naming half of a surrogate pair is
      refused. */
  function Unescape(s: string): (r: Option<(char, string)>)
    ensures r.Some? ==> |r.value.1| < |s|
  {
    if s == [] then None
    else if s[0] == '"' then Some(('"', s[1..]))
    else if s[0] == '\\' then Some(('\\', s[1..]))
    else if s[0] == '/' then Some(('/', s[1..]))
    else if s[0] == 'b' then Some((8 as char, s[1..]))
    else if s[0] == 'f' then Some((12 as char, s[1..]))
    else if s[0] == 'n' then Some(('\n', s[1..]))
    else if s[0] == 'r' then Some(('\r', s[1..]))
    else if s[0] == 't' then Some(('\t', s[1..]))
    else if s[0] == 'u' && |s| >= 5 then
      match (HexValue(s[1]), HexValue(s[2]), HexValue(s[3]), HexValue(s[4]))
      case (Some(a), Some(b), Some(c), Some(d)) =>
        var code := 4096 * a + 256 * b + 16 * c + d;
        if 0xD800 <= code < 0xE000 then None else Some((code as char, s[5..]))
      case _ => None
    else None
  }

  /** The contents of a string literal, given the text after its opening
      quote, and what follows the closing quote. */
  function ParseString(s: string): (r: Option<(string, string)>)
    ensures r.Some? ==> |r.value.1| < |s|
  {
    if s == [] then None
    else if s[0] == '"' then Some(([], s[1..]))
    else if s[0] == '\\' then
      match Unescape(s[1..])
      case None => None
      case Some((c, rest)) =>
        match ParseString(rest)
        case None => None
        case Some((t, after)) => Some(([c] + t, after))
    else if (s[0] as int) < 32 then None
    else
      match ParseString(s[1..])
      case None => None
      case Some((t, after)) => Some(([s[0]] + t, after))
  }

  /** One value after optional white space, and the text after it. */
  function ParseValue(s: string): (r: Option<(Json, string)>)
    ensures r.Some? ==> |r.value.1| < |s|
    decreases |s|, 0
  {
    var t := SkipSpace(s);
    if t == [] then None
    else if t[0] == 'n' then Literal(t, "null", Null)
    else if t[0] == 't' then Literal(t, "true", Bool(true))
    else if t[0] == 'f' then Literal(t, "false", Bool(false))
    else if t[0] == '"' then
      match ParseString(t[1..])
      case None => None
      case Some((str, rest)) => Some((Str(str), rest))
    else if t[0] == '-' || IsDigit(t[0]) then ParseNumber(t)
    else if t[0] == '[' then ParseArray(t[1..])
    else if t[0] == '{' then ParseObject(t[1..])
    else None
  }

  /** An array, given the text after its `[`. */
  function ParseArray(s: string): (r: Option<(Json, string)>)
    ensures r.Some? ==> |r.value.1| < |s|
    decreases |s|, 2
  {
    var t := SkipSpace(s);
    if t != [] && t[0] == ']' then Some((Arr([]), t[1..]))
    else
      match ParseItems(t)
      case None => None
      case Some((items, rest)) => Some((Arr(items), rest))
  }

  /** One or more comma-separated values and the closing `]`. */
  function ParseItems(s: string): (r: Option<(seq<Json>, string)>)
    ensures r.Some? ==> |r.value.1| < |s|
    decreases |s|, 1
  {
    match ParseValue(s)
    case None => None
    case Some((v, rest)) =>
      var t := SkipSpace(rest);
      if t == [] then None
      else if t[0] == ']' then Some(([v], t[1..]))
      else if t[0] == ',' then
        match ParseItems(t[1..])
        case None => None
        case Some((vs, after)) => Some(([v] + vs, after))
      else None
  }

  /** An object, given the text after its `{`. */
  function ParseObject(s: string): (r: Option<(Json, string)>)
    ensures r.Some? ==> |r.value.1| < |s|
    decreases |s|, 2
  {
    var t := SkipSpace(s);
    if t != [] && t[0] == '}' then Some((Obj([]), t[1..]))
    else
      match ParseMembers(t)
      case None => None
      case Some((members, rest)) => Some((Obj(Build(members)), rest))
  }

  /** One or more comma-separated `"key": value` members and the closing
      `}`, in document order. */
  function ParseMembers(s: string): (r: Option<(seq<(string, Json)>, string)>)
    ensures r.Some? ==> |r.value.1| < |s|
    decreases |s|, 1
  {
    var t := SkipSpace(s);
    if t == [] || t[0] != '"' then None
    else
      match ParseString(t[1..])
      case None => None
      case Some((key, rest)) =>
        var u := SkipSpace(rest);
        if u == [] || u[0] != ':' then None
        else
          match ParseValue(u[1..])
          case None => None
          case Some((v, rest2)) =>
            var w := SkipSpace(rest2);
            if w == [] then None
            else if w[0] == '}' then Some(([(key, v)], w[1..]))
            else if w[0] == ',' then
              match ParseMembers(w[1..])
              case None => None
              case Some((more, after)) => Some(([(key, v)] + more, after))
            else None
  }

  /** The keys of `fields` are pairwise different. */
  predicate DistinctKeys(fields: seq<(string, Json)>) {
    forall i, j :: 0 <= i < j < |fields| ==> fields[i].0 != fields[j].0
  }

  /** Setting a property: a key already present keeps its place and takes
      the new value; a new key goes last. */
  function Assign(fields: seq<(string, Json)>, key: string, v: Json): (r: seq<(string, Json)>)
    ensures (forall i :: 0 <= i < |fields| ==> fields[i].0 != key) ==> r == fields + [(key, v)]
  {
    if fields == [] then [(key, v)]
    else if fields[0].0 == key then [(key, v)] + fields[1..]
    else
      assert forall i :: 0 < i < |fields| ==> fields[1..][i - 1] == fields[i];
      [fields[0]] + Assign(fields[1..], key, v)
  }

  /** The object `JSON.parse` builds from its members in document order:
      each repeated key keeps the place of its first occurrence and the
      value of its last. */
  function Build(members: seq<(string, Json)>): seq<(string, Json)> {
    if members == [] then []
    else
      var last := members[|members| - 1];
      Assign(Build(members[..|members| - 1]), last.0, last.1)
  }

  /** Members with different keys make the object they list. */
  lemma {:induction false} BuildDistinct(members: seq<(string, Json)>)
    requires DistinctKeys(members)
    ensures Build(members) == members
  {
    if members != [] {
      var init := members[..|members| - 1];
      BuildDistinct(init);
      assert members == init + [members[|members| - 1]];
    }
  }

  /** Every object inside `v` has pairwise different keys, as every value
      that JavaScript serialises does. */
  predicate WellFormed(v: Json)
    decreases v
  {
    match v
    case Arr(items) => forall i :: 0 <= i < |items| ==> WellFormed(items[i])
    case Obj(fields) => DistinctKeys(fields) && WellFormedMembers(fields)
    case _ => true
  }

  predicate WellFormedMembers(fields: seq<(string, Json)>)
    decreases fields
  {
    fields != [] ==>
      var f := fields[0];
      assert f in fields && f.1 < f;
      WellFormed(f.1) && WellFormedMembers(fields[1..])
  }

  /** `JSON.parse(s)`: one value with nothing but white space around it;
      `None` where it throws. */
  function Decode(s: string): (r: Option<Json>) {
    match ParseValue(s)
    case None => None
    case Some((v, rest)) => if SkipSpace(rest) == [] then Some(v) else None
  }

  // --------------------------------------------------------------- round trip

  /** What may follow a value inside the text `Stringify` writes. */
  predicate Delimits(rest: string) {
    rest == [] || rest[0] == ',' || rest[0] == ']' || rest[0] == '}'
  }

  lemma HexDigitValue(d: nat)
    requires d < 16
    ensures HexValue(HexDigit(d)) == Some(d)
  {
  }

  /** An escape sequence reads back as the character it escapes. */
  lemma UnescapeEscaped(c: char, rest: string)
    requires |EscapeChar(c)| > 1
    ensures EscapeChar(c)[0] == '\\'
    ensures Unescape(EscapeChar(c)[1..] + rest) == Some((c, rest))
  {
    if c != '"' && c != '\\' && c != 8 as char && c != 12 as char && c != '\n' && c != '\r' && c != '\t' {
      var hi, lo := c as int / 16, c as int % 16;
      HexDigitValue(hi);
      HexDigitValue(lo);
      var s := ['u', '0', '0', HexDigit(hi), HexDigit(lo)] + rest;
      assert EscapeChar(c)[1..] + rest == s;
      assert s[1] == '0' && s[2] == '0' && s[3] == HexDigit(hi) && s[4] == HexDigit(lo);
      assert s[5..] == rest;
    }
  }

  /** A string literal as `Stringify` writes it reads back as the string. */
  lemma {:induction false} ParseEscaped(s: string, rest: string)
    ensures ParseString(Escape(s) + "\"" + rest) == Some((s, rest))
  {
    if s == [] {
      assert Escape(s) + "\"" + rest == "\"" + rest;
    } else {
      var c, e := s[0], EscapeChar(s[0]);
      var tail := Escape(s[1..]) + "\"" + rest;
      ParseEscaped(s[1..], rest);
      assert Escape(s) + "\"" + rest == e + tail;
      if |e| == 1 {
        assert (e + tail)[1..] == tail;
      } else {
        UnescapeEscaped(c, tail);
        assert (e + tail)[1..] == e[1..] + tail;
      }
      assert [c] + s[1..] == s;
    }
  }

  lemma {:induction false} TakeAllDigits(d: string, rest: string)
    requires forall i :: 0 <= i < |d| ==> IsDigit(d[i])
    requires rest == [] || !IsDigit(rest[0])
    ensures TakeDigits(d + rest) == (d, rest)
  {
    if d != [] {
      var s := d + rest;
      assert s[0] == d[0] && IsDigit(s[0]);
      assert s[1..] == d[1..] + rest;
      assert forall i :: 0 <= i < |d[1..]| ==> d[1..][i] == d[i + 1];
      TakeAllDigits(d[1..], rest);
      assert [d[0]] + d[1..] == d;
    } else {
      assert d + rest == rest;
    }
  }

  /** The digits of a positive number read back as the number. */
  lemma ParsePositive(m: nat, rest: string)
    requires m > 0 && (rest == [] || !IsDigit(rest[0]))
    ensures ParseNumber(Digits(m) + rest) == Some((Num(m), rest))
  {
    var t := Digits(m) + rest;
    assert t[0] == Digits(m)[0];
    TakeAllDigits(Digits(m), rest);
    DigitsRoundTrip(m);
  }

  /** The same digits after a minus sign read back as the negation. */
  lemma ParseNegative(m: nat, rest: string)
    requires m > 0 && (rest == [] || !IsDigit(rest[0]))
    ensures ParseNumber("-" + (Digits(m) + rest)) == Some((Num(-(m as int)), rest))
  {
    var t := Digits(m) + rest;
    var s := "-" + t;
    assert s[0] == '-' && s[1..] == t;
    assert t[0] == Digits(m)[0];
    TakeAllDigits(Digits(m), rest);
    DigitsRoundTrip(m);
  }

  lemma ParseZero(rest: string)
    ensures ParseNumber("0" + rest) == Some((Num(0), rest))
  {
    var s := "0" + rest;
    assert s[0] == '0';
    assert s[1..] == rest;
  }

  /** A decimal integer reads back as the integer. */
  lemma ParseDecimal(n: int, rest: string)
    requires rest == [] || !IsDigit(rest[0])
    ensures ParseNumber(Decimal(n) + rest) == Some((Num(n), rest))
  {
    if n < 0 {
      assert Decimal(n) + rest == "-" + (Digits(-n) + rest);
      ParseNegative(-n, rest);
    } else if n == 0 {
      assert Decimal(n) == "0";
      ParseZero(rest);
    } else {
      ParsePositive(n, rest);
    }
  }

  // One step of each parser, on text whose first characters are known.

  lemma ValueOfWord(word: string, v: Json, rest: string)
    requires (word == "null" && v == Null) || (word == "true" && v == Bool(true))
      || (word == "false" && v == Bool(false))
    ensures ParseValue(word + rest) == Some((v, rest))
  {
    var s := word + rest;
    assert s[0] == word[0];
    assert s[..|word|] == word && s[|word|..] == rest;
  }

  lemma ValueOfNumber(s: string)
    requires s != [] && (s[0] == '-' || IsDigit(s[0]))
    ensures ParseValue(s) == ParseNumber(s)
  {
  }

  lemma ValueOfString(s: string, str: string, rest: string)
    requires s != [] && s[0] == '"' && ParseString(s[1..]) == Some((str, rest))
    ensures ParseValue(s) == Some((Str(str), rest))
  {
  }

  lemma ValueOfArray(s: string)
    requires s != [] && s[0] == '['
    ensures ParseValue(s) == ParseArray(s[1..])
  {
  }

  lemma ValueOfObject(s: string)
    requires s != [] && s[0] == '{'
    ensures ParseValue(s) == ParseObject(s[1..])
  {
  }

  lemma ArrayEmpty(rest: string)
    ensures ParseArray("]" + rest) == Some((Arr([]), rest))
  {
    var s := "]" + rest;
    assert s[0] == ']' && s[1..] == rest;
  }

  lemma ArrayOfItems(s: string, items: seq<Json>, rest: string)
    requires s != [] && !IsSpace(s[0]) && s[0] != ']' && ParseItems(s) == Some((items, rest))
    ensures ParseArray(s) == Some((Arr(items), rest))
  {
  }

  lemma ItemsLast(s: string, v: Json, after: string)
    requires ParseValue(s) == Some((v, after)) && after != [] && after[0] == ']'
    ensures ParseItems(s) == Some(([v], after[1..]))
  {
  }

  lemma ItemsMore(s: string, v: Json, after: string, vs: seq<Json>, rest: string)
    requires ParseValue(s) == Some((v, after)) && after != [] && after[0] == ','
    requires ParseItems(after[1..]) == Some((vs, rest))
    ensures ParseItems(s) == Some(([v] + vs, rest))
  {
  }

  lemma ObjectEmpty(rest: string)
    ensures ParseObject("}" + rest) == Some((Obj([]), rest))
  {
    var s := "}" + rest;
    assert s[0] == '}' && s[1..] == rest;
  }

  lemma ObjectOfMembers(s: string, members: seq<(string, Json)>, rest: string)
    requires s != [] && s[0] == '"' && ParseMembers(s) == Some((members, rest))
    ensures ParseObject(s) == Some((Obj(Build(members)), rest))
  {
  }

  /** The text of one member, `"key":value`, followed by `after`. */
  predicate MemberText(s: string, key: string, v: Json, after: string) {
    && s != [] && s[0] == '"'
    && ParseString(s[1..]).Some? && ParseString(s[1..]).value.0 == key
    && var colon := ParseString(s[1..]).value.1;
    && colon != [] && colon[0] == ':'
    && ParseValue(colon[1..]) == Some((v, after))
  }

  lemma MembersLast(s: string, key: string, v: Json, after: string)
    requires MemberText(s, key, v, after) && after != [] && after[0] == '}'
    ensures ParseMembers(s) == Some(([(key, v)], after[1..]))
  {
  }

  lemma MembersMore(s: string, key: string, v: Json, after: string,
                    more: seq<(string, Json)>, rest: string)
    requires MemberText(s, key, v, after) && after != [] && after[0] == ','
    requires ParseMembers(after[1..]) == Some((more, rest))
    ensures ParseMembers(s) == Some(([(key, v)] + more, rest))
  {
  }

  /** The text `Stringify` writes starts with neither white space nor a
      separator. */
  lemma FirstChar(v: Json)
    ensures var c := Stringify(v)[0];
      !IsSpace(c) && c != ',' && c != ']' && c != '}'
  {
  }

  /** `JSON.parse` reads back what `JSON.stringify` wrote, whatever
      separator or end of text follows. */
  lemma {:induction false} ParseStringified(v: Json, rest: string)
    requires WellFormed(v) && Delimits(rest)
    ensures ParseValue(Stringify(v) + rest) == Some((v, rest))
    decreases v, 1
  {
    var s := Stringify(v) + rest;
    match v
    case Null =>
      ValueOfWord("null", Null, rest);
    case Bool(b) =>
      if b {
        ValueOfWord("true", v, rest);
      } else {
        ValueOfWord("false", v, rest);
      }
    case Num(n) =>
      assert s[0] == Decimal(n)[0];
      assert n >= 0 ==> IsDigit(Digits(n)[0]);
      ValueOfNumber(s);
      ParseDecimal(n, rest);
    case Str(str) =>
      assert s[1..] == Escape(str) + "\"" + rest;
      ParseEscaped(str, rest);
      ValueOfString(s, str, rest);
    case Arr(items) =>
      assert s[1..] == Elements(items) + "]" + rest;
      ParseArrayText(v, rest);
      ValueOfArray(s);
    case Obj(fields) =>
      assert s[1..] == Members(fields) + "}" + rest;
      ParseObjectText(v, rest);
      ValueOfObject(s);
  }

  lemma {:induction false} ParseArrayText(v: Json, rest: string)
    requires v.Arr? && WellFormed(v) && Delimits(rest)
    ensures ParseArray(Elements(v.items) + "]" + rest) == Some((v, rest))
    decreases v, 0
  {
    var items := v.items;
    var inner := Elements(items) + "]" + rest;
    if items == [] {
      assert inner == "]" + rest;
      ArrayEmpty(rest);
    } else {
      ParseElements(items, rest);
      FirstChar(items[0]);
      assert inner[0] == Stringify(items[0])[0];
      ArrayOfItems(inner, items, rest);
    }
  }

  lemma {:induction false} ParseObjectText(v: Json, rest: string)
    requires v.Obj? && WellFormed(v) && Delimits(rest)
    ensures ParseObject(Members(v.fields) + "}" + rest) == Some((v, rest))
    decreases v, 0
  {
    var fields := v.fields;
    var inner := Members(fields) + "}" + rest;
    if fields == [] {
      assert inner == "}" + rest;
      ObjectEmpty(rest);
    } else {
      ParseMembersOf(fields, rest);
      BuildDistinct(fields);
      assert inner[0] == '"';
      ObjectOfMembers(inner, fields, rest);
    }
  }

  lemma {:induction false} ParseElements(items: seq<Json>, rest: string)
    requires |items| > 0 && Delimits(rest)
    requires forall i :: 0 <= i < |items| ==> WellFormed(items[i])
    ensures ParseItems(Elements(items) + "]" + rest) == Some((items, rest))
    decreases items
  {
    var input := Elements(items) + "]" + rest;
    var after := if |items| == 1 then "]" + rest else "," + (Elements(items[1..]) + "]" + rest);
    assert input == Stringify(items[0]) + after;
    ParseStringified(items[0], after);
    if |items| == 1 {
      assert after[1..] == rest;
      ItemsLast(input, items[0], after);
      assert [items[0]] == items;
    } else {
      assert after[1..] == Elements(items[1..]) + "]" + rest;
      assert forall i :: 0 <= i < |items[1..]| ==> items[1..][i] == items[i + 1];
      ParseElements(items[1..], rest);
      ItemsMore(input, items[0], after, items[1..], rest);
      assert [items[0]] + items[1..] == items;
    }
  }

  /** One member as `Stringify` writes it reads back as its key and value. */
  lemma {:induction false} MemberReads(key: string, v: Json, after: string)
    requires WellFormed(v) && Delimits(after)
    ensures MemberText(MemberString(key, v) + after, key, v, after)
    decreases v, 2
  {
    var input := MemberString(key, v) + after;
    var valueText := Stringify(v) + after;
    var colon := ":" + valueText;
    var keyText := Escape(key) + "\"" + colon;
    assert input == "\"" + keyText by {
      assert MemberString(key, v) == "\"" + Escape(key) + "\":" + Stringify(v);
    }
    assert input[1..] == keyText;
    ParseEscaped(key, colon);
    assert ParseString(input[1..]) == Some((key, colon));
    assert colon[0] == ':' && colon[1..] == valueText;
    ParseStringified(v, after);
  }

  lemma MembersSplit(fields: seq<(string, Json)>)
    requires |fields| > 0 && WellFormedMembers(fields)
    ensures WellFormed(fields[0].1) && WellFormedMembers(fields[1..])
  {
  }

  lemma LastMemberReads(fields: seq<(string, Json)>, rest: string)
    requires |fields| == 1 && Delimits(rest) && WellFormed(fields[0].1)
    ensures ParseMembers(Members(fields) + "}" + rest) == Some((fields, rest))
    decreases fields, 0
  {
    var f := fields[0];
    assert f in fields && f.1 < f;
    var input := Members(fields) + "}" + rest;
    var after := "}" + rest;
    assert Members(fields) == MemberString(f.0, f.1);
    assert input == MemberString(f.0, f.1) + after;
    MemberReads(f.0, f.1, after);
    assert after[1..] == rest;
    MembersLast(input, f.0, f.1, after);
    assert [(f.0, f.1)] == fields;
  }

  lemma MembersUnfold(fields: seq<(string, Json)>)
    requires |fields| > 1
    ensures Members(fields) == MemberString(fields[0].0, fields[0].1) + "," + Members(fields[1..])
  {
  }

  lemma Reassoc(member: string, members: string, rest: string)
    ensures member + "," + members + "}" + rest == member + ("," + (members + "}" + rest))
  {
  }

  lemma {:induction false} ParseMembersOf(fields: seq<(string, Json)>, rest: string)
    requires |fields| > 0 && Delimits(rest) && WellFormedMembers(fields)
    ensures ParseMembers(Members(fields) + "}" + rest) == Some((fields, rest))
    decreases fields, 1
  {
    MembersSplit(fields);
    if |fields| == 1 {
      LastMemberReads(fields, rest);
    } else {
      var f := fields[0];
      assert f in fields && f.1 < f;
      var member := MemberString(f.0, f.1);
      var input := Members(fields) + "}" + rest;
      var tail := Members(fields[1..]) + "}" + rest;
      var after := "," + tail;
      MembersUnfold(fields);
      Reassoc(member, Members(fields[1..]), rest);
      MemberReads(f.0, f.1, after);
      assert after[1..] == tail;
      ParseMembersOf(fields[1..], rest);
      MembersMore(input, f.0, f.1, after, fields[1..], rest);
      assert [(f.0, f.1)] + fields[1..] == fields;
    }
  }

  /** `JSON.parse(JSON.stringify(v))` is `v` for every value whose objects
      have pairwise different keys. */
  lemma RoundTrip(v: Json)
    requires WellFormed(v)
    ensures Decode(Stringify(v)) == Some(v)
  {
    ParseStringified(v, "");
    assert Stringify(v) + "" == Stringify(v);
  }

  /** `JSON.parse("undefined")` throws: it is what `localStorage` holds
      after `setItem(key, JSON.stringify(undefined))`. */
  lemma UndefinedIsNotJson()
    ensures Decode("undefined") == None
  {
  }

  // ------------------------------------------------------------------- String

  /** `String(v)`. An array is joined with commas, `null` elements giving
      the empty string; every object is `[object Object]`. */
  function ToJsString(v: Json): string
    decreases v
  {
    match v
    case Null => "null"
    case Bool(b) => if b then "true" else "false"
    case Num(n) => Decimal(n)
    case Str(s) => s
    case Arr(items) => Join(items)
    case Obj(_) => "[object Object]"
  }

  /** `items.join(",")`. */
  function Join(items: seq<Json>): string
    decreases items
  {
    if items == [] then ""
    else
      var first := if items[0] == Null then "" else ToJsString(items[0]);
      if |items| == 1 then first else first + "," + Join(items[1..])
  }

  /** `String(undefined)` for an absent value. */
  function OptionToJsString(v: Option<Json>): string {
    match v
    case None => "undefined"
    case Some(x) => ToJsString(x)
  }

  /** The values whose `String` is empty: the empty string, the empty
      array, and a one-element array whose element is `null` or such a
      value. */
  predicate Blank(v: Json)
    decreases v
  {
    match v
    case Str(s) => s == ""
    case Arr(items) => items == [] || (|items| == 1 && (items[0] == Null || Blank(items[0])))
    case _ => false
  }

  lemma {:induction false} BlankIffEmpty(v: Json)
    ensures ToJsString(v) == "" <==> Blank(v)
    decreases v
  {
    match v
    case Arr(items) =>
      if |items| == 1 && items[0] != Null {
        BlankIffEmpty(items[0]);
      }
    case _ =>
  }
}

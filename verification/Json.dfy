/** JSON texts (RFC 8259): the compact form that is written and a reader of the general form. */
module Json {
  import opened Common
  import Decimal

  datatype Json =
    | Null
    | Bool(b: bool)
    | Number(n: int)
    | Text(text: string)
    | Array(items: seq<Json>)
    | Object(members: seq<Member>)

  datatype Member = Member(name: string, value: Json)

  // Writing

  const HEX: string := "0123456789abcdef"

  /** Section 7: quotation mark, backslash and control characters are escaped, nothing else. */
  function EscapeChar(c: char): (e: string)
    ensures e != []
  {
    if c == '"' then "\\\""
    else if c == '\\' then "\\\\"
    else if c == '\U{08}' then "\\b"
    else if c == '\U{0C}' then "\\f"
    else if c == '\n' then "\\n"
    else if c == '\r' then "\\r"
    else if c == '\t' then "\\t"
    else if c < ' ' then "\\u00" + [HEX[c as int / 16], HEX[c as int % 16]]
    else [c]
  }

  function Escape(s: string): string {
    if s == [] then [] else EscapeChar(s[0]) + Escape(s[1..])
  }

  function PrintText(s: string): string {
    ['"'] + Escape(s) + ['"']
  }

  /** A JSON text with the same white space between any two tokens. */
  function Write(j: Json, gap: string): string {
    match j
    case Null => "null"
    case Bool(b) => if b then "true" else "false"
    case Number(n) => if n < 0 then "-" + Decimal.Print(-n) else Decimal.Print(n)
    case Text(s) => PrintText(s)
    case Array(items) => "[" + gap + WriteItems(items, gap) + "]"
    case Object(members) => "{" + gap + WriteMembers(members, gap) + "}"
  }

  function WriteItems(items: seq<Json>, gap: string): string {
    if items == [] then ""
    else if |items| == 1 then Write(items[0], gap) + gap
    else Write(items[0], gap) + gap + "," + gap + WriteItems(items[1..], gap)
  }

  function WriteMember(m: Member, gap: string): string {
    PrintText(m.name) + gap + ":" + gap + Write(m.value, gap)
  }

  function WriteMembers(members: seq<Member>, gap: string): string {
    if members == [] then ""
    else if |members| == 1 then WriteMember(members[0], gap) + gap
    else WriteMember(members[0], gap) + gap + "," + gap + WriteMembers(members[1..], gap)
  }

  /** The compact form, as model_dump_json writes it. */
  function Print(j: Json): string {
    Write(j, "")
  }

  // Reading

  predicate IsSpace(c: char) {
    c == ' ' || c == '\t' || c == '\n' || c == '\r'
  }

  function SkipSpace(s: string): (r: string)
    ensures |r| <= |s|
    ensures s != [] && !IsSpace(s[0]) ==> r == s
  {
    if s != [] && IsSpace(s[0]) then SkipSpace(s[1..]) else s
  }

  function HexValue(c: char): Option<nat> {
    if '0' <= c <= '9' then Some(c as int - '0' as int)
    else if 'a' <= c <= 'f' then Some(c as int - 'a' as int + 10)
    else if 'A' <= c <= 'F' then Some(c as int - 'A' as int + 10)
    else None
  }

  /** The four hexadecimal digits after \u. */
  function Hex4(s: string): (r: Option<nat>)
    requires |s| >= 4
    ensures r.Some? ==> r.value < 0x1_0000
  {
    var a :- HexValue(s[0]);
    var b :- HexValue(s[1]);
    var c :- HexValue(s[2]);
    var d :- HexValue(s[3]);
    if a < 16 && b < 16 && c < 16 && d < 16 then Some(a * 4096 + b * 256 + c * 16 + d) else None
  }

  /** The character after a backslash, and what is left; surrogates must come in pairs. */
  function ParseEscape(s: string): (r: Option<(char, string)>)
    ensures r.Some? ==> |r.value.1| < |s|
  {
    if s == [] then None
    else if s[0] == '"' || s[0] == '\\' || s[0] == '/' then Some((s[0], s[1..]))
    else if s[0] == 'b' then Some(('\U{08}', s[1..]))
    else if s[0] == 'f' then Some(('\U{0C}', s[1..]))
    else if s[0] == 'n' then Some(('\n', s[1..]))
    else if s[0] == 'r' then Some(('\r', s[1..]))
    else if s[0] == 't' then Some(('\t', s[1..]))
    else if s[0] == 'u' && |s| >= 5 then
      var u :- Hex4(s[1..5]);
      if u < 0xD800 || 0xE000 <= u then Some((u as char, s[5..]))
      else if u < 0xDC00 && |s| >= 11 && s[5] == '\\' && s[6] == 'u' then
        var v :- Hex4(s[7..11]);
        if 0xDC00 <= v < 0xE000 then Some(((0x1_0000 + (u - 0xD800) * 0x400 + (v - 0xDC00)) as char, s[11..])) else None
      else None
    else None
  }

  /** The text up to the closing quotation mark, and what follows it. */
  function ParseText(s: string): (r: Option<(string, string)>)
    ensures r.Some? ==> |r.value.1| < |s|
    decreases |s|
  {
    if s == [] || s[0] < ' ' then None
    else if s[0] == '"' then Some(([], s[1..]))
    else if s[0] == '\\' then
      var (c, rest) :- ParseEscape(s[1..]);
      var (text, rest') :- ParseText(rest);
      Some(([c] + text, rest'))
    else
      var (text, rest) :- ParseText(s[1..]);
      Some(([s[0]] + text, rest))
  }

  /** An integer without superfluous zeros. */
  function ParseNumber(s: string): (r: Option<(nat, string)>)
    ensures r.Some? ==> |r.value.1| < |s|
  {
    var k := Decimal.Span(s);
    if k == 0 || (k > 1 && s[0] == '0') then None else Some((Decimal.Read(s[..k]), s[k..]))
  }

  function ParseValue(s0: string): (r: Option<(Json, string)>)
    ensures r.Some? ==> |r.value.1| < |s0|
    decreases |s0|, 1
  {
    var s := SkipSpace(s0);
    if s == [] then None
    else if "null" <= s then Some((Null, s[4..]))
    else if "true" <= s then Some((Bool(true), s[4..]))
    else if "false" <= s then Some((Bool(false), s[5..]))
    else if s[0] == '"' then
      var (text, rest) :- ParseText(s[1..]);
      Some((Text(text), rest))
    else if s[0] == '[' then
      var t := SkipSpace(s[1..]);
      if t != [] && t[0] == ']' then Some((Array([]), t[1..]))
      else
        var (items, rest) :- ParseItems(t);
        Some((Array(items), rest))
    else if s[0] == '{' then
      var t := SkipSpace(s[1..]);
      if t != [] && t[0] == '}' then Some((Object([]), t[1..]))
      else
        var (members, rest) :- ParseMembers(t);
        Some((Object(members), rest))
    else if s[0] == '-' then
      var (n, rest) :- ParseNumber(s[1..]);
      Some((Number(0 - n), rest))
    else
      var (n, rest) :- ParseNumber(s);
      Some((Number(n), rest))
  }

  function ParseItems(s: string): (r: Option<(seq<Json>, string)>)
    ensures r.Some? ==> |r.value.1| < |s|
    decreases |s|, 2
  {
    var (first, rest) :- ParseValue(s);
    var t := SkipSpace(rest);
    if t == [] then None
    else if t[0] == ']' then Some(([first], t[1..]))
    else if t[0] == ',' then
      var (items, rest') :- ParseItems(t[1..]);
      Some(([first] + items, rest'))
    else None
  }

  function ParseMember(s0: string): (r: Option<(Member, string)>)
    ensures r.Some? ==> |r.value.1| < |s0|
    decreases |s0|, 2
  {
    var s := SkipSpace(s0);
    if s == [] || s[0] != '"' then None
    else
      var (name, rest) :- ParseText(s[1..]);
      var t := SkipSpace(rest);
      if t == [] || t[0] != ':' then None
      else
        var (value, rest') :- ParseValue(t[1..]);
        Some((Member(name, value), rest'))
  }

  function ParseMembers(s: string): (r: Option<(seq<Member>, string)>)
    ensures r.Some? ==> |r.value.1| < |s|
    decreases |s|, 3
  {
    var (first, rest) :- ParseMember(s);
    var t := SkipSpace(rest);
    if t == [] then None
    else if t[0] == '}' then Some(([first], t[1..]))
    else if t[0] == ',' then
      var (members, rest') :- ParseMembers(t[1..]);
      Some(([first] + members, rest'))
    else None
  }

  /** A whole JSON text. */
  function Parse(s: string): Option<Json> {
    var (j, rest) :- ParseValue(s);
    if SkipSpace(rest) == [] then Some(j) else None
  }

  // Reading what was written

  /** A control character is written with its code in hexadecimal. */
  lemma UnicodeRoundTrip(c: char, rest: string)
    requires c < ' '
    ensures ParseEscape("u00" + [HEX[c as int / 16], HEX[c as int % 16]] + rest) == Some((c, rest))
  {
    var n := c as int;
    var e := "u00" + [HEX[n / 16], HEX[n % 16]];
    var s := e + rest;
    assert s[1..5] == e[1..] && s[5..] == rest && s[0] == 'u';
    assert Hex4(e[1..]) == Some(n) by {
      assert HexValue(HEX[n / 16]) == Some(n / 16) && HexValue(HEX[n % 16]) == Some(n % 16);
      assert HexValue('0') == Some(0);
    }
  }

  lemma ShortEscape(c: char, rest: string)
    requires |EscapeChar(c)| == 2
    ensures EscapeChar(c)[0] == '\\' && ParseEscape([EscapeChar(c)[1]] + rest) == Some((c, rest))
  {
    hide Hex4;
    assert ([EscapeChar(c)[1]] + rest)[1..] == rest;
  }

  lemma EscapeRoundTrip(c: char, rest: string)
    ensures EscapeChar(c)[0] == '\\' ==> ParseEscape(EscapeChar(c)[1..] + rest) == Some((c, rest))
    ensures EscapeChar(c)[0] != '\\' ==> EscapeChar(c) == [c] && c != '"' && c >= ' '
    ensures EscapeChar(c)[0] != '"' && EscapeChar(c)[0] >= ' '
  {
    hide ParseEscape;
    var e := EscapeChar(c);
    if |e| == 2 {
      ShortEscape(c, rest);
      assert e[1..] == [e[1]];
    } else if |e| == 6 {
      UnicodeRoundTrip(c, rest);
      assert e[1..] == "u00" + [HEX[c as int / 16], HEX[c as int % 16]];
    }
  }

  /** One escaped character, read back in front of what follows it. */
  lemma ParseOneEscaped(c: char, text: string, tail: string, rest: string)
    requires ParseText(tail) == Some((text, rest))
    ensures ParseText(EscapeChar(c) + tail) == Some(([c] + text, rest))
  {
    hide EscapeChar, ParseEscape;
    var e := EscapeChar(c);
    EscapeRoundTrip(c, tail);
    var s := e + tail;
    assert s[0] == e[0];
    assert s[1..] == e[1..] + tail;
    if e[0] != '\\' {
      assert s[1..] == tail;
    }
  }

  lemma {:induction false} ParseEscaped(text: string, rest: string)
    ensures ParseText(Escape(text) + ['"'] + rest) == Some((text, rest))
  {
    hide EscapeChar, ParseEscape;
    if text == [] {
      assert (Escape(text) + ['"'] + rest)[1..] == rest;
    } else {
      hide ParseText;
      var tail := Escape(text[1..]) + ['"'] + rest;
      ParseEscaped(text[1..], rest);
      ParseOneEscaped(text[0], text[1..], tail, rest);
      assert Escape(text) + ['"'] + rest == EscapeChar(text[0]) + tail;
      assert [text[0]] + text[1..] == text;
    }
  }

  lemma ParsePrintedText(text: string, rest: string)
    ensures PrintText(text)[0] == '"' && ParseText((PrintText(text) + rest)[1..]) == Some((text, rest))
  {
    hide ParseText, Escape;
    ParseEscaped(text, rest);
    assert (PrintText(text) + rest)[1..] == Escape(text) + ['"'] + rest;
  }

  lemma {:induction false} NoLeadingZero(n: nat)
    ensures n > 0 ==> Decimal.Print(n)[0] != '0'
    ensures n < 10 ==> |Decimal.Print(n)| == 1
  {
    if n >= 10 {
      NoLeadingZero(n / 10);
    }
  }

  /** What may follow a value inside a text. */
  predicate Ends(rest: string) {
    rest == [] || rest[0] == ',' || rest[0] == ']' || rest[0] == '}' || IsSpace(rest[0])
  }

  predicate AllSpace(gap: string) {
    forall c :: c in gap ==> c == ' ' || c == '\t' || c == '\n' || c == '\r'
  }

  lemma {:induction false} SkipGap(gap: string, s: string)
    requires AllSpace(gap) && (s == [] || !IsSpace(s[0]))
    ensures SkipSpace(gap + s) == s
  {
    if gap == [] {
      assert gap + s == s;
    } else {
      assert gap[0] in gap && forall c :: c in gap[1..] ==> c in gap;
      assert (gap + s)[1..] == gap[1..] + s;
      SkipGap(gap[1..], s);
    }
  }

  lemma GapEnds(gap: string, s: string)
    requires AllSpace(gap) && Ends(s)
    ensures Ends(gap + s)
  {
    if gap == [] {
      assert gap + s == s;
    } else {
      assert gap[0] in gap;
    }
  }

  lemma ParsePrintedNumber(n: nat, rest: string)
    requires Ends(rest)
    ensures ParseNumber(Decimal.Print(n) + rest) == Some((n, rest))
  {
    var digits := Decimal.Print(n);
    Decimal.SpanExact(digits, rest);
    Decimal.ReadPrint(n);
    NoLeadingZero(n);
    assert (digits + rest)[..|digits|] == digits && (digits + rest)[|digits|..] == rest;
  }

  /** The first character tells what kind of value follows. */
  lemma FirstOf(j: Json, gap: string)
    ensures Write(j, gap) != [] && !IsSpace(Write(j, gap)[0]) && Write(j, gap)[0] != ']'
    ensures j.Number? && j.n >= 0 ==> Decimal.IsDigit(Write(j, gap)[0])
  {
    if j.Number? {
      var digits := Decimal.Print(if j.n < 0 then -j.n else j.n);
      assert digits[0] in digits;
    }
  }

  /** White space in front does not matter. */
  lemma ParsePadded(pad: string, s: string)
    requires AllSpace(pad) && s != [] && !IsSpace(s[0])
    ensures ParseValue(pad + s) == ParseValue(s)
    ensures ParseMember(pad + s) == ParseMember(s)
  {
    hide ParseItems, ParseMembers, ParseText, ParseNumber;
    SkipGap(pad, s);
    SkipGap("", s);
    assert "" + s == s;
  }

  lemma {:induction false} ParseWritten(j: Json, gap: string, rest: string)
    requires AllSpace(gap) && Ends(rest)
    ensures ParseValue(Write(j, gap) + rest) == Some((j, rest))
    decreases j, 0
  {
    match j
    case Null =>
      var s := Write(j, gap) + rest;
      assert s[..4] == "null" && s[4..] == rest;
    case Bool(b) => ParsePrintedBool(b, gap, rest);
    case Number(n) => ParsePrintedInt(n, gap, rest);
    case Text(text) => ParsePrintedString(text, gap, rest);
    case Array(items) =>
      hide ParseValue, Write;
      if items == [] {
        ParseEmptyArray(gap, rest);
      } else {
        ParseWrittenItems(items, gap, rest);
        FirstItem(items, gap);
        ParseArray(items, gap, rest);
      }
    case Object(members) =>
      hide ParseValue, Write;
      if members == [] {
        ParseEmptyObject(gap, rest);
      } else {
        ParseWrittenMembers(members, gap, rest);
        ParseObject(members, gap, rest);
      }
  }

  lemma FirstItem(items: seq<Json>, gap: string)
    requires items != []
    ensures var s := WriteItems(items, gap); s != [] && !IsSpace(s[0]) && s[0] != ']'
  {
    hide Write;
    FirstOf(items[0], gap);
  }

  lemma FirstMember(members: seq<Member>, gap: string)
    requires members != []
    ensures var s := WriteMembers(members, gap); s != [] && s[0] == '"'
  {
    hide Write;
  }

  /** An opening bracket decides what is read. */
  lemma ArrayValue(t: string)
    ensures var u := SkipSpace(t);
            && (u != [] && u[0] == ']' ==> ParseValue("[" + t) == Some((Array([]), u[1..])))
            && (u != [] && u[0] != ']' && ParseItems(u).Some? ==>
                  ParseValue("[" + t) == Some((Array(ParseItems(u).value.0), ParseItems(u).value.1)))
  {
    hide ParseItems, ParseMembers, ParseText, ParseNumber, SkipSpace;
    var s := "[" + t;
    assert s[0] == '[' && s[1..] == t;
    assert SkipSpace(s) == s;
  }

  lemma ObjectValue(t: string)
    ensures var u := SkipSpace(t);
            && (u != [] && u[0] == '}' ==> ParseValue("{" + t) == Some((Object([]), u[1..])))
            && (u != [] && u[0] != '}' && ParseMembers(u).Some? ==>
                  ParseValue("{" + t) == Some((Object(ParseMembers(u).value.0), ParseMembers(u).value.1)))
  {
    hide ParseItems, ParseMembers, ParseText, ParseNumber, SkipSpace;
    var s := "{" + t;
    assert s[0] == '{' && s[1..] == t;
    assert SkipSpace(s) == s;
  }

  lemma ParseEmptyArray(gap: string, rest: string)
    requires AllSpace(gap)
    ensures ParseValue(Write(Array([]), gap) + rest) == Some((Array([]), rest))
  {
    hide ParseValue, ParseItems, SkipSpace, AllSpace;
    var t := "]" + rest;
    SkipGap(gap, t);
    ArrayValue(gap + t);
    assert Write(Array([]), gap) + rest == "[" + (gap + t) && t[1..] == rest;
  }

  lemma ParseEmptyObject(gap: string, rest: string)
    requires AllSpace(gap)
    ensures ParseValue(Write(Object([]), gap) + rest) == Some((Object([]), rest))
  {
    hide ParseValue, ParseMembers, SkipSpace, AllSpace;
    var t := "}" + rest;
    SkipGap(gap, t);
    ObjectValue(gap + t);
    assert Write(Object([]), gap) + rest == "{" + (gap + t) && t[1..] == rest;
  }

  lemma ParseArray(items: seq<Json>, gap: string, rest: string)
    requires AllSpace(gap) && items != [] && WriteItems(items, gap) != []
    requires !IsSpace(WriteItems(items, gap)[0]) && WriteItems(items, gap)[0] != ']'
    requires ParseItems(WriteItems(items, gap) + "]" + rest) == Some((items, rest))
    ensures ParseValue(Write(Array(items), gap) + rest) == Some((Array(items), rest))
  {
    hide ParseValue, ParseItems, WriteItems, SkipSpace, AllSpace, IsSpace;
    var t := WriteItems(items, gap) + "]" + rest;
    assert t[0] == WriteItems(items, gap)[0];
    SkipGap(gap, t);
    ArrayValue(gap + t);
    assert Write(Array(items), gap) + rest == "[" + (gap + t);
  }

  lemma ParseObject(members: seq<Member>, gap: string, rest: string)
    requires AllSpace(gap) && members != []
    requires ParseMembers(WriteMembers(members, gap) + "}" + rest) == Some((members, rest))
    ensures ParseValue(Write(Object(members), gap) + rest) == Some((Object(members), rest))
  {
    hide ParseValue, ParseMembers, WriteMembers, SkipSpace, AllSpace;
    var t := WriteMembers(members, gap) + "}" + rest;
    FirstMember(members, gap);
    assert t[0] == WriteMembers(members, gap)[0];
    SkipGap(gap, t);
    ObjectValue(gap + t);
    assert Write(Object(members), gap) + rest == "{" + (gap + t);
  }

  lemma ParsePrintedString(text: string, gap: string, rest: string)
    ensures ParseValue(Write(Text(text), gap) + rest) == Some((Text(text), rest))
  {
    hide ParseItems, ParseMembers, ParseText, ParseNumber;
    ParsePrintedText(text, rest);
    var s := Write(Text(text), gap) + rest;
    assert s[0] == '"';
  }

  lemma ParsePrintedInt(n: int, gap: string, rest: string)
    requires Ends(rest)
    ensures ParseValue(Write(Number(n), gap) + rest) == Some((Number(n), rest))
  {
    hide ParseItems, ParseMembers, ParseText, ParseNumber, Decimal.Print;
    var s := Write(Number(n), gap) + rest;
    if n < 0 {
      ParsePrintedNumber(-n, rest);
      assert s == "-" + (Decimal.Print(-n) + rest) && s[1..] == Decimal.Print(-n) + rest;
    } else {
      ParsePrintedNumber(n, rest);
      FirstOf(Number(n), gap);
      assert s[0] == Write(Number(n), gap)[0];
    }
  }

  lemma ParsePrintedBool(b: bool, gap: string, rest: string)
    ensures ParseValue(Write(Bool(b), gap) + rest) == Some((Bool(b), rest))
  {
    var s := Write(Bool(b), gap) + rest;
    if b {
      assert s[..4] == "true" && s[4..] == rest;
    } else {
      assert s[..5] == "false" && s[5..] == rest;
    }
  }

  lemma ParseLastItem(s: string, item: Json, gap: string, rest: string)
    requires AllSpace(gap) && ParseValue(s) == Some((item, gap + ("]" + rest)))
    ensures ParseItems(s) == Some(([item], rest))
  {
    hide ParseValue;
    SkipGap(gap, "]" + rest);
    assert ("]" + rest)[1..] == rest;
  }

  lemma ParseNextItem(s: string, item: Json, items: seq<Json>, gap: string, more: string, rest: string)
    requires AllSpace(gap) && ParseValue(s) == Some((item, gap + ("," + more))) && ParseItems(more) == Some((items, rest))
    ensures ParseItems(s) == Some(([item] + items, rest))
  {
    hide ParseValue;
    SkipGap(gap, "," + more);
    assert ("," + more)[1..] == more;
  }

  lemma PaddedItems(pad: string, s: string)
    requires AllSpace(pad) && s != [] && !IsSpace(s[0])
    ensures ParseItems(pad + s) == ParseItems(s)
  {
    hide ParseValue;
    ParsePadded(pad, s);
  }

  lemma {:induction false} ParseWrittenItems(items: seq<Json>, gap: string, rest: string)
    requires AllSpace(gap) && items != []
    ensures ParseItems(WriteItems(items, gap) + "]" + rest) == Some((items, rest))
    decreases items, 1
  {
    hide ParseValue, ParseItems, Write, Ends, AllSpace, IsSpace;
    var s := WriteItems(items, gap) + "]" + rest;
    if |items| == 1 {
      ItemEnd(gap, "]" + rest);
      ParseWritten(items[0], gap, gap + ("]" + rest));
      assert s == Write(items[0], gap) + (gap + ("]" + rest));
      ParseLastItem(s, items[0], gap, rest);
      assert items == [items[0]];
    } else {
      var next := WriteItems(items[1..], gap) + "]" + rest;
      var more := gap + next;
      ItemEnd(gap, "," + more);
      ParseWritten(items[0], gap, gap + ("," + more));
      ParseWrittenItems(items[1..], gap, rest);
      FirstItem(items[1..], gap);
      assert next[0] == WriteItems(items[1..], gap)[0];
      PaddedItems(gap, next);
      assert s == Write(items[0], gap) + (gap + ("," + more));
      ParseNextItem(s, items[0], items[1..], gap, more, rest);
      assert items == [items[0]] + items[1..];
    }
  }

  lemma ItemEnd(gap: string, s: string)
    requires AllSpace(gap) && s != [] && (s[0] == ',' || s[0] == ']' || s[0] == '}')
    ensures Ends(gap + s)
  {
    GapEnds(gap, s);
  }

  lemma {:induction false} ParseWrittenMember(m: Member, gap: string, rest: string)
    requires AllSpace(gap) && Ends(rest)
    ensures ParseMember(WriteMember(m, gap) + rest) == Some((m, rest))
    decreases m, 1
  {
    hide ParseValue, Write, ParseText, ParseMember, AllSpace, Ends;
    ParseWritten(m.value, gap, rest);
    AfterName(m, gap, rest);
  }

  /** The name, the colon and a value already known to be read. */
  lemma AfterName(m: Member, gap: string, rest: string)
    requires AllSpace(gap) && ParseValue(Write(m.value, gap) + rest) == Some((m.value, rest))
    ensures ParseMember(WriteMember(m, gap) + rest) == Some((m, rest))
  {
    hide ParseValue, ParseMember, Write, ParseText, AllSpace, PrintText, IsSpace;
    var value := Write(m.value, gap) + rest;
    var tail := ":" + (gap + value);
    var s := PrintText(m.name) + (gap + tail);
    assert WriteMember(m, gap) + rest == s;
    ParsePrintedText(m.name, gap + tail);
    assert s[0] == PrintText(m.name)[0];
    FirstOf(m.value, gap);
    assert value[0] == Write(m.value, gap)[0];
    ParsePadded(gap, value);
    MemberParts(s, m, gap, gap + value, rest);
  }

  lemma MemberParts(s: string, m: Member, gap: string, more: string, rest: string)
    requires AllSpace(gap) && s != [] && s[0] == '"' && ParseText(s[1..]) == Some((m.name, gap + (":" + more)))
    requires ParseValue(more) == Some((m.value, rest))
    ensures ParseMember(s) == Some((m, rest))
  {
    hide ParseValue, ParseText;
    SkipGap(gap, ":" + more);
    assert (":" + more)[1..] == more;
    SkipGap("", s);
    assert "" + s == s;
  }

  lemma ParseLastMember(s: string, member: Member, gap: string, rest: string)
    requires AllSpace(gap) && ParseMember(s) == Some((member, gap + ("}" + rest)))
    ensures ParseMembers(s) == Some(([member], rest))
  {
    hide ParseMember;
    SkipGap(gap, "}" + rest);
    assert ("}" + rest)[1..] == rest;
  }

  lemma ParseNextMember(s: string, member: Member, members: seq<Member>, gap: string, more: string, rest: string)
    requires AllSpace(gap) && ParseMember(s) == Some((member, gap + ("," + more)))
    requires ParseMembers(more) == Some((members, rest))
    ensures ParseMembers(s) == Some(([member] + members, rest))
  {
    hide ParseMember;
    SkipGap(gap, "," + more);
    assert ("," + more)[1..] == more;
  }

  lemma PaddedMembers(pad: string, s: string)
    requires AllSpace(pad) && s != [] && !IsSpace(s[0])
    ensures ParseMembers(pad + s) == ParseMembers(s)
  {
    hide ParseMember;
    ParsePadded(pad, s);
  }

  lemma {:induction false} ParseWrittenMembers(members: seq<Member>, gap: string, rest: string)
    requires AllSpace(gap) && members != []
    ensures ParseMembers(WriteMembers(members, gap) + "}" + rest) == Some((members, rest))
    decreases members, 2
  {
    hide ParseMember, ParseMembers, WriteMember, Ends, AllSpace;
    var s := WriteMembers(members, gap) + "}" + rest;
    if |members| == 1 {
      ItemEnd(gap, "}" + rest);
      ParseWrittenMember(members[0], gap, gap + ("}" + rest));
      assert s == WriteMember(members[0], gap) + (gap + ("}" + rest));
      ParseLastMember(s, members[0], gap, rest);
      assert members == [members[0]];
    } else {
      var next := WriteMembers(members[1..], gap) + "}" + rest;
      var more := gap + next;
      ItemEnd(gap, "," + more);
      ParseWrittenMember(members[0], gap, gap + ("," + more));
      ParseWrittenMembers(members[1..], gap, rest);
      FirstMember(members[1..], gap);
      assert next[0] == WriteMembers(members[1..], gap)[0];
      PaddedMembers(gap, next);
      assert s == WriteMember(members[0], gap) + (gap + ("," + more));
      ParseNextMember(s, members[0], members[1..], gap, more, rest);
      assert members == [members[0]] + members[1..];
    }
  }

  /** Reading a written value gives it back, whatever white space lies between its tokens and around it. */
  lemma ParseWrite(j: Json, gap: string)
    requires AllSpace(gap)
    ensures Parse(gap + Write(j, gap) + gap) == Some(j)
  {
    hide ParseValue, Write;
    var s := Write(j, gap) + gap;
    assert gap + Write(j, gap) + gap == gap + s && gap + [] == gap;
    SkipGap(gap, []);
    GapEnds(gap, []);
    ParseWritten(j, gap, gap);
    FirstOf(j, gap);
    assert s[0] == Write(j, gap)[0];
    ParsePadded(gap, s);
  }

  /** The compact form in particular. */
  lemma ParsePrint(j: Json)
    ensures Parse(Print(j)) == Some(j)
  {
    hide ParseValue, Write;
    ParseWrite(j, "");
    assert "" + Write(j, "") + "" == Write(j, "");
  }

  // What else is read, and what is not

  /** Text after the value is refused. */
  lemma NothingMayFollow(j: Json, gap: string, rest: string)
    requires AllSpace(gap) && rest != [] && (rest[0] == ',' || rest[0] == ']' || rest[0] == '}')
    ensures Parse(Write(j, gap) + rest) == None
  {
    hide ParseValue, Write;
    ParseWritten(j, gap, rest);
  }

  /** A control character that is not escaped is refused. */
  lemma {:induction false} RawControlRefused(before: string, c: char, rest: string)
    requires c < ' '
    ensures ParseText(Escape(before) + [c] + rest) == None
  {
    hide EscapeChar, ParseEscape;
    if before == [] {
      assert (Escape(before) + [c] + rest)[0] == c;
    } else {
      hide ParseText;
      var tail := Escape(before[1..]) + [c] + rest;
      RawControlRefused(before[1..], c, rest);
      NoneAfterEscaped(before[0], tail);
      assert Escape(before) + [c] + rest == EscapeChar(before[0]) + tail;
    }
  }

  lemma NoneAfterEscaped(c: char, tail: string)
    requires ParseText(tail) == None
    ensures ParseText(EscapeChar(c) + tail) == None
  {
    hide EscapeChar, ParseEscape;
    var e := EscapeChar(c);
    EscapeRoundTrip(c, tail);
    var s := e + tail;
    assert s[0] == e[0];
    assert s[1..] == e[1..] + tail;
    if e[0] != '\\' {
      assert s[1..] == tail;
    }
  }

  /** The digit of value `d` in small or capital letters. */
  function HexDigit(d: nat, capital: bool): char
    requires d < 16
  {
    if capital then "0123456789ABCDEF"[d] else "0123456789abcdef"[d]
  }

  function FourDigits(n: nat, capital: bool): string
    requires n < 0x1_0000
  {
    [ HexDigit(n / 0x1000, capital), HexDigit(n / 0x100 % 16, capital),
      HexDigit(n / 16 % 16, capital), HexDigit(n % 16, capital) ]
  }

  lemma FourDigitsRead(n: nat, capital: bool)
    requires n < 0x1_0000
    ensures Hex4(FourDigits(n, capital)) == Some(n)
  {
    hide HexDigit, HexValue;
    Base16(n);
    DigitRead(n / 0x1000, capital);
    DigitRead(n / 0x100 % 16, capital);
    DigitRead(n / 16 % 16, capital);
    DigitRead(n % 16, capital);
  }

  lemma Base16(n: nat)
    requires n < 0x1_0000
    ensures n / 0x1000 < 16 && n / 0x1000 * 4096 + n / 0x100 % 16 * 256 + n / 16 % 16 * 16 + n % 16 == n
  {
    assert n / 0x100 == n / 16 / 16 && n / 0x1000 == n / 0x100 / 16;
  }

  lemma DigitRead(d: nat, capital: bool)
    requires d < 16
    ensures HexValue(HexDigit(d, capital)) == Some(d)
  {
  }

  /** Any character may be written as a backslash, u and four hexadecimal digits, or as two of these where four do
      not suffice. */
  lemma UnicodeEscape(c: char, capital: bool, rest: string)
    ensures c as int < 0x1_0000 ==> ParseEscape(['u'] + FourDigits(c as int, capital) + rest) == Some((c, rest))
    ensures c as int >= 0x1_0000 ==>
              var n := c as int - 0x1_0000;
              var high, low := FourDigits(0xD800 + n / 0x400, capital), FourDigits(0xDC00 + n % 0x400, capital);
              ParseEscape(['u'] + high + ['\\', 'u'] + low + rest) == Some((c, rest))
  {
    hide Hex4, FourDigits;
    if c as int < 0x1_0000 {
      FourDigitsRead(c as int, capital);
      FourLong(c as int, capital);
      var s := ['u'] + FourDigits(c as int, capital) + rest;
      assert s[1..5] == FourDigits(c as int, capital) && s[5..] == rest;
    } else {
      var n := c as int - 0x1_0000;
      var u, v := 0xD800 + n / 0x400, 0xDC00 + n % 0x400;
      FourDigitsRead(u, capital);
      FourDigitsRead(v, capital);
      FourLong(u, capital);
      FourLong(v, capital);
      var s := ['u'] + FourDigits(u, capital) + ['\\', 'u'] + FourDigits(v, capital) + rest;
      assert s[1..5] == FourDigits(u, capital) && s[7..11] == FourDigits(v, capital) && s[11..] == rest;
    }
  }

  lemma FourLong(n: nat, capital: bool)
    requires n < 0x1_0000
    ensures |FourDigits(n, capital)| == 4
  {
  }

  /** The two-character escapes of section 7. */
  lemma ShortEscapes(rest: string)
    ensures ParseEscape(['"'] + rest) == Some(('"', rest)) && ParseEscape(['\\'] + rest) == Some(('\\', rest))
    ensures ParseEscape(['/'] + rest) == Some(('/', rest)) && ParseEscape(['b'] + rest) == Some(('\U{08}', rest))
    ensures ParseEscape(['f'] + rest) == Some(('\U{0C}', rest)) && ParseEscape(['n'] + rest) == Some(('\n', rest))
    ensures ParseEscape(['r'] + rest) == Some(('\r', rest)) && ParseEscape(['t'] + rest) == Some(('\t', rest))
    ensures forall c :: c !in "\"\\/bfnrtu" ==> ParseEscape([c] + rest) == None
  {
    hide Hex4;
    assert forall c: char :: ([c] + rest)[1..] == rest;
  }

  /** Half a pair is refused. */
  lemma LoneSurrogateRefused(n: nat, capital: bool, rest: string)
    requires 0xD800 <= n < 0xE000 && (rest == [] || rest[0] != '\\')
    ensures ParseEscape(['u'] + FourDigits(n, capital) + rest) == None
  {
    hide Hex4, FourDigits;
    FourDigitsRead(n, capital);
    FourLong(n, capital);
    var s := ['u'] + FourDigits(n, capital) + rest;
    assert s[1..5] == FourDigits(n, capital);
    assert rest != [] ==> s[5] == rest[0];
  }
}

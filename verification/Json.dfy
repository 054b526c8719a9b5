/**
 JSON text: the printer of Go's encoding/json for strings, arrays and structs, and a parser of the
 grammar of RFC 8259 that keeps duplicate member names.  Strings are sequences of Unicode scalar
 values, that is, valid UTF-8.
 */
module Json {
  import opened Common

  datatype Member = Member(name: string, value: Json)

  datatype Json =
    | Obj(members: seq<Member>) | Arr(items: seq<Json>) | Str(s: string)
    | Num(text: string) | Bool(b: bool) | Null

  // ---------------------------------------------------------------- printing

  const HEX := "0123456789abcdef"

  /** One character inside a string literal, with the characters that are special in HTML escaped too. */
  function EscapeChar(c: char): (e: string)
    ensures e != [] && e[0] != '"'
  {
    if c == '"' then "\\\""
    else if c == '\\' then "\\\\"
    else if c == '\n' then "\\n"
    else if c == '\r' then "\\r"
    else if c == '\t' then "\\t"
    else if c < ' ' || c == '<' || c == '>' || c == '&' then
      "\\u00" + [HEX[c as int / 16], HEX[c as int % 16]]
    else if c == '\U{2028}' then "\\u2028"
    else if c == '\U{2029}' then "\\u2029"
    else [c]
  }

  function Escape(s: string): string {
    if s == [] then [] else EscapeChar(s[0]) + Escape(s[1..])
  }

  function Quote(s: string): string {
    ['"'] + Escape(s) + ['"']
  }

  /** The values Go prints here: strings, nil, and arrays, maps and structs of these. */
  predicate Printable(j: Json) {
    match j
    case Str(_) => true
    case Null => true
    case Arr(items) => forall i | 0 <= i < |items| :: Printable(items[i])
    case Obj(ms) => forall i | 0 <= i < |ms| :: Printable(ms[i].value)
    case _ => false
  }

  predicate AllPrintable(ms: seq<Member>) {
    forall i | 0 <= i < |ms| :: Printable(ms[i].value)
  }

  function Print(j: Json): string
    requires Printable(j)
    decreases j, 1
  {
    match j
    case Str(s) => Quote(s)
    case Null => "null"
    case Arr(items) => ['['] + PrintItems(items) + [']']
    case Obj(ms) => ['{'] + PrintMembers(ms) + ['}']
  }

  function PrintItems(items: seq<Json>): string
    requires forall i | 0 <= i < |items| :: Printable(items[i])
    decreases items, 0
  {
    if items == [] then []
    else if |items| == 1 then Print(items[0])
    else Print(items[0]) + [','] + PrintItems(items[1..])
  }

  function PrintMember(m: Member): string
    requires Printable(m.value)
    decreases m, 2
  {
    Quote(m.name) + [':'] + Print(m.value)
  }

  function PrintMembers(ms: seq<Member>): string
    requires AllPrintable(ms)
    decreases ms, 0
  {
    if ms == [] then []
    else if |ms| == 1 then PrintMember(ms[0])
    else PrintMember(ms[0]) + [','] + PrintMembers(ms[1..])
  }

  // ---------------------------------------------------------------- members by name

  /** The values of all members of a name, in order. */
  function Named(ms: seq<Member>, name: string): seq<Json> {
    if ms == [] then []
    else (if ms[0].name == name then [ms[0].value] else []) + Named(ms[1..], name)
  }

  lemma {:induction false} NamedAppend(a: seq<Member>, b: seq<Member>, name: string)
    ensures Named(a + b, name) == Named(a, name) + Named(b, name)
    decreases a
  {
    if a == [] {
      assert a + b == b;
    } else {
      assert (a + b)[1..] == a[1..] + b;
      NamedAppend(a[1..], b, name);
    }
  }

  lemma {:induction false} NamedAbsent(ms: seq<Member>, name: string)
    requires forall i | 0 <= i < |ms| :: ms[i].name != name
    ensures Named(ms, name) == []
    decreases ms
  {
    if ms != [] { NamedAbsent(ms[1..], name); }
  }

  /** In an object without repeated names every member is the one of its name. */
  lemma {:induction false} NamedDistinct(ms: seq<Member>, k: nat)
    requires k < |ms| && forall i, j | 0 <= i < j < |ms| :: ms[i].name != ms[j].name
    ensures Named(ms, ms[k].name) == [ms[k].value]
    decreases ms
  {
    if k == 0 { NamedAbsent(ms[1..], ms[0].name); } else { NamedDistinct(ms[1..], k - 1); }
  }

  // ---------------------------------------------------------------- parsing

  predicate IsSpace(c: char) {
    c == ' ' || c == '\t' || c == '\n' || c == '\r'
  }

  function SkipSpace(s: string): (r: string)
    ensures |r| <= |s|
  {
    if s != [] && IsSpace(s[0]) then SkipSpace(s[1..]) else s
  }

  function HexValue(c: char): (v: Option<nat>)
    ensures v.Some? ==> v.value < 16
  {
    if '0' <= c <= '9' then Some(c as int - '0' as int)
    else if 'a' <= c <= 'f' then Some(c as int - 'a' as int + 10)
    else if 'A' <= c <= 'F' then Some(c as int - 'A' as int + 10)
    else None
  }

  /** Four hexadecimal digits. */
  function Hex4(s: string): (r: Option<nat>)
    ensures r.Some? ==> |s| >= 4 && r.value < 0x1_0000
  {
    if |s| < 4 then None else
      var a, b, c, d := HexValue(s[0]), HexValue(s[1]), HexValue(s[2]), HexValue(s[3]);
      if a.None? || b.None? || c.None? || d.None? then None
      else Some(((a.value * 16 + b.value) * 16 + c.value) * 16 + d.value)
  }

  predicate HighSurrogate(n: nat) { 0xD800 <= n < 0xDC00 }

  predicate LowSurrogate(n: nat) { 0xDC00 <= n < 0xE000 }

  type Parsed<T> = Option<(T, string)>

  /** What follows a backslash: the character meant and the rest. */
  function ParseEscape(s: string): (r: Parsed<char>)
    ensures r.Some? ==> |r.value.1| < |s|
  {
    if s == [] then None
    else if s[0] == '"' || s[0] == '\\' || s[0] == '/' then Some((s[0], s[1..]))
    else if s[0] == 'b' then Some(('\U{8}', s[1..]))
    else if s[0] == 'f' then Some(('\U{c}', s[1..]))
    else if s[0] == 'n' then Some(('\n', s[1..]))
    else if s[0] == 'r' then Some(('\r', s[1..]))
    else if s[0] == 't' then Some(('\t', s[1..]))
    else if s[0] == 'u' then
      var n := Hex4(s[1..]);
      if n.None? then None
      else if HighSurrogate(n.value) && |s| >= 7 && s[5..7] == "\\u" && Hex4(s[7..]).Some? && LowSurrogate(Hex4(s[7..]).value) then
        Some(((0x1_0000 + (n.value - 0xD800) * 0x400 + (Hex4(s[7..]).value - 0xDC00)) as char, s[11..]))
      else if HighSurrogate(n.value) || LowSurrogate(n.value) then Some(('\U{FFFD}', s[5..]))
      else Some((n.value as char, s[5..]))
    else None
  }

  /** The inside of a string literal, after its opening quote. */
  function ParseChars(s: string): (r: Parsed<string>)
    ensures r.Some? ==> |r.value.1| < |s|
    decreases |s|
  {
    if s == [] || s[0] < ' ' then None
    else if s[0] == '"' then Some(("", s[1..]))
    else
      var c := if s[0] == '\\' then ParseEscape(s[1..]) else Some((s[0], s[1..]));
      if c.None? then None else
        var more := ParseChars(c.value.1);
        if more.None? then None else Some(([c.value.0] + more.value.0, more.value.1))
  }

  function Digits(s: string): (r: string)
    ensures |r| <= |s|
  {
    if s != [] && '0' <= s[0] <= '9' then Digits(s[1..]) else s
  }

  /** What is left after the exponent of a number, if it has one. */
  function AfterExponent(s: string): (r: Option<string>)
    ensures r.Some? ==> |r.value| <= |s|
  {
    if s == [] || (s[0] != 'e' && s[0] != 'E') then Some(s) else
      var t := if |s| > 1 && (s[1] == '+' || s[1] == '-') then s[2..] else s[1..];
      if |Digits(t)| == |t| then None else Some(Digits(t))
  }

  /** What is left after the fraction and exponent of a number. */
  function AfterInteger(s: string): (r: Option<string>)
    ensures r.Some? ==> |r.value| <= |s|
  {
    if s == [] || s[0] != '.' then AfterExponent(s)
    else if |Digits(s[1..])| == |s| - 1 then None
    else AfterExponent(Digits(s[1..]))
  }

  function ParseNumber(s: string): (r: Parsed<Json>)
    ensures r.Some? ==> |r.value.1| < |s|
  {
    var t := if s != [] && s[0] == '-' then s[1..] else s;
    if t == [] || !('0' <= t[0] <= '9') then None else
      var rest := AfterInteger(if t[0] == '0' then t[1..] else Digits(t));
      if rest.None? then None else Some((Num(s[..|s| - |rest.value|]), rest.value))
  }

  function ParseWord(s: string, word: string, j: Json): (r: Parsed<Json>)
    requires word != []
    ensures r.Some? ==> |r.value.1| < |s|
  {
    if word <= s then Some((j, s[|word|..])) else None
  }

  function ParseValue(s: string): (r: Parsed<Json>)
    ensures r.Some? ==> |r.value.1| < |s|
    decreases |s|, 0
  {
    var t := SkipSpace(s);
    if t == [] then None
    else if t[0] == '{' then
      var u := SkipSpace(t[1..]);
      if u != [] && u[0] == '}' then Some((Obj([]), u[1..])) else
        var ms := ParseMembers(u);
        if ms.None? then None else Some((Obj(ms.value.0), ms.value.1))
    else if t[0] == '[' then
      var u := SkipSpace(t[1..]);
      if u != [] && u[0] == ']' then Some((Arr([]), u[1..])) else
        var items := ParseItems(u);
        if items.None? then None else Some((Arr(items.value.0), items.value.1))
    else if t[0] == '"' then
      var cs := ParseChars(t[1..]);
      if cs.None? then None else Some((Str(cs.value.0), cs.value.1))
    else if t[0] == 't' then ParseWord(t, "true", Bool(true))
    else if t[0] == 'f' then ParseWord(t, "false", Bool(false))
    else if t[0] == 'n' then ParseWord(t, "null", Null)
    else ParseNumber(t)
  }

  /** One member of an object. */
  function ParseMember(s: string): (r: Parsed<Member>)
    ensures r.Some? ==> |r.value.1| < |s|
    decreases |s|, 0
  {
    var t := SkipSpace(s);
    if t == [] || t[0] != '"' then None else
      var name := ParseChars(t[1..]);
      if name.None? then None else
        var u := SkipSpace(name.value.1);
        if u == [] || u[0] != ':' then None else
          var v := ParseValue(u[1..]);
          if v.None? then None else Some((Member(name.value.0, v.value.0), v.value.1))
  }

  /** The members of a non-empty object, up to its closing brace. */
  function ParseMembers(s: string): (r: Parsed<seq<Member>>)
    ensures r.Some? ==> |r.value.1| < |s|
    decreases |s|, 1
  {
    var m := ParseMember(s);
    if m.None? then None else
      var t := SkipSpace(m.value.1);
      if t == [] then None
      else if t[0] == '}' then Some(([m.value.0], t[1..]))
      else if t[0] != ',' then None
      else
        var more := ParseMembers(t[1..]);
        if more.None? then None else Some(([m.value.0] + more.value.0, more.value.1))
  }

  /** The elements of a non-empty array, up to its closing bracket. */
  function ParseItems(s: string): (r: Parsed<seq<Json>>)
    ensures r.Some? ==> |r.value.1| < |s|
    decreases |s|, 1
  {
    var v := ParseValue(s);
    if v.None? then None else
      var t := SkipSpace(v.value.1);
      if t == [] then None
      else if t[0] == ']' then Some(([v.value.0], t[1..]))
      else if t[0] != ',' then None
      else
        var more := ParseItems(t[1..]);
        if more.None? then None else Some(([v.value.0] + more.value.0, more.value.1))
  }

  /** A whole text: one value, with nothing but space around it. */
  function Parse(s: string): Option<Json> {
    var v := ParseValue(s);
    if v.Some? && SkipSpace(v.value.1) == [] then Some(v.value.0) else None
  }

  // ---------------------------------------------------------------- what is printed is read back

  lemma HexDigits(n: nat)
    requires n < 16
    ensures HexValue(HEX[n]) == Some(n)
  {
  }

  /** A hexadecimal escape outside the surrogate range means its code. */
  lemma ParseHexEscape(a: char, b: char, c: char, d: char, rest: string, n: nat)
    requires HexValue(a).Some? && HexValue(b).Some? && HexValue(c).Some? && HexValue(d).Some?
    requires n == ((HexValue(a).value * 16 + HexValue(b).value) * 16 + HexValue(c).value) * 16 + HexValue(d).value < 0xD800
    ensures ParseEscape(['u', a, b, c, d] + rest) == Some((n as char, rest))
  {
    var e := ['u', a, b, c, d] + rest;
    assert e[1..] == [a, b, c, d] + rest;
    assert e[5..] == rest;
  }

  lemma ParseEscapedChar(c: char, rest: string)
    requires EscapeChar(c) != [c]
    ensures EscapeChar(c)[0] == '\\' && ParseEscape(EscapeChar(c)[1..] + rest) == Some((c, rest))
  {
    var n := c as int;
    var e := EscapeChar(c)[1..] + rest;
    if c == '"' || c == '\\' || c == '\n' || c == '\r' || c == '\t' {
      assert e == [e[0]] + rest && e[1..] == rest;
    } else if c == '\U{2028}' {
      assert e == ['u', '2', '0', '2', '8'] + rest;
      ParseHexEscape('2', '0', '2', '8', rest, n);
    } else if c == '\U{2029}' {
      assert e == ['u', '2', '0', '2', '9'] + rest;
      ParseHexEscape('2', '0', '2', '9', rest, n);
    } else {
      HexDigits(n / 16);
      HexDigits(n % 16);
      assert e == ['u', '0', '0', HEX[n / 16], HEX[n % 16]] + rest;
      ParseHexEscape('0', '0', HEX[n / 16], HEX[n % 16], rest, n);
    }
  }

  lemma ReadPlain(c: char, tail: string, s: string, rest: string)
    requires ' ' <= c && c != '"' && c != '\\' && ParseChars(tail) == Some((s, rest))
    ensures ParseChars([c] + tail) == Some(([c] + s, rest))
  {
    assert ([c] + tail)[1..] == tail;
  }

  lemma ReadEscape(e: string, c: char, tail: string, s: string, rest: string)
    requires ParseEscape(e) == Some((c, tail)) && ParseChars(tail) == Some((s, rest))
    ensures ParseChars(['\\'] + e) == Some(([c] + s, rest))
  {
    assert (['\\'] + e)[1..] == e;
  }

  lemma ReadEnd(rest: string)
    ensures ParseChars(['"'] + rest) == Some(("", rest))
  {
    assert (['"'] + rest)[1..] == rest;
  }

  lemma Assoc3(a: string, b: string, c: string)
    ensures a + b + c == a + (b + c)
  {
  }

  lemma TakeDrop(a: string, b: string)
    ensures (a + b)[..|a|] == a && (a + b)[|a|..] == b
  {
  }

  lemma EscapeTail(s: string, rest: string)
    requires s != []
    ensures Escape(s) + ['"'] + rest == EscapeChar(s[0]) + (Escape(s[1..]) + ['"'] + rest)
  {
    var e, t := EscapeChar(s[0]), Escape(s[1..]);
    Assoc3(e, t, ['"']);
    Assoc3(e, t + ['"'], rest);
  }

  lemma Unhead(e: string, tail: string)
    requires e != []
    ensures e + tail == [e[0]] + (e[1..] + tail)
  {
  }

  lemma {:induction false} ParseEscaped(s: string, rest: string)
    ensures ParseChars(Escape(s) + ['"'] + rest) == Some((s, rest))
    decreases |s|
  {
    if s == [] {
      ReadEnd(rest);
      assert Escape(s) + ['"'] + rest == ['"'] + rest;
    } else {
      var c, e := s[0], EscapeChar(s[0]);
      var tail := Escape(s[1..]) + ['"'] + rest;
      EscapeTail(s, rest);
      ParseEscaped(s[1..], rest);
      assert [c] + s[1..] == s;
      if e == [c] {
        ReadPlain(c, tail, s[1..], rest);
      } else {
        ParseEscapedChar(c, tail);
        ReadEscape(e[1..] + tail, c, tail, s[1..], rest);
        Unhead(e, tail);
      }
    }
  }

  lemma QuoteTail(name: string, rest: string)
    ensures Quote(name) + rest == ['"'] + (Escape(name) + ['"'] + rest)
  {
    Assoc3(['"'], Escape(name), ['"']);
    Assoc3(['"'], Escape(name) + ['"'], rest);
  }

  lemma ParseQuoted(name: string, rest: string) returns (t: string)
    ensures Quote(name) + rest == ['"'] + t && ParseChars(t) == Some((name, rest))
  {
    t := Escape(name) + ['"'] + rest;
    QuoteTail(name, rest);
    ParseEscaped(name, rest);
  }

  // ---- one parsing step at a time

  lemma ReadString(t: string, s: string, rest: string)
    requires ParseChars(t) == Some((s, rest))
    ensures ParseValue(['"'] + t) == Some((Str(s), rest))
  {
    assert (['"'] + t)[1..] == t;
  }

  lemma ReadNull(rest: string)
    ensures ParseValue("null" + rest) == Some((Null, rest))
  {
    TakeDrop("null", rest);
  }

  lemma ReadEmpty(rest: string)
    ensures ParseValue(['[', ']'] + rest) == Some((Arr([]), rest))
    ensures ParseValue(['{', '}'] + rest) == Some((Obj([]), rest))
  {
    assert (['[', ']'] + rest)[1..] == [']'] + rest && ([']'] + rest)[1..] == rest;
    assert (['{', '}'] + rest)[1..] == ['}'] + rest && (['}'] + rest)[1..] == rest;
  }

  lemma ReadArray(t: string, items: seq<Json>, rest: string)
    requires t != [] && !IsSpace(t[0]) && t[0] != ']' && ParseItems(t) == Some((items, rest))
    ensures ParseValue(['['] + t) == Some((Arr(items), rest))
  {
    assert (['['] + t)[1..] == t;
  }

  lemma ReadObject(t: string, ms: seq<Member>, rest: string)
    requires t != [] && t[0] == '"' && ParseMembers(t) == Some((ms, rest))
    ensures ParseValue(['{'] + t) == Some((Obj(ms), rest))
  {
    assert (['{'] + t)[1..] == t;
  }

  lemma ReadLastItem(s: string, v: Json, rest: string)
    requires ParseValue(s) == Some((v, [']'] + rest))
    ensures ParseItems(s) == Some(([v], rest))
  {
    assert ([']'] + rest)[1..] == rest;
  }

  lemma ReadItems(s: string, v: Json, tail: string, items: seq<Json>, rest: string)
    requires ParseValue(s) == Some((v, [','] + tail)) && ParseItems(tail) == Some((items, rest))
    ensures ParseItems(s) == Some(([v] + items, rest))
  {
    assert ([','] + tail)[1..] == tail;
  }

  lemma ReadLastMember(s: string, m: Member, rest: string)
    requires ParseMember(s) == Some((m, ['}'] + rest))
    ensures ParseMembers(s) == Some(([m], rest))
  {
    assert (['}'] + rest)[1..] == rest;
  }

  lemma ReadMembers(s: string, m: Member, tail: string, ms: seq<Member>, rest: string)
    requires ParseMember(s) == Some((m, [','] + tail)) && ParseMembers(tail) == Some((ms, rest))
    ensures ParseMembers(s) == Some(([m] + ms, rest))
  {
    assert ([','] + tail)[1..] == tail;
  }

  /** An object whose later members do not parse does not parse. */
  lemma ReadNoMembers(s: string, m: Member, tail: string)
    requires ParseMember(s) == Some((m, [','] + tail)) && ParseMembers(tail).None?
    ensures ParseMembers(s).None?
  {
    assert ([','] + tail)[1..] == tail;
  }

  lemma ReadMember(t: string, name: string, u: string, v: Json, rest: string)
    requires ParseChars(t) == Some((name, [':'] + u)) && ParseValue(u) == Some((v, rest))
    ensures ParseMember(['"'] + t) == Some((Member(name, v), rest))
  {
    assert (['"'] + t)[1..] == t;
    assert ([':'] + u)[1..] == u;
  }

  // ---- whole values

  lemma Regroup(p: string, c: char, q: string, d: char, rest: string)
    ensures p + [c] + q + [d] + rest == p + ([c] + (q + [d] + rest))
    ensures p + [d] + rest == p + ([d] + rest)
  {
  }

  lemma Beside(p: string, c: char, q: string, rest: string)
    ensures p + [c] + q + rest == p + ([c] + (q + rest))
  {
  }

  lemma Enclosed(c: char, p: string, d: char, rest: string)
    ensures [c] + p + [d] + rest == [c] + (p + [d] + rest)
  {
  }

  /** Printed text never starts with space or a closing bracket. */
  lemma PrintStarts(j: Json)
    requires Printable(j)
    ensures Print(j) != [] && (Print(j)[0] == '"' || Print(j)[0] == '{' || Print(j)[0] == '[' || Print(j)[0] == 'n')
  {
  }

  /** Reading back what was printed, whatever text comes after it. */
  lemma {:induction false} ParsePrinted(j: Json, rest: string)
    requires Printable(j)
    ensures ParseValue(Print(j) + rest) == Some((j, rest))
    decreases j, 1
  {
    match j
    case Str(s) =>
      var t := ParseQuoted(s, rest);
      ReadString(t, s, rest);
    case Null => ReadNull(rest);
    case Arr(items) =>
      if items == [] {
        ReadEmpty(rest);
        assert Print(j) + rest == ['[', ']'] + rest;
      } else {
        var t := ParsePrintedItems(items, rest);
        ReadArray(t, items, rest);
        Enclosed('[', PrintItems(items), ']', rest);
      }
    case Obj(ms) =>
      if ms == [] {
        ReadEmpty(rest);
        assert Print(j) + rest == ['{', '}'] + rest;
      } else {
        var t := ParsePrintedMembers(ms, rest);
        ReadObject(t, ms, rest);
        Enclosed('{', PrintMembers(ms), '}', rest);
      }
  }

  lemma {:induction false} ParsePrintedItems(items: seq<Json>, rest: string) returns (t: string)
    requires items != [] && forall i | 0 <= i < |items| :: Printable(items[i])
    ensures t == PrintItems(items) + [']'] + rest && ParseItems(t) == Some((items, rest))
    ensures t != [] && !IsSpace(t[0]) && t[0] != ']'
    decreases items, 0
  {
    t := PrintItems(items) + [']'] + rest;
    PrintStarts(items[0]);
    var p := Print(items[0]);
    if |items| == 1 {
      ParsePrinted(items[0], [']'] + rest);
      ReadLastItem(p + ([']'] + rest), items[0], rest);
      Regroup(p, ',', [], ']', rest);
      assert [items[0]] == items;
    } else {
      var tail := ParsePrintedItems(items[1..], rest);
      ParsePrinted(items[0], [','] + tail);
      ReadItems(p + ([','] + tail), items[0], tail, items[1..], rest);
      Regroup(p, ',', PrintItems(items[1..]), ']', rest);
      assert [items[0]] + items[1..] == items;
    }
  }

  lemma {:induction false} ParsePrintedMember(m: Member, rest: string)
    requires Printable(m.value)
    ensures ParseMember(PrintMember(m) + rest) == Some((m, rest))
    ensures PrintMember(m)[0] == '"'
    decreases m, 2
  {
    var u := Print(m.value) + rest;
    ParsePrinted(m.value, rest);
    var t := ParseQuoted(m.name, [':'] + u);
    ReadMember(t, m.name, u, m.value, rest);
    Beside(Quote(m.name), ':', Print(m.value), rest);
  }

  lemma MembersStart(ms: seq<Member>)
    requires ms != [] && AllPrintable(ms)
    ensures PrintMembers(ms) != [] && PrintMembers(ms)[0] == '"'
  {
    assert PrintMember(ms[0])[0] == '"';
  }

  lemma {:induction false} ParsePrintedMembers(ms: seq<Member>, rest: string) returns (t: string)
    requires ms != [] && AllPrintable(ms)
    ensures t == PrintMembers(ms) + ['}'] + rest && ParseMembers(t) == Some((ms, rest))
    ensures t != [] && t[0] == '"'
    decreases ms, 0
  {
    t := PrintMembers(ms) + ['}'] + rest;
    MembersStart(ms);
    var p := PrintMember(ms[0]);
    if |ms| == 1 {
      ParsePrintedMember(ms[0], ['}'] + rest);
      ReadLastMember(p + (['}'] + rest), ms[0], rest);
      Regroup(p, ',', [], '}', rest);
      assert [ms[0]] == ms;
    } else {
      var tail := ParsePrintedMembers(ms[1..], rest);
      ParsePrintedMember(ms[0], [','] + tail);
      ReadMembers(p + ([','] + tail), ms[0], tail, ms[1..], rest);
      Regroup(p, ',', PrintMembers(ms[1..]), '}', rest);
      assert [ms[0]] + ms[1..] == ms;
    }
  }

  /** Every printable value, duplicates and order included, is what its text means. */
  lemma PrintRoundTrip(j: Json)
    requires Printable(j)
    ensures Parse(Print(j)) == Some(j)
  {
    ParsePrinted(j, []);
    assert Print(j) + [] == Print(j);
  }

  // ---------------------------------------------------------------- compaction

  /**
   What json.Marshal does to the text of a custom marshaller once it has parsed: space outside
   strings is dropped, and the characters that are special in HTML are escaped.
   */
  function Compact(s: string, inString: bool): string
    decreases |s|
  {
    if s == [] then []
    else if !inString then
      (if IsSpace(s[0]) then [] else [s[0]]) + Compact(s[1..], s[0] == '"')
    else if s[0] == '\\' && |s| > 1 then s[..2] + Compact(s[2..], true)
    else if s[0] == '"' then [s[0]] + Compact(s[1..], false)
    else (if IsHtml(s[0]) then EscapeChar(s[0]) else [s[0]]) + Compact(s[1..], true)
  }

  predicate IsHtml(c: char) {
    c == '<' || c == '>' || c == '&' || c == '\U{2028}' || c == '\U{2029}'
  }

  /** Inside a string, text without quotes, backslashes and HTML characters is left as it is. */
  lemma {:induction false} CompactPlain(p: string, rest: string)
    requires Plain(p)
    ensures Compact(p + rest, true) == p + Compact(rest, true)
  {
    if p == [] {
      assert p + rest == rest;
    } else {
      CompactPlain(p[1..], rest);
      Unhead(p, rest);
      Unhead(p, Compact(rest, true));
      TakeDrop([p[0]], p[1..] + rest);
    }
  }

  predicate Plain(p: string) {
    forall i | 0 <= i < |p| :: PlainChar(p[i])
  }

  /** A backslash and the character after it are copied. */
  lemma CompactPair(d: char, p: string, rest: string)
    requires Plain(p)
    ensures Compact(['\\', d] + p + rest, true) == ['\\', d] + p + Compact(rest, true)
  {
    var e := ['\\', d];
    Assoc3(e, p, rest);
    Assoc3(e, p, Compact(rest, true));
    TakeDrop(e, p + rest);
    CompactPlain(p, rest);
  }

  /** An escape is a backslash, a character and then plain hexadecimal digits if anything. */
  lemma EscapeShape(c: char) returns (d: char, p: string)
    requires EscapeChar(c) != [c]
    ensures EscapeChar(c) == ['\\', d] + p && Plain(p)
  {
    if c == '"' || c == '\\' {
      d, p := c, [];
    } else if c == '\n' || c == '\r' || c == '\t' {
      d, p := EscapeChar(c)[1], [];
    } else if c == '\U{2028}' || c == '\U{2029}' {
      var l := if c == '\U{2028}' then '8' else '9';
      Plain4('2', '0', '2', l);
      d, p := 'u', ['2', '0', '2', l];
    } else {
      var h, l := HEX[c as int / 16], HEX[c as int % 16];
      PlainDigit(c as int / 16);
      PlainDigit(c as int % 16);
      Plain4('0', '0', h, l);
      HexText(h, l);
      d, p := 'u', ['0', '0', h, l];
    }
  }

  predicate PlainChar(c: char) {
    c != '"' && c != '\\' && !IsHtml(c)
  }

  lemma Plain4(a: char, b: char, c: char, d: char)
    requires PlainChar(a) && PlainChar(b) && PlainChar(c) && PlainChar(d)
    ensures Plain([a, b, c, d])
  {
  }

  lemma HexText(h: char, l: char)
    ensures "\\u00" + [h, l] == ['\\', 'u'] + ['0', '0', h, l]
  {
  }

  lemma PlainDigit(n: nat)
    requires n < 16
    ensures PlainChar(HEX[n])
  {
  }

  lemma CompactEscapedChar(c: char, rest: string)
    ensures Compact(EscapeChar(c) + rest, true) == EscapeChar(c) + Compact(rest, true)
  {
    if EscapeChar(c) == [c] {
      CompactPlain([c], rest);
    } else {
      var d, p := EscapeShape(c);
      CompactPair(d, p, rest);
    }
  }

  lemma {:induction false} CompactEscaped(s: string, rest: string)
    ensures Compact(Escape(s) + ['"'] + rest, true) == Escape(s) + ['"'] + Compact(rest, false)
    decreases |s|
  {
    if s == [] {
      assert Escape(s) + ['"'] + rest == ['"'] + rest;
      assert (['"'] + rest)[1..] == rest;
    } else {
      var tail := Escape(s[1..]) + ['"'] + rest;
      EscapeTail(s, rest);
      EscapeTail(s, Compact(rest, false));
      CompactEscapedChar(s[0], tail);
      CompactEscaped(s[1..], rest);
    }
  }

  lemma CompactQuoted(s: string, rest: string)
    ensures Compact(Quote(s) + rest, false) == Quote(s) + Compact(rest, false)
  {
    QuoteTail(s, rest);
    QuoteTail(s, Compact(rest, false));
    TakeDrop(['"'], Escape(s) + ['"'] + rest);
    CompactEscaped(s, rest);
  }

  lemma CompactMark(c: char, rest: string)
    requires !IsSpace(c) && c != '"'
    ensures Compact([c] + rest, false) == [c] + Compact(rest, false)
  {
    assert ([c] + rest)[1..] == rest;
  }

  lemma CompactNull(rest: string)
    ensures Compact("null" + rest, false) == "null" + Compact(rest, false)
  {
    var r := Compact(rest, false);
    CompactMark('l', rest);
    CompactMark('l', ['l'] + rest);
    CompactMark('u', ['l'] + (['l'] + rest));
    CompactMark('n', ['u'] + (['l'] + (['l'] + rest)));
    assert ['n'] + (['u'] + (['l'] + (['l'] + rest))) == "null" + rest;
    assert ['n'] + (['u'] + (['l'] + (['l'] + r))) == "null" + r;
  }

  /** What this printer writes is already compact. */
  lemma {:induction false} CompactPrinted(j: Json, rest: string)
    requires Printable(j)
    ensures Compact(Print(j) + rest, false) == Print(j) + Compact(rest, false)
    decreases j, 1
  {
    var r := Compact(rest, false);
    match j
    case Str(s) => CompactQuoted(s, rest);
    case Null => CompactNull(rest);
    case Arr(items) =>
      var p := PrintItems(items);
      Enclosed('[', p, ']', rest);
      Enclosed('[', p, ']', r);
      Regroup(p, ',', [], ']', rest);
      Regroup(p, ',', [], ']', r);
      CompactMark('[', p + ([']'] + rest));
      CompactItems(items, [']'] + rest);
      CompactMark(']', rest);
    case Obj(ms) =>
      var p := PrintMembers(ms);
      Enclosed('{', p, '}', rest);
      Enclosed('{', p, '}', r);
      Regroup(p, ',', [], '}', rest);
      Regroup(p, ',', [], '}', r);
      CompactMark('{', p + (['}'] + rest));
      CompactMembers(ms, ['}'] + rest);
      CompactMark('}', rest);
  }

  lemma {:induction false} CompactItems(items: seq<Json>, rest: string)
    requires forall i | 0 <= i < |items| :: Printable(items[i])
    ensures Compact(PrintItems(items) + rest, false) == PrintItems(items) + Compact(rest, false)
    decreases items, 0
  {
    if items == [] {
      assert PrintItems(items) + rest == rest;
    } else if |items| == 1 {
      CompactPrinted(items[0], rest);
    } else {
      var p, q := Print(items[0]), PrintItems(items[1..]);
      CompactPrinted(items[0], [','] + (q + rest));
      CompactMark(',', q + rest);
      CompactItems(items[1..], rest);
      Beside(p, ',', q, rest);
      Beside(p, ',', q, Compact(rest, false));
    }
  }

  lemma {:induction false} CompactMembers(ms: seq<Member>, rest: string)
    requires AllPrintable(ms)
    ensures Compact(PrintMembers(ms) + rest, false) == PrintMembers(ms) + Compact(rest, false)
    decreases ms, 0
  {
    if ms == [] {
      assert PrintMembers(ms) + rest == rest;
    } else if |ms| == 1 {
      CompactMember(ms[0], rest);
    } else {
      var p, q := PrintMember(ms[0]), PrintMembers(ms[1..]);
      CompactMember(ms[0], [','] + (q + rest));
      CompactMark(',', q + rest);
      CompactMembers(ms[1..], rest);
      Beside(p, ',', q, rest);
      Beside(p, ',', q, Compact(rest, false));
    }
  }

  lemma {:induction false} CompactMember(m: Member, rest: string)
    requires Printable(m.value)
    ensures Compact(PrintMember(m) + rest, false) == PrintMember(m) + Compact(rest, false)
    decreases m, 2
  {
    var p, q := Quote(m.name), Print(m.value);
    CompactQuoted(m.name, [':'] + (q + rest));
    CompactMark(':', q + rest);
    CompactPrinted(m.value, rest);
    Beside(p, ':', q, rest);
    Beside(p, ':', q, Compact(rest, false));
  }

  lemma CompactPrintedText(j: Json)
    requires Printable(j)
    ensures Compact(Print(j), false) == Print(j)
  {
    CompactPrinted(j, []);
    assert Print(j) + [] == Print(j);
  }
}

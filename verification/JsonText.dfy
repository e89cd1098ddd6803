/**
 JSON values, the compact printer `JSON.stringify` uses, and the reader `JSON.parse`
 (RFC 8259).  The printer and the reader meet in one theorem: reading a printed value
 returns that value and leaves exactly the text that followed it.

 An object is its list of fields in enumeration order.  Numbers are carried by value; how a
 number is written belongs to the host and comes in as `Numerals`.
 */
module JsonText {
  import opened Base

  datatype Field = Field(key: string, value: Json)

  datatype Json =
    | Null
    | Bool(b: bool)
    | Num(n: real)
    | Str(s: string)
    | Arr(items: seq<Json>)
    | Obj(fields: seq<Field>)

  /** How the host writes and reads numbers; `double` picks out the numbers it can hold. */
  datatype Numerals = Numerals(double: real -> bool, show: real -> string, read: string -> Option<real>)

  /** The characters a JSON number is written with (RFC 8259, section 6). */
  predicate NumeralChar(c: char) {
    '0' <= c <= '9' || c == '-' || c == '+' || c == '.' || c == 'e' || c == 'E'
  }

  /** Writing a number and reading it back loses nothing. */
  ghost predicate Faithful(nm: Numerals) {
    forall x {:trigger nm.show(x)} :: nm.double(x) ==>
      && nm.show(x) != ""
      && (forall i :: 0 <= i < |nm.show(x)| ==> NumeralChar(nm.show(x)[i]))
      && nm.read(nm.show(x)) == Some(x)
  }

  predicate DistinctKeys(fs: seq<Field>) {
    forall i, j :: 0 <= i < j < |fs| ==> fs[i].key != fs[j].key
  }

  /** Values a JavaScript program can hold: representable numbers, one field per key. */
  ghost predicate WellFormed(v: Json, nm: Numerals) {
    match v
    case Num(n) => nm.double(n)
    case Arr(items) => forall x | x in items :: WellFormed(x, nm)
    case Obj(fs) => DistinctKeys(fs) && forall f | f in fs :: WellFormed(f.value, nm)
    case _ => true
  }

  /* ---------------------------------------------------------------- printing */

  function HexDigit(d: int): (c: char)
    requires 0 <= d < 16
  {
    if d < 10 then ('0' as int + d) as char else ('a' as int + (d - 10)) as char
  }

  /** One character inside a JSON string (RFC 8259, section 7). */
  function EscapeChar(c: char): (s: string)
    ensures s != ""
  {
    if c == '"' then ['\\', '"']
    else if c == '\\' then ['\\', '\\']
    else if c == '\U{0008}' then ['\\', 'b']
    else if c == '\U{000C}' then ['\\', 'f']
    else if c == '\n' then ['\\', 'n']
    else if c == '\r' then ['\\', 'r']
    else if c == '\t' then ['\\', 't']
    else if c < ' ' then ['\\', 'u', '0', '0', HexDigit(c as int / 16), HexDigit(c as int % 16)]
    else [c]
  }

  function Escape(s: string): string {
    if s == "" then "" else EscapeChar(s[0]) + Escape(s[1..])
  }

  function Quote(s: string): string {
    ['"'] + (Escape(s) + ['"'])
  }

  function Print(v: Json, nm: Numerals): string
    decreases v, 1
  {
    match v
    case Null => "null"
    case Bool(b) => if b then "true" else "false"
    case Num(n) => nm.show(n)
    case Str(s) => Quote(s)
    case Arr(items) => ['['] + (PrintItems(items, nm) + [']'])
    case Obj(fs) => ['{'] + (PrintFields(fs, nm) + ['}'])
  }

  function PrintItems(items: seq<Json>, nm: Numerals): string
    decreases items, 0
  {
    if items == [] then ""
    else if |items| == 1 then Print(items[0], nm)
    else Print(items[0], nm) + ([','] + PrintItems(items[1..], nm))
  }

  function PrintFields(fs: seq<Field>, nm: Numerals): string
    decreases fs, 0
  {
    if fs == [] then ""
    else if |fs| == 1 then PrintField(fs[0], nm)
    else PrintField(fs[0], nm) + ([','] + PrintFields(fs[1..], nm))
  }

  function PrintField(f: Field, nm: Numerals): string
    decreases f, 0
  {
    Quote(f.key) + ([':'] + Print(f.value, nm))
  }

  /* ----------------------------------------------------------------- reading */

  predicate Blank(c: char) { c == ' ' || c == '\t' || c == '\n' || c == '\r' }

  function SkipBlank(t: string): (r: string)
    ensures |r| <= |t|
    ensures r == "" || !Blank(r[0])
    ensures t == "" || !Blank(t[0]) ==> r == t
  {
    if t != "" && Blank(t[0]) then SkipBlank(t[1..]) else t
  }

  function HexValue(c: char): (r: Option<int>)
    ensures r.Some? ==> 0 <= r.value < 16
  {
    if '0' <= c <= '9' then Some(c as int - '0' as int)
    else if 'a' <= c <= 'f' then Some(c as int - 'a' as int + 10)
    else if 'A' <= c <= 'F' then Some(c as int - 'A' as int + 10)
    else None
  }

  /** The code unit written by the four hexadecimal digits at the start of `t`. */
  function HexQuad(t: string): (u: Option<int>)
    ensures u.Some? ==> |t| >= 4 && 0 <= u.value < 0x10000
  {
    if |t| < 4 then None
    else
      match (HexValue(t[0]), HexValue(t[1]), HexValue(t[2]), HexValue(t[3]))
      case (Some(a), Some(b), Some(c), Some(d)) => Some(((a * 16 + b) * 16 + c) * 16 + d)
      case _ => None
  }

  /** The character after a `\u`, and the text behind it; a surrogate pair is one character. */
  function ReadUnicode(t: string): (r: Option<(char, string)>)
    ensures r.Some? ==> |r.value.1| < |t|
  {
    match HexQuad(t)
    case None => None
    case Some(u) =>
      if 0xD800 <= u < 0xDC00 then
        if |t| >= 6 && t[4] == '\\' && t[5] == 'u' then
          match HexQuad(t[6..])
          case Some(low) =>
            if 0xDC00 <= low < 0xE000 then
              Some(((0x10000 + (u - 0xD800) * 0x400 + (low - 0xDC00)) as char, t[10..]))
            else None
          case None => None
        else None
      else if 0xDC00 <= u < 0xE000 then None
      else Some((u as char, t[4..]))
  }

  /** The character a two-character escape stands for. */
  function Unescape(c: char): Option<char> {
    if c == '"' || c == '\\' || c == '/' then Some(c)
    else if c == 'b' then Some('\U{0008}')
    else if c == 'f' then Some('\U{000C}')
    else if c == 'n' then Some('\n')
    else if c == 'r' then Some('\r')
    else if c == 't' then Some('\t')
    else None
  }

  /** Reads a string body up to its closing quote. */
  function ParseChars(t: string): (r: Option<(string, string)>)
    ensures r.Some? ==> |r.value.1| < |t|
    decreases |t|
  {
    if t == "" || t[0] < ' ' then None
    else if t[0] == '"' then Some(("", t[1..]))
    else if t[0] == '\\' then
      if |t| < 2 then None
      else if t[1] == 'u' then
        match ReadUnicode(t[2..])
        case None => None
        case Some((c, rest)) => PrependChar(c, ParseChars(rest))
      else
        match Unescape(t[1])
        case None => None
        case Some(c) => PrependChar(c, ParseChars(t[2..]))
    else PrependChar(t[0], ParseChars(t[1..]))
  }

  function PrependChar(c: char, r: Option<(string, string)>): Option<(string, string)> {
    match r
    case None => None
    case Some((s, rest)) => Some(([c] + s, rest))
  }

  /** Length of the longest run of numeral characters at the start of `t`. */
  function NumeralRun(t: string): (n: nat)
    ensures n <= |t|
    ensures forall i :: 0 <= i < n ==> NumeralChar(t[i])
    ensures n < |t| ==> !NumeralChar(t[n])
  {
    if t == "" || !NumeralChar(t[0]) then 0 else 1 + NumeralRun(t[1..])
  }

  function ReadNumber(t: string, nm: Numerals): (r: Option<(Json, string)>)
    ensures r.Some? ==> |r.value.1| < |t|
  {
    var n := NumeralRun(t);
    if n == 0 then None
    else
      match nm.read(t[..n])
      case None => None
      case Some(x) => Some((Num(x), t[n..]))
  }

  /** A repeated key keeps its first position and takes its last value. */
  function PrependField(k: string, v: Json, fs: seq<Field>): seq<Field> {
    match Lookup(fs, k)
    case None => [Field(k, v)] + fs
    case Some(later) => [Field(k, later)] + Without(fs, k)
  }

  function Lookup(fs: seq<Field>, k: string): (r: Option<Json>)
    ensures r.None? <==> forall f | f in fs :: f.key != k
    ensures r.Some? ==> Field(k, r.value) in fs
  {
    if fs == [] then None
    else if fs[0].key == k then assert fs[0] == Field(k, fs[0].value); Some(fs[0].value)
    else Lookup(fs[1..], k)
  }

  function Without(fs: seq<Field>, k: string): (r: seq<Field>)
    ensures forall f :: f in r <==> f in fs && f.key != k
  {
    if fs == [] then []
    else if fs[0].key == k then Without(fs[1..], k)
    else [fs[0]] + Without(fs[1..], k)
  }

  function ParseValue(t: string, nm: Numerals): (r: Option<(Json, string)>)
    ensures r.Some? ==> |r.value.1| < |t|
    decreases |t|, 0
  {
    if t == "" then None
    else if t[0] == '{' then
      var body := SkipBlank(t[1..]);
      if body != "" && body[0] == '}' then Some((Obj([]), body[1..]))
      else
        match ParseMembers(body, nm)
        case None => None
        case Some((fs, rest)) => Some((Obj(fs), rest))
    else if t[0] == '[' then
      var body := SkipBlank(t[1..]);
      if body != "" && body[0] == ']' then Some((Arr([]), body[1..]))
      else
        match ParseElements(body, nm)
        case None => None
        case Some((items, rest)) => Some((Arr(items), rest))
    else if t[0] == '"' then
      match ParseChars(t[1..])
      case None => None
      case Some((s, rest)) => Some((Str(s), rest))
    else if |t| >= 4 && t[..4] == "null" then Some((Null, t[4..]))
    else if |t| >= 4 && t[..4] == "true" then Some((Bool(true), t[4..]))
    else if |t| >= 5 && t[..5] == "false" then Some((Bool(false), t[5..]))
    else ReadNumber(t, nm)
  }

  /** One or more array elements and the closing bracket. */
  function ParseElements(t: string, nm: Numerals): (r: Option<(seq<Json>, string)>)
    ensures r.Some? ==> |r.value.1| < |t|
    decreases |t|, 1
  {
    match ParseValue(t, nm)
    case None => None
    case Some((v, after)) =>
      var rest := SkipBlank(after);
      if rest == "" then None
      else if rest[0] == ']' then Some(([v], rest[1..]))
      else if rest[0] != ',' then None
      else
        match ParseElements(SkipBlank(rest[1..]), nm)
        case None => None
        case Some((vs, tail)) => Some(([v] + vs, tail))
  }

  /** One or more object members and the closing brace. */
  function ParseMembers(t: string, nm: Numerals): (r: Option<(seq<Field>, string)>)
    ensures r.Some? ==> |r.value.1| < |t|
    decreases |t|, 1
  {
    if t == "" || t[0] != '"' then None
    else
      match ParseChars(t[1..])
      case None => None
      case Some((k, afterKey)) =>
        var colon := SkipBlank(afterKey);
        if colon == "" || colon[0] != ':' then None
        else
          match ParseValue(SkipBlank(colon[1..]), nm)
          case None => None
          case Some((v, after)) =>
            var rest := SkipBlank(after);
            if rest == "" then None
            else if rest[0] == '}' then Some(([Field(k, v)], rest[1..]))
            else if rest[0] != ',' then None
            else
              match ParseMembers(SkipBlank(rest[1..]), nm)
              case None => None
              case Some((fs, tail)) => Some((PrependField(k, v, fs), tail))
  }

  /** `JSON.parse`: one value with nothing but blanks around it. */
  function Parse(t: string, nm: Numerals): Option<Json> {
    match ParseValue(SkipBlank(t), nm)
    case None => None
    case Some((v, rest)) => if SkipBlank(rest) == "" then Some(v) else None
  }

  /* -------------------------------------------------------------- round trip */

  lemma ReadsEscapedChar(c: char, tail: string)
    ensures ParseChars(EscapeChar(c) + tail) == PrependChar(c, ParseChars(tail))
  {
    var t := EscapeChar(c) + tail;
    if |EscapeChar(c)| == 1 {
      assert t[1..] == tail;
    } else if |EscapeChar(c)| == 2 {
      assert t[2..] == tail;
    } else {
      var quad := t[2..];
      assert quad[..4] == ['0', '0', HexDigit(c as int / 16), HexDigit(c as int % 16)];
      assert quad[4..] == tail;
      assert HexQuad(quad) == Some(c as int);
      assert ReadUnicode(quad) == Some((c, tail));
    }
  }

  /** Escaping a string and reading it back returns the string (RFC 8259, section 7). */
  lemma {:induction false} ReadsEscaped(s: string, rest: string)
    ensures ParseChars(Escape(s) + (['"'] + rest)) == Some((s, rest))
  {
    if s == "" {
      assert Escape(s) + (['"'] + rest) == ['"'] + rest;
    } else {
      var tail := Escape(s[1..]) + (['"'] + rest);
      assert Escape(s) + (['"'] + rest) == EscapeChar(s[0]) + tail;
      ReadsEscapedChar(s[0], tail);
      ReadsEscaped(s[1..], rest);
      assert [s[0]] + s[1..] == s;
    }
  }

  lemma ReadsQuoted(s: string, rest: string)
    ensures (Quote(s) + rest)[0] == '"'
    ensures ParseChars((Quote(s) + rest)[1..]) == Some((s, rest))
  {
    assert (Quote(s) + rest)[1..] == Escape(s) + (['"'] + rest);
    ReadsEscaped(s, rest);
  }

  /** What may follow a value without running into it. */
  predicate Boundary(rest: string) { rest == "" || !NumeralChar(rest[0]) }

  lemma {:induction false} NumeralRunOf(x: string, rest: string)
    requires forall i :: 0 <= i < |x| ==> NumeralChar(x[i])
    requires Boundary(rest)
    ensures NumeralRun(x + rest) == |x|
  {
    if x == "" {
      assert x + rest == rest;
    } else {
      assert (x + rest)[1..] == x[1..] + rest;
      NumeralRunOf(x[1..], rest);
    }
  }

  lemma ReadsNumber(x: real, rest: string, nm: Numerals)
    requires Faithful(nm) && nm.double(x) && Boundary(rest)
    ensures ParseValue(nm.show(x) + rest, nm) == Some((Num(x), rest))
  {
    var text := nm.show(x);
    var t := text + rest;
    NumeralRunOf(text, rest);
    assert t[..|text|] == text && t[|text|..] == rest;
    assert t[0] == text[0] && NumeralChar(t[0]);
    if |t| >= 4 { assert t[..4][0] == t[0]; }
    if |t| >= 5 { assert t[..5][0] == t[0]; }
  }

  /** The first character of a printed value names its kind and is never a blank. */
  lemma PrintedStart(v: Json, nm: Numerals)
    requires Faithful(nm) && WellFormed(v, nm)
    ensures Print(v, nm) != "" && !Blank(Print(v, nm)[0])
    ensures Print(v, nm)[0] != ']' && Print(v, nm)[0] != '}'
  {}

  lemma ReadsLiteral(v: Json, rest: string, nm: Numerals)
    requires v.Null? || v.Bool?
    ensures ParseValue(Print(v, nm) + rest, nm) == Some((v, rest))
  {
    var t := Print(v, nm) + rest;
    var n := |Print(v, nm)|;
    assert t[n..] == rest && t[..n] == Print(v, nm);
    assert |t| >= 4 && t[..4][0] == t[0];
  }

  /** Reading a printed value returns the value and exactly the text after it. */
  lemma {:induction false} ReadsPrinted(v: Json, rest: string, nm: Numerals)
    requires Faithful(nm) && WellFormed(v, nm) && Boundary(rest)
    ensures ParseValue(Print(v, nm) + rest, nm) == Some((v, rest))
    decreases v, 1
  {
    match v
    case Null => ReadsLiteral(v, rest, nm);
    case Bool(_) => ReadsLiteral(v, rest, nm);
    case Num(n) => ReadsNumber(n, rest, nm);
    case Str(s) => ReadsQuoted(s, rest);
    case Arr(items) =>
      if items != [] { ReadsItems(items, rest, nm); }
      ReadsArray(items, rest, nm);
    case Obj(fs) =>
      if fs != [] {
        FieldsStart(fs, nm);
        ReadsFields(fs, rest, nm);
      }
      ReadsObject(PrintFields(fs, nm), fs, rest, nm);
  }

  lemma ReadsArray(items: seq<Json>, rest: string, nm: Numerals)
    requires Faithful(nm) && WellFormed(Arr(items), nm)
    requires items != [] ==>
      ParseElements(PrintItems(items, nm) + ([']'] + rest), nm) == Some((items, rest))
    ensures ParseValue(Print(Arr(items), nm) + rest, nm) == Some((Arr(items), rest))
  {
    var text := PrintItems(items, nm);
    if items != [] { ItemsStart(items, nm); }
    assert Print(Arr(items), nm) + rest == ['['] + (text + ([']'] + rest));
    ReadsArrayText(text, items, rest, nm);
  }

  lemma ReadsArrayText(text: string, items: seq<Json>, rest: string, nm: Numerals)
    requires if items == [] then text == ""
      else
        && text != "" && !Blank(text[0]) && text[0] != ']'
        && ParseElements(text + ([']'] + rest), nm) == Some((items, rest))
    ensures ParseValue(['['] + (text + ([']'] + rest)), nm) == Some((Arr(items), rest))
  {
    var body := text + ([']'] + rest);
    if items == [] {
      assert body == [']'] + rest;
      ReadsEmptyArray(['['] + body, rest, nm);
    } else {
      assert (['['] + body)[1..] == body;
      ReadsBracketed(['['] + body, body, nm);
    }
  }

  lemma ReadsEmptyArray(t: string, rest: string, nm: Numerals)
    requires t == ['[', ']'] + rest
    ensures ParseValue(t, nm) == Some((Arr([]), rest))
  {
    assert t[1..] == [']'] + rest && ([']'] + rest)[1..] == rest;
  }

  lemma Braced(text: string, rest: string)
    ensures (['{'] + (text + ['}'])) + rest == ['{'] + (text + (['}'] + rest))
  {}

  lemma ReadsObject(text: string, fs: seq<Field>, rest: string, nm: Numerals)
    requires text == "" ==> fs == []
    requires text != "" ==>
      text[0] == '"' && ParseMembers(text + (['}'] + rest), nm) == Some((fs, rest))
    ensures ParseValue((['{'] + (text + ['}'])) + rest, nm) == Some((Obj(fs), rest))
  {
    var body := text + (['}'] + rest);
    var t := ['{'] + body;
    Braced(text, rest);
    assert t[1..] == body;
    if text == "" {
      assert body == ['}'] + rest && body[1..] == rest;
    } else {
      assert body[0] == text[0];
      ReadsBracketed(t, body, nm);
    }
  }

  /** A nonempty container is read by reading its body. */
  lemma ReadsBracketed(t: string, body: string, nm: Numerals)
    requires t != "" && t[1..] == body && body != "" && !Blank(body[0])
    ensures t[0] == '[' && body[0] != ']' && ParseElements(body, nm).Some? ==>
      ParseValue(t, nm) == Some((Arr(ParseElements(body, nm).value.0), ParseElements(body, nm).value.1))
    ensures t[0] == '{' && body[0] != '}' && ParseMembers(body, nm).Some? ==>
      ParseValue(t, nm) == Some((Obj(ParseMembers(body, nm).value.0), ParseMembers(body, nm).value.1))
  {}

  lemma FieldsStart(fs: seq<Field>, nm: Numerals)
    requires fs != []
    ensures PrintFields(fs, nm) != "" && PrintFields(fs, nm)[0] == '"'
  {
    assert Quote(fs[0].key)[0] == '"';
    assert PrintField(fs[0], nm)[0] == Quote(fs[0].key)[0];
  }

  lemma ItemsStart(items: seq<Json>, nm: Numerals)
    requires Faithful(nm) && items != [] && forall x | x in items :: WellFormed(x, nm)
    ensures PrintItems(items, nm) != "" && !Blank(PrintItems(items, nm)[0])
    ensures PrintItems(items, nm)[0] != ']'
  {
    PrintedStart(items[0], nm);
  }

  /** One element is read, and the elements after it. */
  lemma ReadsNextItem(x: Json, text: string, xs: seq<Json>, rest: string, nm: Numerals)
    requires text != "" && !Blank(text[0])
    requires ParseElements(text + ([']'] + rest), nm) == Some((xs, rest))
    requires ParseValue(Print(x, nm) + ([','] + (text + ([']'] + rest))), nm)
      == Some((x, [','] + (text + ([']'] + rest))))
    ensures ParseElements((Print(x, nm) + ([','] + text)) + ([']'] + rest), nm) == Some(([x] + xs, rest))
  {
    var tail := text + ([']'] + rest);
    Assoc(Print(x, nm), [','] + text, [']'] + rest);
    Assoc([','], text, [']'] + rest);
    assert ([','] + tail)[1..] == tail && tail[0] == text[0];
  }

  lemma {:induction false} ReadsItems(items: seq<Json>, rest: string, nm: Numerals)
    requires Faithful(nm) && items != [] && forall x | x in items :: WellFormed(x, nm)
    ensures ParseElements(PrintItems(items, nm) + ([']'] + rest), nm) == Some((items, rest))
    decreases items, 0
  {
    if |items| == 1 {
      ReadsPrinted(items[0], [']'] + rest, nm);
      assert ([']'] + rest)[1..] == rest;
      assert [items[0]] == items;
    } else {
      var others := items[1..];
      var text := PrintItems(others, nm);
      ReadsPrinted(items[0], [','] + (text + ([']'] + rest)), nm);
      ItemsStart(others, nm);
      ReadsItems(others, rest, nm);
      ReadsNextItem(items[0], text, others, rest, nm);
      assert [items[0]] + others == items;
    }
  }

  /** Reads one member `"key":value`, given that its value reads. */
  lemma ReadsMember(f: Field, more: string, nm: Numerals)
    requires Faithful(nm) && WellFormed(f.value, nm)
    requires ParseValue(Print(f.value, nm) + more, nm) == Some((f.value, more))
    requires more != "" && !Blank(more[0])
    ensures more[0] == '}' ==> ParseMembers(PrintField(f, nm) + more, nm) == Some(([f], more[1..]))
    ensures more[0] == ',' && ParseMembers(SkipBlank(more[1..]), nm).Some? ==>
      var rest := ParseMembers(SkipBlank(more[1..]), nm).value;
      ParseMembers(PrintField(f, nm) + more, nm) == Some((PrependField(f.key, f.value, rest.0), rest.1))
  {
    var value := Print(f.value, nm) + more;
    Assoc(Quote(f.key), [':'] + Print(f.value, nm), more);
    Assoc([':'], Print(f.value, nm), more);
    ReadsQuoted(f.key, [':'] + value);
    assert ([':'] + value)[1..] == value;
    PrintedStart(f.value, nm);
    assert value[0] == Print(f.value, nm)[0];
  }

  /** Reads the first of several members, given that the others read. */
  lemma ReadsNextMember(f: Field, text: string, fs: seq<Field>, rest: string, nm: Numerals)
    requires Faithful(nm) && WellFormed(f.value, nm)
    requires text != "" && text[0] == '"'
    requires ParseMembers(text + (['}'] + rest), nm) == Some((fs, rest))
    requires ParseValue(Print(f.value, nm) + ([','] + (text + (['}'] + rest))), nm)
      == Some((f.value, [','] + (text + (['}'] + rest))))
    ensures ParseMembers((PrintField(f, nm) + ([','] + text)) + (['}'] + rest), nm)
      == Some((PrependField(f.key, f.value, fs), rest))
  {
    var tail := text + (['}'] + rest);
    Assoc(PrintField(f, nm), [','] + text, ['}'] + rest);
    Assoc([','], text, ['}'] + rest);
    assert ([','] + tail)[1..] == tail && tail[0] == text[0];
    ReadsMember(f, [','] + tail, nm);
  }

  lemma {:induction false} ReadsFields(fs: seq<Field>, rest: string, nm: Numerals)
    requires Faithful(nm) && fs != [] && DistinctKeys(fs)
    requires forall f | f in fs :: WellFormed(f.value, nm)
    ensures ParseMembers(PrintFields(fs, nm) + (['}'] + rest), nm) == Some((fs, rest))
    decreases fs, 0
  {
    var f := fs[0];
    if |fs| == 1 {
      ReadsPrinted(f.value, ['}'] + rest, nm);
      ReadsMember(f, ['}'] + rest, nm);
      assert (['}'] + rest)[1..] == rest && [f] == fs;
    } else {
      var text := PrintFields(fs[1..], nm);
      ReadsPrinted(f.value, [','] + (text + (['}'] + rest)), nm);
      FieldsStart(fs[1..], nm);
      ReadsFields(fs[1..], rest, nm);
      ReadsNextMember(f, text, fs[1..], rest, nm);
      FreshKey(fs);
    }
  }

  lemma FreshKey(fs: seq<Field>)
    requires fs != [] && DistinctKeys(fs)
    ensures PrependField(fs[0].key, fs[0].value, fs[1..]) == fs
  {
    assert forall g | g in fs[1..] :: g.key != fs[0].key;
    assert [fs[0]] + fs[1..] == fs;
  }

  /** `JSON.parse` undoes `JSON.stringify`. */
  lemma ParseUndoesPrint(v: Json, nm: Numerals)
    requires Faithful(nm) && WellFormed(v, nm)
    ensures Parse(Print(v, nm), nm) == Some(v)
  {
    PrintedStart(v, nm);
    ReadsPrinted(v, "", nm);
    assert Print(v, nm) + "" == Print(v, nm);
  }
}

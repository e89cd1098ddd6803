/**
 Finding the JSON value in a model's answer (packages/core/src/utils/structured-output.ts):
 the whole text, a Markdown fence, or a balanced span inside prose, in that order.
 */
module Extraction {
  import opened Base
  import opened JsonText

  /** What the host supplies: its number format and the body of the first Markdown fence. */
  datatype Host = Host(numerals: Numerals, fence: string -> Option<string>)

  predicate HasFence(t: string) {
    exists i :: 0 <= i <= |t| - 3 && FenceAt(t, i)
  }

  predicate FenceAt(t: string, i: nat)
    requires i + 3 <= |t|
  {
    t[i] == '`' && t[i + 1] == '`' && t[i + 2] == '`'
  }

  /** The fence pattern needs three backticks to match at all. */
  ghost predicate Sound(host: Host) {
    Faithful(host.numerals) && forall t {:trigger host.fence(t)} :: !HasFence(t) ==> host.fence(t).None?
  }

  /* ---------------------------------------------------------------- trimming */

  /** White space and line terminators, as `String.prototype.trim` removes them. */
  predicate JsSpace(c: char) {
    var u := c as int;
    || 0x09 <= u <= 0x0D || u == 0x20 || u == 0xA0 || u == 0x1680 || 0x2000 <= u <= 0x200A
    || u == 0x2028 || u == 0x2029 || u == 0x202F || u == 0x205F || u == 0x3000 || u == 0xFEFF
  }

  function TrimStart(t: string): (r: string)
    ensures r == "" || !JsSpace(r[0])
  {
    if t != "" && JsSpace(t[0]) then TrimStart(t[1..]) else t
  }

  function TrimEnd(t: string): (r: string)
    ensures r <= t
    ensures r == "" || !JsSpace(r[|r| - 1])
  {
    if t != "" && JsSpace(t[|t| - 1]) then TrimEnd(t[..|t| - 1]) else t
  }

  function Trim(t: string): string { TrimEnd(TrimStart(t)) }

  /* ----------------------------------------------------------- bracket scanner */

  datatype Scanner = Scanner(stack: string, inString: bool, escaped: bool)
  datatype Move = Go(next: Scanner) | Done | Bad

  /** One character of `balancedAt`; `escaped` stands for the index it skips. */
  function Step(s: Scanner, ch: char): Move {
    if s.escaped then Go(s.(escaped := false))
    else if s.inString then
      if ch == '\\' then Go(s.(escaped := true))
      else if ch == '"' then Go(s.(inString := false))
      else Go(s)
    else if ch == '"' then Go(s.(inString := true))
    else if ch == '{' then Go(s.(stack := s.stack + ['}']))
    else if ch == '[' then Go(s.(stack := s.stack + [']']))
    else if ch == '}' || ch == ']' then
      if s.stack == "" || s.stack[|s.stack| - 1] != ch then Bad
      else if |s.stack| == 1 then Done
      else Go(s.(stack := s.stack[..|s.stack| - 1]))
    else Go(s)
  }

  /** Where the scan that has reached `i` in state `s` closes its first bracket. */
  function ScanEnd(t: string, i: nat, s: Scanner): (r: Option<nat>)
    requires i <= |t|
    ensures r.Some? ==> i < r.value <= |t|
    decreases |t| - i
  {
    if i == |t| then None
    else
      match Step(s, t[i])
      case Go(next) => ScanEnd(t, i + 1, next)
      case Done => Some(i + 1)
      case Bad => None
  }

  const START := Scanner("", false, false)

  function Span(t: string, start: nat): Option<string>
    requires start <= |t|
  {
    match ScanEnd(t, start, START)
    case None => None
    case Some(end) => Some(t[start..end])
  }

  /** `balancedAt` with its own index, stack and string flag. */
  method BalancedAt(t: string, start: nat) returns (r: Option<string>)
    requires start <= |t|
    ensures r == Span(t, start)
  {
    var stack, inString := "", false;
    var i := start;
    while i < |t|
      invariant start <= i
      invariant i <= |t| ==> ScanEnd(t, start, START) == ScanEnd(t, i, Scanner(stack, inString, false))
      invariant i > |t| ==> ScanEnd(t, start, START).None?
    {
      var ch := t[i];
      if inString {
        if ch == '\\' {
          i := i + 1;
          assert i < |t| ==> Step(Scanner(stack, inString, true), t[i]) == Go(Scanner(stack, inString, false));
        } else if ch == '"' {
          inString := false;
        }
      } else if ch == '"' {
        inString := true;
      } else if ch == '{' || ch == '[' {
        stack := stack + [if ch == '{' then '}' else ']'];
      } else if ch == '}' || ch == ']' {
        if stack == "" || stack[|stack| - 1] != ch { return None; }
        stack := stack[..|stack| - 1];
        if stack == "" { return Some(t[start..i + 1]); }
      }
      i := i + 1;
    }
    return None;
  }

  /* ------------------------------------------------------------ whole algorithm */

  const MAX_ATTEMPTS := 20

  predicate Opener(c: char) { c == '{' || c == '[' }

  /** The spans tried from position `i` on, at most twenty openings in all. */
  function Spans(t: string, i: nat, attempts: nat): seq<string>
    requires i <= |t|
    decreases |t| - i
  {
    if i == |t| || attempts >= MAX_ATTEMPTS then []
    else if !Opener(t[i]) then Spans(t, i + 1, attempts)
    else
      match Span(t, i)
      case None => Spans(t, i + 1, attempts + 1)
      case Some(s) => [s] + Spans(t, i + 1, attempts + 1)
  }

  function FirstParsed(candidates: seq<string>, nm: Numerals): Option<Json> {
    if candidates == [] then None
    else if candidates[0] != "" && Parse(candidates[0], nm).Some? then Parse(candidates[0], nm)
    else FirstParsed(candidates[1..], nm)
  }

  function Candidates(content: string, host: Host): seq<string> {
    var trimmed := Trim(content);
    var fenced := match host.fence(trimmed) case None => [] case Some(body) => [Trim(body)];
    [trimmed] + fenced + Spans(trimmed, 0, 0)
  }

  method ParseJsonAnswer(content: string, host: Host) returns (r: Option<Json>)
    ensures r == FirstParsed(Candidates(content, host), host.numerals)
  {
    var trimmed := Trim(content);
    var candidates := [trimmed];
    match host.fence(trimmed) {
      case Some(body) => candidates := candidates + [Trim(body)];
      case None =>
    }
    ghost var before := candidates;
    var attempts := 0;
    var i := 0;
    while i < |trimmed| && attempts < MAX_ATTEMPTS
      invariant 0 <= i <= |trimmed|
      invariant before + Spans(trimmed, 0, 0) == candidates + Spans(trimmed, i, attempts)
      decreases |trimmed| - i
    {
      if Opener(trimmed[i]) {
        var candidate := BalancedAt(trimmed, i);
        if candidate.Some? {
          Assoc(candidates, [candidate.value], Spans(trimmed, i + 1, attempts + 1));
          candidates := candidates + [candidate.value];
        }
        attempts := attempts + 1;
      }
      i := i + 1;
    }
    assert Spans(trimmed, i, attempts) == [];
    assert candidates == before + Spans(trimmed, 0, 0);
    assert before == [trimmed] + before[1..];
    assert candidates == Candidates(content, host);
    var k := 0;
    while k < |candidates|
      invariant 0 <= k <= |candidates|
      invariant FirstParsed(candidates, host.numerals) == FirstParsed(candidates[k..], host.numerals)
    {
      if candidates[k] != "" {
        r := Parse(candidates[k], host.numerals);
        if r.Some? { return; }
      }
      k := k + 1;
    }
    r := None;
  }

  /* --------------------------------------------- the scanner crosses printed values */

  /** The state after scanning all of `x`, provided the scan neither closes nor fails. */
  function Across(s: Scanner, x: string): Option<Scanner>
    decreases |x|
  {
    if x == "" then Some(s)
    else
      match Step(s, x[0])
      case Go(next) => Across(next, x[1..])
      case _ => None
  }

  lemma {:induction false} AcrossAppend(s: Scanner, x: string, y: string)
    requires Across(s, x).Some?
    ensures Across(s, x + y) == Across(Across(s, x).value, y)
    decreases |x|
  {
    if x == "" {
      assert x + y == y;
    } else {
      assert (x + y)[1..] == x[1..] + y;
      AcrossAppend(Step(s, x[0]).next, x[1..], y);
    }
  }

  lemma AcrossPlain(s: Scanner, x: string)
    requires !s.inString && !s.escaped
    requires forall i :: 0 <= i < |x| ==> x[i] !in "{}[]\""
    ensures Across(s, x) == Some(s)
  {}

  lemma {:induction false} AcrossEscaped(s: Scanner, x: string)
    requires s.inString && !s.escaped
    ensures Across(s, Escape(x)) == Some(s)
  {
    if x != "" {
      AcrossEscapeChar(s, x[0]);
      AcrossEscaped(s, x[1..]);
      AcrossAppend(s, EscapeChar(x[0]), Escape(x[1..]));
    }
  }

  lemma AcrossInside(s: Scanner, x: string)
    requires s.inString && !s.escaped
    requires forall i :: 0 <= i < |x| ==> x[i] != '"' && x[i] != '\\'
    ensures Across(s, x) == Some(s)
  {}

  lemma AcrossEscapeChar(s: Scanner, c: char)
    requires s.inString && !s.escaped
    ensures Across(s, EscapeChar(c)) == Some(s)
  {
    var e := EscapeChar(c);
    if |e| == 1 {
      AcrossInside(s, e);
    } else {
      var two := [e[0], e[1]];
      assert two[1..] == [e[1]] && two[1..][1..] == "";
      assert Across(s.(escaped := true), [e[1]]) == Some(s);
      assert Across(s, two) == Some(s);
      AcrossInside(s, e[2..]);
      AcrossAppend(s, two, e[2..]);
      assert two + e[2..] == e;
    }
  }

  lemma AcrossQuoted(s: Scanner, x: string)
    requires !s.inString && !s.escaped
    ensures Across(s, Quote(x)) == Some(s)
  {
    var q := Quote(x);
    var inside := s.(inString := true);
    assert q[1..] == Escape(x) + ['"'];
    AcrossEscaped(inside, x);
    AcrossAppend(inside, Escape(x), ['"']);
    assert Across(inside, ['"']) == Some(s);
  }

  /** Inside some bracket, a printed value leaves the scanner as it found it. */
  lemma {:induction false} AcrossPrinted(s: Scanner, v: Json, nm: Numerals)
    requires Faithful(nm) && WellFormed(v, nm)
    requires !s.inString && !s.escaped && s.stack != ""
    ensures Across(s, Print(v, nm)) == Some(s)
    decreases v, 1
  {
    match v
    case Num(n) => AcrossPlain(s, nm.show(n));
    case Str(x) => AcrossQuoted(s, x);
    case Arr(items) =>
      var inner := s.(stack := s.stack + [']']);
      AcrossItems(inner, items, nm);
      AcrossClose(s, ']', PrintItems(items, nm));
    case Obj(fs) =>
      var inner := s.(stack := s.stack + ['}']);
      AcrossFields(inner, fs, nm);
      AcrossClose(s, '}', PrintFields(fs, nm));
    case _ => AcrossPlain(s, Print(v, nm));
  }

  lemma AcrossClose(s: Scanner, closer: char, body: string)
    requires closer == '}' || closer == ']'
    requires !s.inString && !s.escaped && s.stack != ""
    requires Across(s.(stack := s.stack + [closer]), body) == Some(s.(stack := s.stack + [closer]))
    ensures Across(s, [if closer == '}' then '{' else '['] + (body + [closer])) == Some(s)
  {
    var inner := s.(stack := s.stack + [closer]);
    AcrossAppend(inner, body, [closer]);
    assert inner.stack[..|inner.stack| - 1] == s.stack;
    assert Across(inner, [closer]) == Some(s);
  }

  lemma {:induction false} AcrossItems(s: Scanner, items: seq<Json>, nm: Numerals)
    requires Faithful(nm) && forall x | x in items :: WellFormed(x, nm)
    requires !s.inString && !s.escaped && s.stack != ""
    ensures Across(s, PrintItems(items, nm)) == Some(s)
    decreases items, 0
  {
    if items != [] {
      AcrossPrinted(s, items[0], nm);
      if |items| > 1 {
        AcrossItems(s, items[1..], nm);
        AcrossThen(s, Print(items[0], nm), ',', PrintItems(items[1..], nm));
      }
    }
  }

  lemma AcrossThen(s: Scanner, x: string, mark: char, y: string)
    requires mark == ',' || mark == ':'
    requires !s.inString && !s.escaped && Across(s, x) == Some(s) && Across(s, y) == Some(s)
    ensures Across(s, x + ([mark] + y)) == Some(s)
  {
    AcrossAppend(s, x, [mark] + y);
    assert ([mark] + y)[1..] == y;
  }

  lemma {:induction false} AcrossFields(s: Scanner, fs: seq<Field>, nm: Numerals)
    requires Faithful(nm) && forall f | f in fs :: WellFormed(f.value, nm)
    requires !s.inString && !s.escaped && s.stack != ""
    ensures Across(s, PrintFields(fs, nm)) == Some(s)
    decreases fs, 0
  {
    if fs != [] {
      AcrossQuoted(s, fs[0].key);
      AcrossPrinted(s, fs[0].value, nm);
      AcrossThen(s, Quote(fs[0].key), ':', Print(fs[0].value, nm));
      if |fs| > 1 {
        AcrossFields(s, fs[1..], nm);
        AcrossThen(s, PrintField(fs[0], nm), ',', PrintFields(fs[1..], nm));
      }
    }
  }

  lemma {:induction false} ScanEndAcross(t: string, i: nat, s: Scanner, x: string)
    requires i + |x| <= |t| && t[i..i + |x|] == x && Across(s, x).Some?
    ensures ScanEnd(t, i, s) == ScanEnd(t, i + |x|, Across(s, x).value)
    decreases |x|
  {
    if x != "" {
      assert t[i] == x[0];
      assert t[i + 1..i + 1 + |x[1..]|] == x[1..];
      ScanEndAcross(t, i + 1, Step(s, x[0]).next, x[1..]);
    }
  }

  lemma SpanOfBracketed(lead: string, body: string, closer: char, trail: string)
    requires closer == '}' || closer == ']'
    requires Across(Scanner([closer], false, false), body) == Some(Scanner([closer], false, false))
    ensures
      var p := [if closer == '}' then '{' else '['] + (body + [closer]);
      Span(lead + p + trail, |lead|) == Some(p)
  {
    var p := [if closer == '}' then '{' else '['] + (body + [closer]);
    var t := lead + p + trail;
    var k := |lead|;
    var inner := Scanner([closer], false, false);
    assert t[k] == p[0];
    assert START.stack + [closer] == [closer];
    assert Step(START, t[k]) == Go(inner);
    assert t[k + 1..k + 1 + |body|] == body;
    ScanEndAcross(t, k + 1, inner, body);
    assert t[k + 1 + |body|] == closer;
    assert t[k..k + |p|] == p;
  }

  /** From the opening bracket of a printed array or object, the span found is all of it. */
  lemma SpanOfPrinted(lead: string, v: Json, trail: string, nm: Numerals)
    requires Faithful(nm) && WellFormed(v, nm) && (v.Arr? || v.Obj?)
    ensures Span(lead + Print(v, nm) + trail, |lead|) == Some(Print(v, nm))
  {
    if v.Arr? {
      AcrossItems(Scanner("]", false, false), v.items, nm);
      SpanOfBracketed(lead, PrintItems(v.items, nm), ']', trail);
    } else {
      AcrossFields(Scanner("}", false, false), v.fields, nm);
      SpanOfBracketed(lead, PrintFields(v.fields, nm), '}', trail);
    }
  }

  /* --------------------------------------------------------- extraction undoes print */

  predicate Prose(lead: string) {
    forall i :: 0 <= i < |lead| ==> lead[i] !in "{}[]\"`"
  }

  lemma ContainerReads(v: Json, rest: string, nm: Numerals)
    requires Faithful(nm) && WellFormed(v, nm) && (v.Arr? || v.Obj?)
    ensures ParseValue(Print(v, nm) + rest, nm) == Some((v, rest))
  {
    if v.Arr? {
      if v.items != [] { ReadsItems(v.items, rest, nm); }
      ReadsArray(v.items, rest, nm);
    } else {
      if v.fields != [] {
        FieldsStart(v.fields, nm);
        ReadsFields(v.fields, rest, nm);
      }
      ReadsObject(PrintFields(v.fields, nm), v.fields, rest, nm);
    }
  }

  lemma {:induction false} NonBlankSurvives(t: string, i: nat)
    requires i < |t| && !Blank(t[i])
    ensures SkipBlank(t) != ""
  {
    if i > 0 { NonBlankSurvives(t[1..], i - 1); }
  }

  /** Prose with a bracket behind it is not a JSON text: what it reads leaves the bracket over. */
  lemma ProseDoesNotParse(t: string, k: nat, nm: Numerals)
    requires 0 < k < |t| && Prose(t[..k]) && Opener(t[k]) && !JsSpace(t[0])
    ensures Parse(t, nm).None?
  {
    assert t[0] == t[..k][0];
    assert !Blank(t[0]) && SkipBlank(t) == t;
    var r := ParseValue(t, nm);
    if r.Some? { ProseLeavesMore(t, k, r.value.1, nm); }
  }

  /** A value that is no string, array or object leaves the end of the text. */
  lemma ScalarLeaves(t: string, nm: Numerals)
    requires t != "" && t[0] !in "{[\"" && ParseValue(t, nm).Some?
    ensures ParseValue(t, nm).value.1 == t[|t| - |ParseValue(t, nm).value.1|..]
  {}

  lemma ProseLeavesMore(t: string, k: nat, rest: string, nm: Numerals)
    requires 0 < k < |t| && Prose(t[..k]) && Opener(t[k]) && !JsSpace(t[0])
    requires ParseValue(t, nm).Some? && ParseValue(t, nm).value.1 == rest
    ensures SkipBlank(rest) != ""
  {
    assert t[0] == t[..k][0];
    ScalarLeaves(t, nm);
    LeavesBracket(t, k, rest);
  }

  lemma LeavesBracket(t: string, k: nat, rest: string)
    requires k < |t| && Opener(t[k]) && |rest| <= |t| && rest == t[|t| - |rest|..]
    ensures |t| - |rest| <= k ==> SkipBlank(rest) != ""
  {
    var n := |t| - |rest|;
    if n <= k {
      assert rest[k - n] == t[k];
      NonBlankSurvives(rest, k - n);
    }
  }

  lemma TrimAround(lead: string, p: string, trail: string) returns (lead': string, trail': string)
    requires p != "" && !JsSpace(p[0]) && !JsSpace(p[|p| - 1])
    ensures Trim(lead + p + trail) == lead' + p + trail'
    ensures |lead'| <= |lead| && lead' == lead[|lead| - |lead'|..]
    ensures lead' == "" || !JsSpace(lead'[0])
    ensures trail' <= trail
  {
    lead' := TrimLead(lead, p + trail);
    Assoc(lead, p, trail);
    Assoc(lead', p, trail);
    var kept := lead' + p;
    assert kept[|kept| - 1] == p[|p| - 1];
    trail' := TrimTrail(kept, trail);
  }

  lemma {:induction false} TrimLead(lead: string, rest: string) returns (lead': string)
    requires rest != "" && !JsSpace(rest[0])
    ensures TrimStart(lead + rest) == lead' + rest
    ensures |lead'| <= |lead| && lead' == lead[|lead| - |lead'|..]
    ensures lead' == "" || !JsSpace(lead'[0])
  {
    if lead != "" && JsSpace(lead[0]) {
      assert (lead + rest)[1..] == lead[1..] + rest;
      lead' := TrimLead(lead[1..], rest);
    } else {
      if lead == "" { assert lead + rest == rest; }
      lead' := lead;
    }
  }

  lemma {:induction false} TrimTrail(head: string, trail: string) returns (trail': string)
    requires head != "" && !JsSpace(head[|head| - 1])
    ensures TrimEnd(head + trail) == head + trail'
    ensures trail' <= trail
  {
    if trail != "" && JsSpace(trail[|trail| - 1]) {
      assert (head + trail)[..|head + trail| - 1] == head + trail[..|trail| - 1];
      trail' := TrimTrail(head, trail[..|trail| - 1]);
    } else {
      if trail == "" { assert head + trail == head; }
      trail' := trail;
    }
  }

  lemma {:induction false} SpansReach(t: string, i: nat, k: nat)
    requires i <= k < |t| && Opener(t[k]) && forall j :: i <= j < k ==> !Opener(t[j])
    ensures Spans(t, i, 0) == Spans(t, k, 0)
    decreases k - i
  {
    if i < k { SpansReach(t, i + 1, k); }
  }

  lemma NoFenceInside(lead: string, mid: string, trail: string, n: nat, trail': string)
    requires n <= |lead| && trail' <= trail && !HasFence(lead + mid + trail)
    ensures !HasFence(lead[n..] + mid + trail')
  {
    var whole, part := lead + mid + trail, lead[n..] + mid + trail';
    assert part == whole[n..n + |part|];
    if HasFence(part) { FenceInside(whole, part, n); }
  }

  lemma FenceInside(whole: string, part: string, n: nat)
    requires n + |part| <= |whole| && part == whole[n..n + |part|] && HasFence(part)
    ensures HasFence(whole)
  {
    var i :| 0 <= i <= |part| - 3 && FenceAt(part, i);
    assert part[i] == whole[i + n] && part[i + 1] == whole[i + 1 + n] && part[i + 2] == whole[i + 2 + n];
    assert FenceAt(whole, i + n);
  }

  /** The candidates start with the whole text and then the span at the first opening. */
  lemma TwoCandidates(lead: string, p: string, trail: string, content: string, host: Host)
    requires Prose(lead) && p != "" && Opener(p[0]) && Sound(host)
    requires Trim(content) == lead + p + trail && !HasFence(lead + p + trail)
    requires Span(lead + p + trail, |lead|) == Some(p)
    ensures |Candidates(content, host)| >= 2
    ensures Candidates(content, host)[0] == lead + p + trail && Candidates(content, host)[1] == p
  {
    var t, k := lead + p + trail, |lead|;
    assert t[k] == p[0];
    assert forall j :: 0 <= j < k ==> t[j] == lead[j];
    SpansReach(t, 0, k);
    assert Spans(t, k, 0) == [p] + Spans(t, k + 1, 1);
  }

  lemma WholeTextReads(lead: string, v: Json, trail: string, nm: Numerals)
    requires Faithful(nm) && WellFormed(v, nm) && (v.Arr? || v.Obj?)
    requires Prose(lead) && (lead == "" || !JsSpace(lead[0]))
    ensures Parse(lead + Print(v, nm) + trail, nm) in {None, Some(v)}
  {
    var p := Print(v, nm);
    var t := lead + p + trail;
    if lead == "" {
      assert t == p + trail;
      PrintedStart(v, nm);
      ContainerReads(v, trail, nm);
    } else {
      assert t[..|lead|] == lead && t[|lead|] == p[0] && t[0] == lead[0];
      ProseDoesNotParse(t, |lead|, nm);
    }
  }

  lemma ProseSuffix(lead: string, n: nat)
    requires Prose(lead) && n <= |lead|
    ensures Prose(lead[n..])
  {
    forall i | 0 <= i < |lead[n..]| ensures lead[n..][i] !in "{}[]\"`" {
      assert lead[n..][i] == lead[n + i];
    }
  }

  /**
   Extraction undoes printing: prose without brackets, quotes or backticks, then a printed
   array or object, then any text, reads as that array or object.
   */
  lemma AnswerUndoesPrint(lead: string, v: Json, trail: string, host: Host)
    requires Sound(host) && WellFormed(v, host.numerals) && (v.Arr? || v.Obj?)
    requires Prose(lead) && !HasFence(lead + Print(v, host.numerals) + trail)
    ensures FirstParsed(Candidates(lead + Print(v, host.numerals) + trail, host), host.numerals) == Some(v)
  {
    var nm := host.numerals;
    var p := Print(v, nm);
    assert p != "" && Opener(p[0]) && (p[|p| - 1] == '}' || p[|p| - 1] == ']');
    var lead', trail' := TrimAround(lead, p, trail);
    ProseSuffix(lead, |lead| - |lead'|);
    NoFenceInside(lead, p, trail, |lead| - |lead'|, trail');
    SpanOfPrinted(lead', v, trail', nm);
    TwoCandidates(lead', p, trail', lead + p + trail, host);
    WholeTextReads(lead', v, trail', nm);
    ParseUndoesPrint(v, nm);
    var all := Candidates(lead + p + trail, host);
    assert all[1..][0] == p;
  }
}

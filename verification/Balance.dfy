/**
 What a balanced span is, as a grammar that knows nothing of the scanner: brackets that match,
 around plain text, strings and other balanced spans.  The scanner finds exactly those.
 */
module Balance {
  import opened Base
  import opened Extraction

  datatype Part = Plain(c: char) | Quoted(body: string) | Bracketed(opener: char, parts: seq<Part>)

  /** What stands between the quotes of a string: no bare quote, and something behind every backslash. */
  predicate StringBody(x: string) {
    if x == "" then true
    else if x[0] == '\\' then |x| >= 2 && StringBody(x[2..])
    else x[0] != '"' && StringBody(x[1..])
  }

  function Closer(opener: char): char { if opener == '{' then '}' else ']' }

  function Text(p: Part): string {
    match p
    case Plain(c) => [c]
    case Quoted(body) => ['"'] + (body + ['"'])
    case Bracketed(opener, parts) => [opener] + (Texts(parts) + [Closer(opener)])
  }

  function Texts(parts: seq<Part>): string {
    if parts == [] then "" else Text(parts[0]) + Texts(parts[1..])
  }

  predicate WellNested(p: Part) {
    match p
    case Plain(c) => c !in "{}[]\""
    case Quoted(body) => StringBody(body)
    case Bracketed(opener, parts) => Opener(opener) && forall q | q in parts :: WellNested(q)
  }

  ghost predicate Balanced(x: string) { exists p: Part :: Spells(p, x) }

  ghost predicate Spells(p: Part, x: string) { p.Bracketed? && WellNested(p) && Text(p) == x }

  /* ------------------------------------------------------- what is balanced is found */

  lemma {:induction false} AcrossBody(s: Scanner, x: string)
    requires s.inString && !s.escaped && StringBody(x)
    ensures Across(s, x) == Some(s)
    decreases |x|
  {
    if x != "" {
      if x[0] == '\\' {
        assert x[1..][1..] == x[2..] && Step(s.(escaped := true), x[1]) == Go(s);
        AcrossBody(s, x[2..]);
      } else {
        AcrossBody(s, x[1..]);
      }
    }
  }

  lemma {:induction false} AcrossPart(s: Scanner, p: Part)
    requires !s.inString && !s.escaped && s.stack != "" && WellNested(p)
    ensures Across(s, Text(p)) == Some(s)
    decreases p
  {
    match p
    case Plain(c) => assert [c][1..] == "";
    case Quoted(body) =>
      var inside := s.(inString := true);
      assert Text(p)[1..] == body + ['"'];
      AcrossBody(inside, body);
      AcrossAppend(inside, body, ['"']);
      assert ['"'][1..] == "" && Across(inside, ['"']) == Some(s);
    case Bracketed(opener, parts) =>
      AcrossParts(s.(stack := s.stack + [Closer(opener)]), parts);
      AcrossClose(s, Closer(opener), Texts(parts));
  }

  lemma {:induction false} AcrossParts(s: Scanner, parts: seq<Part>)
    requires !s.inString && !s.escaped && s.stack != "" && forall q | q in parts :: WellNested(q)
    ensures Across(s, Texts(parts)) == Some(s)
    decreases parts
  {
    if parts != [] {
      AcrossPart(s, parts[0]);
      AcrossParts(s, parts[1..]);
      AcrossAppend(s, Text(parts[0]), Texts(parts[1..]));
    }
  }

  lemma BalancedIsFound(t: string, start: nat, end: nat)
    requires start < end <= |t| && Balanced(t[start..end])
    ensures Span(t, start) == Some(t[start..end])
  {
    var x := t[start..end];
    var p: Part :| Spells(p, x);
    AcrossParts(Scanner([Closer(p.opener)], false, false), p.parts);
    SpanOfBracketed(t[..start], Texts(p.parts), Closer(p.opener), t[end..]);
    assert t[..start] + x + t[end..] == t;
  }

  /* ------------------------------------------------------- what is found is balanced */

  /** A scan that gets out of a string and finishes passes the rest of a string body and its quote. */
  lemma {:induction false} BodyOf(t: string, i: nat, stack: string, end: nat) returns (m: nat)
    requires i <= |t| && ScanEnd(t, i, Scanner(stack, true, false)) == Some(end)
    ensures i <= m < |t| && StringBody(t[i..m]) && t[m] == '"'
    ensures ScanEnd(t, m + 1, Scanner(stack, false, false)) == Some(end)
    decreases |t| - i
  {
    if t[i] == '"' {
      m := i;
    } else if t[i] == '\\' {
      assert Step(Scanner(stack, true, true), t[i + 1]) == Go(Scanner(stack, true, false));
      m := BodyOf(t, i + 2, stack, end);
      assert t[i..m][2..] == t[i + 2..m];
    } else {
      m := BodyOf(t, i + 1, stack, end);
      assert t[i..m][1..] == t[i + 1..m];
    }
  }

  /** What the scan finds ahead of the bracket that closes the innermost open one. */
  ghost predicate Inside(t: string, i: nat, stack: string, end: nat, parts: seq<Part>, k: nat) {
    && i <= k < |t| && (forall q | q in parts :: WellNested(q)) && Texts(parts) == t[i..k]
    && stack != "" && t[k] == stack[|stack| - 1]
    && if |stack| == 1 then end == k + 1
       else ScanEnd(t, k + 1, Scanner(stack[..|stack| - 1], false, false)) == Some(end)
  }

  lemma Fronted(t: string, i: nat, next: nat, stack: string, end: nat, p: Part, parts: seq<Part>, k: nat)
    requires Inside(t, next, stack, end, parts, k) && i <= next && WellNested(p) && Text(p) == t[i..next]
    ensures Inside(t, i, stack, end, [p] + parts, k)
  {
    assert ([p] + parts)[1..] == parts && t[i..k] == t[i..next] + t[next..k];
  }

  lemma QuotedFront(t: string, i: nat, m: nat, stack: string, end: nat, rest: seq<Part>, k: nat)
    requires i < m < |t| && t[i] == '"' && t[m] == '"' && StringBody(t[i + 1..m])
    requires Inside(t, m + 1, stack, end, rest, k)
    ensures Inside(t, i, stack, end, [Quoted(t[i + 1..m])] + rest, k)
  {
    assert t[i..m + 1] == ['"'] + (t[i + 1..m] + ['"']);
    Fronted(t, i, m + 1, stack, end, Quoted(t[i + 1..m]), rest, k);
  }

  lemma BracketedFront(t: string, i: nat, m: nat, inner: seq<Part>, stack: string, end: nat, rest: seq<Part>, k: nat)
    requires i < m < |t| && Opener(t[i]) && t[m] == Closer(t[i])
    requires Texts(inner) == t[i + 1..m] && forall q | q in inner :: WellNested(q)
    requires Inside(t, m + 1, stack, end, rest, k)
    ensures Inside(t, i, stack, end, [Bracketed(t[i], inner)] + rest, k)
  {
    assert t[i..m + 1] == [t[i]] + (t[i + 1..m] + [t[m]]);
    Fronted(t, i, m + 1, stack, end, Bracketed(t[i], inner), rest, k);
  }

  lemma Deeper(t: string, i: nat, next: nat, stack: string, end: nat)
    requires i < |t| && next == i + 1 && Opener(t[i]) && ScanEnd(t, i, Scanner(stack, false, false)) == Some(end)
    ensures ScanEnd(t, next, Scanner(stack + [Closer(t[i])], false, false)) == Some(end)
  {}

  lemma InnerDone(t: string, i: nat, stack: string, closer: char, end: nat, inner: seq<Part>, m: nat)
    requires stack != "" && Inside(t, i, stack + [closer], end, inner, m)
    ensures t[m] == closer && ScanEnd(t, m + 1, Scanner(stack, false, false)) == Some(end)
  {
    assert (stack + [closer])[..|stack|] == stack;
  }

  lemma {:induction false} PartsOf(t: string, i: nat, stack: string, end: nat) returns (parts: seq<Part>, k: nat)
    requires i <= |t| && stack != "" && ScanEnd(t, i, Scanner(stack, false, false)) == Some(end)
    ensures Inside(t, i, stack, end, parts, k)
    decreases |t| - i
  {
    var c := t[i];
    if c == '}' || c == ']' {
      parts, k := [], i;
    } else if c == '"' {
      var m := BodyOf(t, i + 1, stack, end);
      parts, k := PartsOf(t, m + 1, stack, end);
      QuotedFront(t, i, m, stack, end, parts, k);
      parts := [Quoted(t[i + 1..m])] + parts;
    } else if Opener(c) {
      Deeper(t, i, i + 1, stack, end);
      var inner, m := PartsOf(t, i + 1, stack + [Closer(c)], end);
      InnerDone(t, i + 1, stack, Closer(c), end, inner, m);
      parts, k := PartsOf(t, m + 1, stack, end);
      BracketedFront(t, i, m, inner, stack, end, parts, k);
      parts := [Bracketed(c, inner)] + parts;
    } else {
      parts, k := PartsOf(t, i + 1, stack, end);
      Fronted(t, i, i + 1, stack, end, Plain(c), parts, k);
      parts := [Plain(c)] + parts;
    }
  }

  /** The first bracket puts its closer on the stack. */
  lemma AfterOpener(t: string, start: nat, next: nat, end: nat)
    requires start < |t| && next == start + 1 && Opener(t[start]) && ScanEnd(t, start, START) == Some(end)
    ensures ScanEnd(t, next, Scanner([Closer(t[start])], false, false)) == Some(end)
  {
    assert START.stack + [Closer(t[start])] == [Closer(t[start])];
  }

  lemma BracketedText(t: string, start: nat, k: nat, parts: seq<Part>)
    requires start < k < |t| && Opener(t[start]) && t[k] == Closer(t[start])
    requires Texts(parts) == t[start + 1..k] && forall q | q in parts :: WellNested(q)
    ensures Balanced(t[start..k + 1])
  {
    assert t[start..k + 1] == [t[start]] + (t[start + 1..k] + [t[k]]);
    assert Spells(Bracketed(t[start], parts), t[start..k + 1]);
  }

  lemma FoundIsBalanced(t: string, start: nat, end: nat)
    requires start < |t| && Opener(t[start]) && ScanEnd(t, start, START) == Some(end)
    ensures start < end <= |t| && Balanced(t[start..end])
  {
    var next := start + 1;
    AfterOpener(t, start, next, end);
    var parts, k := PartsOf(t, next, [Closer(t[start])], end);
    BracketedText(t, start, k, parts);
  }

  /* --------------------------------------------------------------- the scanner's promise */

  /** From an opening bracket, the scanner answers a span exactly when that span is balanced. */
  lemma SpanIffBalanced(t: string, start: nat, end: nat)
    requires start < end <= |t| && Opener(t[start])
    ensures Span(t, start) == Some(t[start..end]) <==> Balanced(t[start..end])
  {
    if Balanced(t[start..end]) {
      BalancedIsFound(t, start, end);
    } else if Span(t, start) == Some(t[start..end]) {
      var e := ScanEnd(t, start, START).value;
      FoundIsBalanced(t, start, e);
    }
  }

  /** So a span is balanced at one end at most, the one found is the shortest, and none is missed. */
  lemma SpanIsShortest(t: string, start: nat)
    requires start < |t| && Opener(t[start])
    ensures Span(t, start).None? <==> forall end: nat | start < end <= |t| :: !Balanced(t[start..end])
    ensures Span(t, start).Some? ==>
      && Span(t, start).value <= t[start..] && Balanced(Span(t, start).value)
      && forall end: nat | start < end <= |t| && Balanced(t[start..end]) :: t[start..end] == Span(t, start).value
  {
    forall end: nat | start < end <= |t|
      ensures Span(t, start) == Some(t[start..end]) <==> Balanced(t[start..end])
    {
      SpanIffBalanced(t, start, end);
    }
    if Span(t, start).Some? { FoundIsBalanced(t, start, ScanEnd(t, start, START).value); }
  }
}

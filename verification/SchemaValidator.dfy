/**
 The schema validator of packages/core/src/utils/json-schema.validator.ts with its shared,
 bounded issue list.  Each method is proved to leave the list alone exactly when the value
 conforms, however the list looked before.
 */
module SchemaValidator {
  import opened Base
  import opened JsonText
  import opened SchemaConformance

  datatype PathStep = AtKey(key: string) | AtIndex(index: nat)
  datatype Issue = Issue(path: seq<PathStep>, what: string)

  /**
   How a list of issues may change while a part of a value is checked: it only grows, never
   past the bound, and (while there is room) it stays as it was exactly when the part is fine.
   */
  ghost predicate Tally(before: seq<Issue>, after: seq<Issue>, ok: bool, bound: nat) {
    && before <= after
    && (|before| >= bound ==> after == before)
    && (|before| < bound ==> |after| <= bound && (after == before <==> ok))
  }

  lemma TallyThen(a: seq<Issue>, b: seq<Issue>, c: seq<Issue>, ok1: bool, ok2: bool, bound: nat)
    requires Tally(a, b, ok1, bound) && Tally(b, c, ok2, bound)
    ensures Tally(a, c, ok1 && ok2, bound)
  {}

  lemma {:induction false} AllOkAppend(root: Json, v: Json, xs: seq<Json>, ys: seq<Json>, depth: nat, refs: nat,
      rules: Rules)
    ensures AllOk(root, v, xs + ys, depth, refs, rules)
      == (AllOk(root, v, xs, depth, refs, rules) && AllOk(root, v, ys, depth, refs, rules))
  {
    if xs == [] {
      assert xs + ys == ys;
    } else {
      assert (xs + ys)[1..] == xs[1..] + ys;
      AllOkAppend(root, v, xs[1..], ys, depth, refs, rules);
    }
  }

  lemma {:induction false} MatchingSnoc(patterns: seq<Field>, k: nat, key: string, rules: Rules)
    requires k < |patterns|
    ensures Matching(patterns[..k + 1], key, rules)
      == Matching(patterns[..k], key, rules) + Matching([patterns[k]], key, rules)
  {
    if k > 0 {
      assert patterns[..k + 1][1..] == patterns[1..][..k] && patterns[..k][1..] == patterns[1..][..k - 1];
      MatchingSnoc(patterns[1..], k - 1, key, rules);
    } else {
      assert patterns[..1] == [patterns[0]];
    }
  }

  /** The items of an array and the fields of an object. */
  ghost predicate PartsOk(root: Json, v: Json, node: Json, d: nat, rules: Rules) {
    && (v.Arr? ==> ItemsOk(root, v.items, node, 0, d, MAX_REF_CHAIN, rules))
    && (v.Obj? ==> FieldsOk(root, v.fields, node, d, MAX_REF_CHAIN, rules))
  }

  lemma ItemsInBody(root: Json, v: Json, node: Json, e: nat, d: nat, c: nat, rules: Rules)
    requires e == d + 1 && v.Arr?
    ensures BodyOk(root, v, node, e, c, MAX_REF_CHAIN, rules) ==
      (FlatOk(v, node, rules) && ItemsOk(root, v.items, node, 0, d, MAX_REF_CHAIN, rules)
       && CombinatorsOk(root, v, node, e, c, MAX_REF_CHAIN, rules))
  {}

  lemma FieldsInBody(root: Json, v: Json, node: Json, e: nat, d: nat, c: nat, rules: Rules)
    requires e == d + 1 && v.Obj?
    ensures BodyOk(root, v, node, e, c, MAX_REF_CHAIN, rules) ==
      (FlatOk(v, node, rules) && FieldsOk(root, v.fields, node, d, MAX_REF_CHAIN, rules)
       && CombinatorsOk(root, v, node, e, c, MAX_REF_CHAIN, rules))
  {}

  lemma BodyInParts(root: Json, v: Json, node: Json, e: nat, d: nat, c: nat, rules: Rules)
    requires e == d + 1
    ensures BodyOk(root, v, node, e, c, MAX_REF_CHAIN, rules) ==
      (FlatOk(v, node, rules) && PartsOk(root, v, node, d, rules)
       && CombinatorsOk(root, v, node, e, c, MAX_REF_CHAIN, rules))
  {
    if v.Arr? {
      ItemsInBody(root, v, node, e, d, c, rules);
    } else if v.Obj? {
      FieldsInBody(root, v, node, e, d, c, rules);
    }
  }

  /** The fields from the i-th on conform. */
  ghost predicate FieldsLeft(root: Json, fs: seq<Field>, node: Json, i: nat, d: nat, rules: Rules) {
    i <= |fs| && FieldsOk(root, fs[i..], node, d, MAX_REF_CHAIN, rules)
  }

  /** One property conforms to every schema that is meant for it. */
  ghost predicate FieldOk(root: Json, f: Field, node: Json, d: nat, rules: Rules) {
    AllOk(root, f.value, PropertySchemas(node, f.key, rules), d, MAX_REF_CHAIN, rules)
  }

  lemma AllFieldsLeft(root: Json, fs: seq<Field>, node: Json, d: nat, rules: Rules)
    ensures FieldsLeft(root, fs, node, 0, d, rules) == FieldsOk(root, fs, node, d, MAX_REF_CHAIN, rules)
    ensures FieldsLeft(root, fs, node, |fs|, d, rules)
  {
    assert fs[0..] == fs && fs[|fs|..] == [];
  }

  lemma FieldsNext(root: Json, fs: seq<Field>, node: Json, i: nat, next: nat, d: nat, rules: Rules)
    requires i < |fs| && next == i + 1
    ensures FieldsLeft(root, fs, node, i, d, rules) ==
      (FieldOk(root, fs[i], node, d, rules) && FieldsLeft(root, fs, node, next, d, rules))
  {
    assert fs[i..][1..] == fs[next..];
  }

  lemma RefFollowed(root: Json, v: Json, node: Json, target: Json, depth: nat, chain: nat, left: nat, refs: nat,
      rules: Rules)
    requires depth > 0 && chain == left + 1 && StrKeyword(node, "$ref").Some?
    requires Resolve(root, StrKeyword(node, "$ref").value, rules) == Some(target)
    ensures RefOk(root, v, node, depth, chain, refs, rules) == Conforms(root, v, target, depth, left, refs, rules)
  {}

  lemma RefCases(root: Json, v: Json, node: Json, depth: nat, chain: nat, refs: nat, rules: Rules)
    requires depth > 0
    ensures StrKeyword(node, "$ref").None? ==> RefOk(root, v, node, depth, chain, refs, rules)
    ensures StrKeyword(node, "$ref").Some? && Resolve(root, StrKeyword(node, "$ref").value, rules).None? ==>
      !RefOk(root, v, node, depth, chain, refs, rules)
    ensures StrKeyword(node, "$ref").Some? && chain == 0 ==> !RefOk(root, v, node, depth, chain, refs, rules)
  {}

  lemma SomeTrue(root: Json, v: Json, subs: seq<Json>, d: nat, c: nat, rules: Rules)
    ensures true in Verdicts(root, v, subs, d, c, MAX_REF_CHAIN, rules)
      <==> exists sub | sub in subs :: Conforms(root, v, sub, d, c, MAX_REF_CHAIN, rules)
  {
    var verdicts := Verdicts(root, v, subs, d, c, MAX_REF_CHAIN, rules);
    if true in verdicts {
      var k :| 0 <= k < |verdicts| && verdicts[k];
      assert subs[k] in subs;
    }
    forall sub | sub in subs && Conforms(root, v, sub, d, c, MAX_REF_CHAIN, rules) ensures true in verdicts {
      var k :| 0 <= k < |subs| && subs[k] == sub;
      assert verdicts[k];
    }
  }

  lemma SomeVerdict(root: Json, v: Json, node: Json, subs: seq<Json>, d: nat, c: nat, rules: Rules)
    requires Keyword(node, "anyOf") == Some(Arr(subs))
    ensures AnyOfOk(root, v, node, d, c, MAX_REF_CHAIN, rules)
      <==> true in Verdicts(root, v, subs, d, c, MAX_REF_CHAIN, rules)
  {
    SomeTrue(root, v, subs, d, c, rules);
  }

  class Validation {
    const root: Json
    const maxIssues: nat
    const rules: Rules
    var issues: seq<Issue>

    constructor (root: Json, maxIssues: nat, rules: Rules)
      ensures this.root == root && this.maxIssues == maxIssues && this.rules == rules && issues == []
    {
      this.root, this.maxIssues, this.rules, issues := root, maxIssues, rules, [];
    }

    /** Adds one issue while there is room. */
    method Report(path: seq<PathStep>, what: string)
      modifies this`issues
      ensures issues == if |old(issues)| < maxIssues then old(issues) + [Issue(path, what)] else old(issues)
    {
      if |issues| < maxIssues { issues := issues + [Issue(path, what)]; }
    }

    /** Reports unless the check passed; `before` and `fine` carry the tally so far. */
    method Check(ok: bool, path: seq<PathStep>, what: string, ghost before: seq<Issue>, ghost fine: bool)
      requires Tally(before, issues, fine, maxIssues)
      modifies this`issues
      ensures Tally(before, issues, fine && ok, maxIssues)
    {
      if !ok { Report(path, what); }
    }

    /** Runs a schema into a scratch list, and puts the shared list back. */
    method Probe(v: Json, node: Json, path: seq<PathStep>, depth: nat, chain: nat) returns (found: seq<Issue>)
      requires depth <= MAX_VALUE_DEPTH + 1 && chain <= MAX_REF_CHAIN
      modifies this`issues
      ensures issues == old(issues) && |found| <= maxIssues
      ensures maxIssues > 0 ==> (found == [] <==>
        Conforms(root, v, node, MAX_VALUE_DEPTH + 1 - depth, MAX_REF_CHAIN - chain, MAX_REF_CHAIN, rules))
      decreases MAX_VALUE_DEPTH + 1 - depth, MAX_REF_CHAIN - chain, node, 4
    {
      var saved := issues;
      issues := [];
      Walk(v, node, path, depth, chain);
      found := issues;
      issues := saved;
    }

    /** Checks `v`, nested `depth` deep, against `node`, reached through `chain` references. */
    method Walk(v: Json, node: Json, path: seq<PathStep>, depth: nat, chain: nat)
      requires depth <= MAX_VALUE_DEPTH + 1 && chain <= MAX_REF_CHAIN
      modifies this`issues
      ensures Tally(old(issues), issues, Conforms(root, v, node, MAX_VALUE_DEPTH + 1 - depth,
        MAX_REF_CHAIN - chain, MAX_REF_CHAIN, rules), maxIssues)
      decreases MAX_VALUE_DEPTH + 1 - depth, MAX_REF_CHAIN - chain, node, 3
    {
      if |issues| >= maxIssues { return; }
      if depth > MAX_VALUE_DEPTH {
        Report(path, "nested too deep");
        return;
      }
      if node.Bool? {
        Check(node.b, path, "no value is allowed here", issues, true);
        return;
      }
      ghost var start := issues;
      var followed := WalkRef(v, node, path, depth, chain);
      if !followed { return; }
      if v.Null? && Keyword(node, "nullable") == Some(Bool(true)) { return; }
      ghost var refOk :=
        RefOk(root, v, node, MAX_VALUE_DEPTH + 1 - depth, MAX_REF_CHAIN - chain, MAX_REF_CHAIN, rules);
      if !TypeOk(v, node) {
        Check(false, path, "unexpected type", start, refOk);
        return;
      }
      ghost var mid := issues;
      WalkBody(v, node, path, depth, chain);
      TallyThen(start, mid, issues, refOk,
        BodyOk(root, v, node, MAX_VALUE_DEPTH + 1 - depth, MAX_REF_CHAIN - chain, MAX_REF_CHAIN, rules), maxIssues);
    }

    /** Follows `$ref`; false when there is nothing to follow it to, which ends the walk. */
    method WalkRef(v: Json, node: Json, path: seq<PathStep>, depth: nat, chain: nat) returns (followed: bool)
      requires depth <= MAX_VALUE_DEPTH && chain <= MAX_REF_CHAIN
      modifies this`issues
      ensures Tally(old(issues), issues, RefOk(root, v, node, MAX_VALUE_DEPTH + 1 - depth,
        MAX_REF_CHAIN - chain, MAX_REF_CHAIN, rules), maxIssues)
      ensures !followed ==> !RefOk(root, v, node, MAX_VALUE_DEPTH + 1 - depth,
        MAX_REF_CHAIN - chain, MAX_REF_CHAIN, rules)
      decreases MAX_VALUE_DEPTH + 1 - depth, MAX_REF_CHAIN - chain, node, 0
    {
      ghost var d: nat := MAX_VALUE_DEPTH + 1 - depth;
      ghost var c: nat := MAX_REF_CHAIN - chain;
      var ref := StrKeyword(node, "$ref");
      RefCases(root, v, node, d, c, MAX_REF_CHAIN, rules);
      if ref.None? { return true; }
      var target := Resolve(root, ref.value, rules);
      if target.None? {
        Report(path, "unresolvable $ref");
        return false;
      }
      if chain >= MAX_REF_CHAIN {
        Report(path, "$ref loops without matching any value");
        return false;
      }
      ghost var left: nat := MAX_REF_CHAIN - (chain + 1);
      RefFollowed(root, v, node, target.value, d, c, left, MAX_REF_CHAIN, rules);
      Walk(v, target.value, path, depth, chain + 1);
      return true;
    }

    /** Everything after the type check. */
    method WalkBody(v: Json, node: Json, path: seq<PathStep>, depth: nat, chain: nat)
      requires depth <= MAX_VALUE_DEPTH && chain <= MAX_REF_CHAIN && TypeOk(v, node)
      modifies this`issues
      ensures Tally(old(issues), issues, BodyOk(root, v, node, MAX_VALUE_DEPTH + 1 - depth,
        MAX_REF_CHAIN - chain, MAX_REF_CHAIN, rules), maxIssues)
      decreases MAX_VALUE_DEPTH + 1 - depth, MAX_REF_CHAIN - chain, node, 2
    {
      ghost var start := issues;
      ghost var flat, parts := FlatOk(v, node, rules), PartsOk(root, v, node, MAX_VALUE_DEPTH - depth, rules);
      ghost var rest := CombinatorsOk(root, v, node, MAX_VALUE_DEPTH + 1 - depth,
        MAX_REF_CHAIN - chain, MAX_REF_CHAIN, rules);
      BodyInParts(root, v, node, MAX_VALUE_DEPTH + 1 - depth, MAX_VALUE_DEPTH - depth, MAX_REF_CHAIN - chain, rules);
      WalkFlat(v, node, path);
      ghost var afterFlat := issues;
      WalkParts(v, node, path, depth);
      TallyThen(start, afterFlat, issues, flat, parts, maxIssues);
      ghost var afterParts := issues;
      WalkCombinators(v, node, path, depth, chain);
      TallyThen(start, afterParts, issues, flat && parts, rest, maxIssues);
    }

    /** The items of an array, the fields of an object. */
    method WalkParts(v: Json, node: Json, path: seq<PathStep>, depth: nat)
      requires depth <= MAX_VALUE_DEPTH
      modifies this`issues
      ensures Tally(old(issues), issues, PartsOk(root, v, node, MAX_VALUE_DEPTH - depth, rules), maxIssues)
      decreases MAX_VALUE_DEPTH - depth, MAX_REF_CHAIN + 3
    {
      if v.Arr? {
        WalkItems(v.items, node, path, depth);
      } else if v.Obj? {
        WalkFields(v.fields, node, path, depth);
      }
    }

    /** The keywords that look at the value without going into it. */
    method WalkFlat(v: Json, node: Json, path: seq<PathStep>)
      requires TypeOk(v, node)
      modifies this`issues
      ensures Tally(old(issues), issues, FlatOk(v, node, rules), maxIssues)
    {
      Check(EnumOk(v, node), path, "must be one of the listed values", issues, true);
      Check(ConstOk(v, node), path, "must equal the constant", old(issues), EnumOk(v, node));
      ghost var mid := issues;
      ghost var fine := EnumOk(v, node) && ConstOk(v, node);
      match v {
        case Str(s) =>
          WalkString(s, node, path);
          TallyThen(old(issues), mid, issues, fine, StringOk(s, node, rules), maxIssues);
        case Num(x) =>
          WalkNumber(x, node, path);
          TallyThen(old(issues), mid, issues, fine, NumberOk(x, node, rules), maxIssues);
        case Arr(items) =>
          WalkLength(items, node, path);
          TallyThen(old(issues), mid, issues, fine, LengthOk(items, node), maxIssues);
        case Obj(fs) =>
          WalkShape(fs, node, path);
          TallyThen(old(issues), mid, issues, fine, ShapeOk(fs, node), maxIssues);
        case _ =>
      }
    }

    method WalkString(s: string, node: Json, path: seq<PathStep>)
      modifies this`issues
      ensures Tally(old(issues), issues, StringOk(s, node, rules), maxIssues)
    {
      ghost var longEnough := AtLeast(|s|, NumKeyword(node, "minLength"));
      ghost var shortEnough := AtMost(|s|, NumKeyword(node, "maxLength"));
      Check(AtLeast(|s|, NumKeyword(node, "minLength")), path, "too short", issues, true);
      Check(AtMost(|s|, NumKeyword(node, "maxLength")), path, "too long", old(issues), longEnough);
      Check(PatternOk(s, node, rules), path, "must match the pattern", old(issues), longEnough && shortEnough);
    }

    method WalkNumber(x: real, node: Json, path: seq<PathStep>)
      modifies this`issues
      ensures Tally(old(issues), issues, NumberOk(x, node, rules), maxIssues)
    {
      WalkBounds(NumKeyword(node, "minimum").Some? ==> x >= NumKeyword(node, "minimum").value,
        NumKeyword(node, "maximum").Some? ==> x <= NumKeyword(node, "maximum").value, path, issues, true);
      WalkBounds(NumKeyword(node, "exclusiveMinimum").Some? ==> x > NumKeyword(node, "exclusiveMinimum").value,
        NumKeyword(node, "exclusiveMaximum").Some? ==> x < NumKeyword(node, "exclusiveMaximum").value,
        path, old(issues), InclusiveOk(x, node));
      Check(MultipleOk(x, node, rules), path, "not a multiple",
        old(issues), InclusiveOk(x, node) && ExclusiveOk(x, node));
    }

    method WalkBounds(above: bool, below: bool, path: seq<PathStep>, ghost before: seq<Issue>, ghost fine: bool)
      requires Tally(before, issues, fine, maxIssues)
      modifies this`issues
      ensures Tally(before, issues, fine && above && below, maxIssues)
    {
      Check(above, path, "below the lower bound", before, fine);
      Check(below, path, "above the upper bound", before, fine && above);
    }

    method WalkLength(items: seq<Json>, node: Json, path: seq<PathStep>)
      modifies this`issues
      ensures Tally(old(issues), issues, LengthOk(items, node), maxIssues)
    {
      var enough, few := AtLeast(|items|, NumKeyword(node, "minItems")), AtMost(|items|, NumKeyword(node, "maxItems"));
      Check(enough, path, "too few items", issues, true);
      Check(few, path, "too many items", old(issues), enough);
      if Keyword(node, "uniqueItems") == Some(Bool(true)) {
        Check(Unique(items), path, "duplicates an earlier item", old(issues), enough && few);
      }
    }

    method WalkShape(fs: seq<Field>, node: Json, path: seq<PathStep>)
      modifies this`issues
      ensures Tally(old(issues), issues, ShapeOk(fs, node), maxIssues)
    {
      var keys := ListKeyword(node, "required");
      for i := 0 to |keys|
        invariant Tally(old(issues), issues, RequiredOk(fs, keys[..i]), maxIssues)
      {
        var present := keys[i].Str? ==> Lookup(fs, keys[i].s).Some?;
        assert keys[..i + 1] == keys[..i] + [keys[i]];
        assert RequiredOk(fs, keys[..i + 1]) == (RequiredOk(fs, keys[..i]) && present);
        var at := if keys[i].Str? then [AtKey(keys[i].s)] else [];
        Check(present, path + at, "is required", old(issues), RequiredOk(fs, keys[..i]));
      }
      assert keys[..|keys|] == keys;
      var enough := AtLeast(|fs|, NumKeyword(node, "minProperties"));
      var few := AtMost(|fs|, NumKeyword(node, "maxProperties"));
      Check(enough, path, "too few properties", old(issues), RequiredOk(fs, keys));
      Check(few, path, "too many properties", old(issues), RequiredOk(fs, keys) && enough);
    }

    method WalkItems(items: seq<Json>, node: Json, path: seq<PathStep>, depth: nat)
      requires depth <= MAX_VALUE_DEPTH
      modifies this`issues
      ensures Tally(old(issues), issues,
        ItemsOk(root, items, node, 0, MAX_VALUE_DEPTH - depth, MAX_REF_CHAIN, rules), maxIssues)
      decreases MAX_VALUE_DEPTH - depth, MAX_REF_CHAIN + 1
    {
      ghost var d: nat := MAX_VALUE_DEPTH - depth;
      ghost var okSoFar := true;
      for i := 0 to |items|
        invariant Tally(old(issues), issues, okSoFar, maxIssues)
        invariant ItemsOk(root, items, node, 0, d, MAX_REF_CHAIN, rules)
          == (okSoFar && ItemsOk(root, items, node, i, d, MAX_REF_CHAIN, rules))
      {
        var sub := ItemSchema(node, i);
        if sub.Some? {
          ghost var before := issues;
          ghost var ok := Conforms(root, items[i], sub.value, d, MAX_REF_CHAIN, MAX_REF_CHAIN, rules);
          Walk(items[i], sub.value, path + [AtIndex(i)], depth + 1, 0);
          TallyThen(old(issues), before, issues, okSoFar, ok, maxIssues);
          okSoFar := okSoFar && ok;
        }
      }
    }

    method WalkFields(fs: seq<Field>, node: Json, path: seq<PathStep>, depth: nat)
      requires depth <= MAX_VALUE_DEPTH
      modifies this`issues
      ensures Tally(old(issues), issues,
        FieldsOk(root, fs, node, MAX_VALUE_DEPTH - depth, MAX_REF_CHAIN, rules), maxIssues)
      decreases MAX_VALUE_DEPTH - depth, MAX_REF_CHAIN + 2
    {
      ghost var d: nat := MAX_VALUE_DEPTH - depth;
      ghost var okSoFar := true;
      AllFieldsLeft(root, fs, node, d, rules);
      for i := 0 to |fs|
        invariant Tally(old(issues), issues, okSoFar, maxIssues)
        invariant FieldsOk(root, fs, node, d, MAX_REF_CHAIN, rules)
          == (okSoFar && FieldsLeft(root, fs, node, i, d, rules))
      {
        WalkNextField(fs[i], node, path, depth, old(issues), okSoFar, d);
        FieldsNext(root, fs, node, i, i + 1, d, rules);
        okSoFar := okSoFar && FieldOk(root, fs[i], node, d, rules);
      }
    }

    method WalkNextField(f: Field, node: Json, path: seq<PathStep>, depth: nat,
        ghost start: seq<Issue>, ghost okSoFar: bool, ghost d: nat)
      requires depth <= MAX_VALUE_DEPTH && Tally(start, issues, okSoFar, maxIssues) && d == MAX_VALUE_DEPTH - depth
      modifies this`issues
      ensures Tally(start, issues, okSoFar && FieldOk(root, f, node, d, rules), maxIssues)
      decreases MAX_VALUE_DEPTH - depth, MAX_REF_CHAIN + 1, 2
    {
      ghost var before := issues;
      ghost var ok := FieldOk(root, f, node, d, rules);
      WalkField(f, node, path + [AtKey(f.key)], depth);
      TallyThen(start, before, issues, okSoFar, ok, maxIssues);
    }

    /** One property: its own schema, every matching pattern, or else the additional ones. */
    method WalkField(f: Field, node: Json, at: seq<PathStep>, depth: nat)
      requires depth <= MAX_VALUE_DEPTH
      modifies this`issues
      ensures Tally(old(issues), issues, AllOk(root, f.value, PropertySchemas(node, f.key, rules),
        MAX_VALUE_DEPTH - depth, MAX_REF_CHAIN, rules), maxIssues)
      decreases MAX_VALUE_DEPTH - depth, MAX_REF_CHAIN + 1, 1
    {
      ghost var done: seq<Json> := [];
      var matched := false;
      var named := Lookup(MapKeyword(node, "properties"), f.key);
      if named.Some? {
        Into(f.value, named.value, at, depth);
        done := [named.value];
        matched := true;
      }
      var any := WalkPatterns(f, MapKeyword(node, "patternProperties"), at, depth, old(issues), done);
      if !matched && !any { WalkAdditional(f.value, node, at, depth, f.key); }
    }

    /** Every pattern property whose pattern matches, on top of the schemas in `done`. */
    method WalkPatterns(f: Field, patterns: seq<Field>, at: seq<PathStep>, depth: nat,
                        ghost start: seq<Issue>, ghost done: seq<Json>)
      returns (any: bool)
      requires depth <= MAX_VALUE_DEPTH
      requires Tally(start, issues,
        AllOk(root, f.value, done, MAX_VALUE_DEPTH - depth, MAX_REF_CHAIN, rules), maxIssues)
      modifies this`issues
      ensures any <==> Matching(patterns, f.key, rules) != []
      ensures !any ==> issues == old(issues)
      ensures Tally(start, issues, AllOk(root, f.value, done + Matching(patterns, f.key, rules),
        MAX_VALUE_DEPTH - depth, MAX_REF_CHAIN, rules), maxIssues)
      decreases MAX_VALUE_DEPTH - depth, MAX_REF_CHAIN + 1, 0
    {
      any := false;
      ghost var walked: seq<Json> := [];
      assert done + walked == done;
      for j := 0 to |patterns|
        invariant walked == Matching(patterns[..j], f.key, rules)
        invariant any <==> walked != []
        invariant !any ==> issues == old(issues)
        invariant Tally(start, issues,
          AllOk(root, f.value, done + walked, MAX_VALUE_DEPTH - depth, MAX_REF_CHAIN, rules), maxIssues)
      {
        MatchingSnoc(patterns, j, f.key, rules);
        var regex := rules.regex(patterns[j].key);
        if regex.Some? && regex.value(f.key) {
          ghost var before := issues;
          Into(f.value, patterns[j].value, at, depth);
          TallyInto(start, before, issues, f.value, patterns[j].value, done + walked, MAX_VALUE_DEPTH - depth);
          Assoc(done, walked, [patterns[j].value]);
          walked := walked + [patterns[j].value];
          any := true;
        }
      }
      assert patterns[..|patterns|] == patterns;
    }

    method WalkAdditional(v: Json, node: Json, at: seq<PathStep>, depth: nat, ghost key: string)
      requires depth <= MAX_VALUE_DEPTH
      requires Lookup(MapKeyword(node, "properties"), key).None?
      requires Matching(MapKeyword(node, "patternProperties"), key, rules) == []
      modifies this`issues
      ensures Tally(old(issues), issues, AllOk(root, v, PropertySchemas(node, key, rules),
        MAX_VALUE_DEPTH - depth, MAX_REF_CHAIN, rules), maxIssues)
      decreases MAX_VALUE_DEPTH - depth, MAX_REF_CHAIN, Keyword(node, "additionalProperties"), 5
    {
      match Keyword(node, "additionalProperties") {
        case Some(Bool(b)) => Check(b, at, "is not an allowed property", issues, true);
        case Some(Arr(x)) => Into(v, Arr(x), at, depth);
        case Some(Obj(x)) => Into(v, Obj(x), at, depth);
        case _ =>
      }
    }

    /** Steps into a property. */
    method Into(v: Json, sub: Json, at: seq<PathStep>, depth: nat)
      requires depth <= MAX_VALUE_DEPTH
      modifies this`issues
      ensures Tally(old(issues), issues,
        AllOk(root, v, [sub], MAX_VALUE_DEPTH - depth, MAX_REF_CHAIN, rules), maxIssues)
      decreases MAX_VALUE_DEPTH - depth, MAX_REF_CHAIN, sub, 4
    {
      Walk(v, sub, at, depth + 1, 0);
    }

    lemma TallyInto(a: seq<Issue>, b: seq<Issue>, c: seq<Issue>, v: Json, sub: Json, done: seq<Json>, d: nat)
      requires Tally(a, b, AllOk(root, v, done, d, MAX_REF_CHAIN, rules), maxIssues)
      requires Tally(b, c, AllOk(root, v, [sub], d, MAX_REF_CHAIN, rules), maxIssues)
      ensures Tally(a, c, AllOk(root, v, done + [sub], d, MAX_REF_CHAIN, rules), maxIssues)
    {
      AllOkAppend(root, v, done, [sub], d, MAX_REF_CHAIN, rules);
    }

    method WalkCombinators(v: Json, node: Json, path: seq<PathStep>, depth: nat, chain: nat)
      requires depth <= MAX_VALUE_DEPTH && chain <= MAX_REF_CHAIN
      modifies this`issues
      ensures Tally(old(issues), issues, CombinatorsOk(root, v, node, MAX_VALUE_DEPTH + 1 - depth,
        MAX_REF_CHAIN - chain, MAX_REF_CHAIN, rules), maxIssues)
      decreases MAX_VALUE_DEPTH + 1 - depth, MAX_REF_CHAIN - chain, node, 1
    {
      ghost var d: nat, c: nat := MAX_VALUE_DEPTH + 1 - depth, MAX_REF_CHAIN - chain;
      WalkAllOf(v, node, path, depth, chain);
      ghost var all := AllOfOk(root, v, node, d, c, MAX_REF_CHAIN, rules);
      ghost var afterAll := issues;
      WalkAnyOf(v, node, path, depth, chain);
      ghost var any := AnyOfOk(root, v, node, d, c, MAX_REF_CHAIN, rules);
      TallyThen(old(issues), afterAll, issues, all, any, maxIssues);
      ghost var afterAny := issues;
      WalkOneOf(v, node, path, depth, chain);
      ghost var one := OneOfOk(root, v, node, d, c, MAX_REF_CHAIN, rules);
      TallyThen(old(issues), afterAny, issues, all && any, one, maxIssues);
      ghost var afterOne := issues;
      WalkNot(v, node, path, depth, chain);
      TallyThen(old(issues), afterOne, issues, all && any && one,
        NotOk(root, v, node, d, c, MAX_REF_CHAIN, rules), maxIssues);
    }

    method WalkAllOf(v: Json, node: Json, path: seq<PathStep>, depth: nat, chain: nat)
      requires depth <= MAX_VALUE_DEPTH && chain <= MAX_REF_CHAIN
      modifies this`issues
      ensures Tally(old(issues), issues, AllOfOk(root, v, node, MAX_VALUE_DEPTH + 1 - depth,
        MAX_REF_CHAIN - chain, MAX_REF_CHAIN, rules), maxIssues)
      decreases MAX_VALUE_DEPTH + 1 - depth, MAX_REF_CHAIN - chain, node, 0
    {
      ghost var d: nat, c: nat := MAX_VALUE_DEPTH + 1 - depth, MAX_REF_CHAIN - chain;
      var all := ListKeyword(node, "allOf");
      ghost var okSoFar := true;
      for i := 0 to |all|
        invariant Tally(old(issues), issues, okSoFar, maxIssues)
        invariant okSoFar == forall k :: 0 <= k < i ==> Conforms(root, v, all[k], d, c, MAX_REF_CHAIN, rules)
      {
        ghost var before := issues;
        ghost var ok := Conforms(root, v, all[i], d, c, MAX_REF_CHAIN, rules);
        assert all[i] in all;
        Walk(v, all[i], path, depth, chain);
        TallyThen(old(issues), before, issues, okSoFar, ok, maxIssues);
        okSoFar := okSoFar && ok;
      }
    }

    method WalkAnyOf(v: Json, node: Json, path: seq<PathStep>, depth: nat, chain: nat)
      requires depth <= MAX_VALUE_DEPTH && chain <= MAX_REF_CHAIN
      modifies this`issues
      ensures Tally(old(issues), issues, AnyOfOk(root, v, node, MAX_VALUE_DEPTH + 1 - depth,
        MAX_REF_CHAIN - chain, MAX_REF_CHAIN, rules), maxIssues)
      decreases MAX_VALUE_DEPTH + 1 - depth, MAX_REF_CHAIN - chain, node, 0
    {
      ghost var d: nat, c: nat := MAX_VALUE_DEPTH + 1 - depth, MAX_REF_CHAIN - chain;
      match Keyword(node, "anyOf") {
        case Some(Arr(subs)) =>
          var verdicts := Branches(v, subs, path, depth, chain);
          if maxIssues > 0 { SomeVerdict(root, v, node, subs, d, c, rules); }
          Check(true in verdicts, path, "must match at least one schema in anyOf", issues, true);
        case _ =>
      }
    }

    method WalkOneOf(v: Json, node: Json, path: seq<PathStep>, depth: nat, chain: nat)
      requires depth <= MAX_VALUE_DEPTH && chain <= MAX_REF_CHAIN
      modifies this`issues
      ensures Tally(old(issues), issues, OneOfOk(root, v, node, MAX_VALUE_DEPTH + 1 - depth,
        MAX_REF_CHAIN - chain, MAX_REF_CHAIN, rules), maxIssues)
      decreases MAX_VALUE_DEPTH + 1 - depth, MAX_REF_CHAIN - chain, node, 0
    {
      match Keyword(node, "oneOf") {
        case Some(Arr(subs)) =>
          var verdicts := Branches(v, subs, path, depth, chain);
          Check(CountTrue(verdicts) == 1, path, "must match exactly one schema in oneOf", issues, true);
        case _ =>
      }
    }

    method WalkNot(v: Json, node: Json, path: seq<PathStep>, depth: nat, chain: nat)
      requires depth <= MAX_VALUE_DEPTH && chain <= MAX_REF_CHAIN
      modifies this`issues
      ensures Tally(old(issues), issues, NotOk(root, v, node, MAX_VALUE_DEPTH + 1 - depth,
        MAX_REF_CHAIN - chain, MAX_REF_CHAIN, rules), maxIssues)
      decreases MAX_VALUE_DEPTH + 1 - depth, MAX_REF_CHAIN - chain, node, 0
    {
      match Keyword(node, "not") {
        case Some(sub) =>
          var found := Probe(v, sub, path, depth, chain);
          Check(found != [], path, "must not match the schema in not", issues, true);
        case None =>
      }
    }

    /** Probes every branch and says which found nothing wrong. */
    method Branches(v: Json, subs: seq<Json>, path: seq<PathStep>, depth: nat, chain: nat) returns (verdicts: seq<bool>)
      requires depth <= MAX_VALUE_DEPTH && chain <= MAX_REF_CHAIN
      modifies this`issues
      ensures issues == old(issues) && |verdicts| == |subs|
      ensures maxIssues > 0 ==>
        verdicts == Verdicts(root, v, subs, MAX_VALUE_DEPTH + 1 - depth, MAX_REF_CHAIN - chain, MAX_REF_CHAIN, rules)
      decreases MAX_VALUE_DEPTH + 1 - depth, MAX_REF_CHAIN - chain, subs, 4
    {
      verdicts := [];
      for i := 0 to |subs|
        invariant issues == old(issues) && |verdicts| == i
        invariant maxIssues > 0 ==> forall k :: 0 <= k < i ==>
          verdicts[k] ==
            Conforms(root, v, subs[k], MAX_VALUE_DEPTH + 1 - depth, MAX_REF_CHAIN - chain, MAX_REF_CHAIN, rules)
      {
        var found := Probe(v, subs[i], path, depth, chain);
        verdicts := verdicts + [found == []];
      }
    }
  }

  /**
   `validateJsonSchema`: with room for at least one issue its verdict is conformance; with room
   for none it accepts everything.
   */
  method Validate(v: Json, schema: Json, maxIssues: nat, rules: Rules) returns (valid: bool, issues: seq<Issue>)
    ensures maxIssues > 0 ==> (valid <==> Valid(v, schema, rules))
    ensures maxIssues == 0 ==> valid
    ensures |issues| <= maxIssues && (valid <==> issues == [])
  {
    var run := new Validation(schema, maxIssues, rules);
    run.Walk(v, schema, [], 0, 0);
    issues := run.issues;
    valid := |issues| == 0;
  }
}

/**
 The limits of the validator only matter to evaluations that reach them: once an evaluation stays
 within a depth and a chain of references, a higher allowance decides the same.
 */
module SchemaLimits {
  import opened JsonText
  import opened SchemaConformance

  /** The schemas a node applies to the same value. */
  function Branches(node: Json): (r: seq<Json>)
    ensures forall x | x in r :: x < node
  {
    ListKeyword(node, "allOf") + ListKeyword(node, "anyOf") + ListKeyword(node, "oneOf")
    + match Keyword(node, "not") case Some(sub) => [sub] case None => []
  }

  /** No part of the evaluation runs out of depth or of references. */
  ghost predicate Within(root: Json, v: Json, node: Json, depth: nat, chain: nat, refs: nat, rules: Rules)
    decreases depth, chain, node
  {
    depth > 0 &&
    (node.Bool? ||
     (&& TargetWithin(root, v, node, depth, chain, refs, rules)
      && (v.Arr? ==> forall i | 0 <= i < |v.items| && ItemSchema(node, i).Some? ::
            Within(root, v.items[i], ItemSchema(node, i).value, depth - 1, refs, refs, rules))
      && (v.Obj? ==> forall i, s | 0 <= i < |v.fields| && s in PropertySchemas(node, v.fields[i].key, rules) ::
            Within(root, v.fields[i].value, s, depth - 1, refs, refs, rules))
      && forall sub | sub in Branches(node) :: Within(root, v, sub, depth, chain, refs, rules)))
  }

  ghost predicate TargetWithin(root: Json, v: Json, node: Json, depth: nat, chain: nat, refs: nat, rules: Rules)
    decreases depth, chain, node, 0
  {
    match StrKeyword(node, "$ref")
    case None => true
    case Some(ref) =>
      match Resolve(root, ref, rules)
      case None => true
      case Some(target) => chain > 0 && Within(root, v, target, depth, chain - 1, refs, rules)
  }

  /** An evaluation, and the same with a higher allowance. */
  datatype Run = Run(root: Json, refs: nat, rules: Rules) {
    ghost predicate Steady(v: Json, n: Json, d: nat, c: nat, d': nat, c': nat) {
      Conforms(root, v, n, d, c, refs, rules) == Conforms(root, v, n, d', c', refs, rules)
    }

    ghost predicate Fits(v: Json, n: Json, d: nat, c: nat) { Within(root, v, n, d, c, refs, rules) }

    lemma {:induction false} Enough(v: Json, n: Json, d: nat, c: nat, d': nat, c': nat)
      requires Fits(v, n, d, c) && d <= d' && c <= c'
      ensures Steady(v, n, d, c, d', c')
      decreases d, c, n, 3
    {
      if !n.Bool? {
        EnoughForRef(v, n, d, c, d', c');
        EnoughForBody(v, n, d, c, d', c');
      }
    }

    lemma {:induction false} EnoughForRef(v: Json, n: Json, d: nat, c: nat, d': nat, c': nat)
      requires TargetWithin(root, v, n, d, c, refs, rules) && 0 < d <= d' && c <= c'
      ensures RefOk(root, v, n, d, c, refs, rules) == RefOk(root, v, n, d', c', refs, rules)
      decreases d, c, n, 0
    {
      if StrKeyword(n, "$ref").Some? && Resolve(root, StrKeyword(n, "$ref").value, rules).Some? {
        EnoughForTarget(v, Resolve(root, StrKeyword(n, "$ref").value, rules).value, d, c, d', c');
      }
    }

    lemma {:induction false} EnoughForTarget(v: Json, t: Json, d: nat, c: nat, d': nat, c': nat)
      requires c > 0 && Fits(v, t, d, c - 1) && d <= d' && c <= c'
      ensures Steady(v, t, d, c - 1, d', c' - 1)
      decreases d, c - 1, t, 4
    {
      forall b: nat, b': nat | b == c - 1 && b' == c' - 1 ensures Steady(v, t, d, b, d', b') {
        Enough(v, t, d, b, d', b');
      }
    }

    lemma {:induction false} EnoughForBody(v: Json, n: Json, d: nat, c: nat, d': nat, c': nat)
      requires Fits(v, n, d, c) && d <= d' && c <= c' && !n.Bool?
      ensures BodyOk(root, v, n, d, c, refs, rules) == BodyOk(root, v, n, d', c', refs, rules)
      decreases d, c, n, 2
    {
      if v.Arr? { EnoughForItems(v, n, 0, d, c, d', c'); }
      if v.Obj? { EnoughForFields(v, n, 0, d, c, d', c'); assert v.fields[0..] == v.fields; }
      EnoughForBranches(v, n, d, c, d', c');
    }

    lemma {:induction false} EnoughForItems(v: Json, n: Json, i: nat, d: nat, c: nat, d': nat, c': nat)
      requires Fits(v, n, d, c) && d <= d' && c <= c' && !n.Bool? && v.Arr? && i <= |v.items|
      ensures ItemsOk(root, v.items, n, i, d - 1, refs, rules) == ItemsOk(root, v.items, n, i, d' - 1, refs, rules)
      decreases d, c, n, 1, |v.items| - i
    {
      if i < |v.items| {
        if ItemSchema(n, i).Some? { EnoughDeeper(v.items[i], ItemSchema(n, i).value, d, d'); }
        EnoughForItems(v, n, i + 1, d, c, d', c');
      }
    }

    lemma {:induction false} EnoughDeeper(v: Json, s: Json, d: nat, d': nat)
      requires 0 < d <= d' && Fits(v, s, d - 1, refs)
      ensures Steady(v, s, d - 1, refs, d' - 1, refs)
      decreases d - 1, refs, s, 4
    {
      forall e: nat, e': nat | e == d - 1 && e' == d' - 1 ensures Steady(v, s, e, refs, e', refs) {
        Enough(v, s, e, refs, e', refs);
      }
    }

    lemma {:induction false} EnoughForFields(v: Json, n: Json, i: nat, d: nat, c: nat, d': nat, c': nat)
      requires Fits(v, n, d, c) && d <= d' && c <= c' && !n.Bool? && v.Obj? && i <= |v.fields|
      ensures FieldsOk(root, v.fields[i..], n, d - 1, refs, rules)
        == FieldsOk(root, v.fields[i..], n, d' - 1, refs, rules)
      decreases d, c, n, 1, |v.fields| - i
    {
      if i < |v.fields| {
        var f := v.fields[i];
        EnoughForAll(f.value, PropertySchemas(n, f.key, rules), d, d');
        EnoughForFields(v, n, i + 1, d, c, d', c');
        assert v.fields[i..][1..] == v.fields[i + 1..];
      }
    }

    lemma {:induction false} EnoughForAll(v: Json, subs: seq<Json>, d: nat, d': nat)
      requires 0 < d <= d' && forall s | s in subs :: Fits(v, s, d - 1, refs)
      ensures AllOk(root, v, subs, d - 1, refs, rules) == AllOk(root, v, subs, d' - 1, refs, rules)
      decreases d - 1, refs + 1, subs
    {
      if subs != [] {
        assert subs[0] in subs && forall s | s in subs[1..] :: s in subs;
        EnoughDeeper(v, subs[0], d, d');
        EnoughForAll(v, subs[1..], d, d');
      }
    }

    lemma {:induction false} EnoughForBranches(v: Json, n: Json, d: nat, c: nat, d': nat, c': nat)
      requires Fits(v, n, d, c) && d <= d' && c <= c' && !n.Bool?
      ensures CombinatorsOk(root, v, n, d, c, refs, rules) == CombinatorsOk(root, v, n, d', c', refs, rules)
      decreases d, c, n, 1
    {
      forall sub | sub in Branches(n) ensures Steady(v, sub, d, c, d', c') {
        Enough(v, sub, d, c, d', c');
      }
      SteadyCombinators(v, n, d, c, d', c');
    }

    lemma SteadyCombinators(v: Json, n: Json, d: nat, c: nat, d': nat, c': nat)
      requires forall sub | sub in Branches(n) :: Steady(v, sub, d, c, d', c')
      ensures CombinatorsOk(root, v, n, d, c, refs, rules) == CombinatorsOk(root, v, n, d', c', refs, rules)
    {
      SteadyAllOf(v, n, d, c, d', c');
      SteadyAnyOf(v, n, d, c, d', c');
      SteadyOneOf(v, n, d, c, d', c');
      SteadyNot(v, n, d, c, d', c');
    }

    lemma SteadyAllOf(v: Json, n: Json, d: nat, c: nat, d': nat, c': nat)
      requires forall sub | sub in Branches(n) :: Steady(v, sub, d, c, d', c')
      ensures AllOfOk(root, v, n, d, c, refs, rules) == AllOfOk(root, v, n, d', c', refs, rules)
    {
      assert forall sub | sub in ListKeyword(n, "allOf") :: sub in Branches(n);
    }

    lemma SteadyAnyOf(v: Json, n: Json, d: nat, c: nat, d': nat, c': nat)
      requires forall sub | sub in Branches(n) :: Steady(v, sub, d, c, d', c')
      ensures AnyOfOk(root, v, n, d, c, refs, rules) == AnyOfOk(root, v, n, d', c', refs, rules)
    {
      var subs := ListKeyword(n, "anyOf");
      assert forall sub | sub in subs :: sub in Branches(n);
      forall sub | sub in subs
        ensures Conforms(root, v, sub, d, c, refs, rules) == Conforms(root, v, sub, d', c', refs, rules)
      {
        assert Steady(v, sub, d, c, d', c');
      }
    }

    lemma SteadyOneOf(v: Json, n: Json, d: nat, c: nat, d': nat, c': nat)
      requires forall sub | sub in Branches(n) :: Steady(v, sub, d, c, d', c')
      ensures OneOfOk(root, v, n, d, c, refs, rules) == OneOfOk(root, v, n, d', c', refs, rules)
    {
      assert forall sub | sub in ListKeyword(n, "oneOf") :: sub in Branches(n);
      SteadyVerdicts(v, ListKeyword(n, "oneOf"), d, c, d', c');
    }

    lemma SteadyNot(v: Json, n: Json, d: nat, c: nat, d': nat, c': nat)
      requires forall sub | sub in Branches(n) :: Steady(v, sub, d, c, d', c')
      ensures NotOk(root, v, n, d, c, refs, rules) == NotOk(root, v, n, d', c', refs, rules)
    {
      if Keyword(n, "not").Some? {
        assert Keyword(n, "not").value in Branches(n);
        assert Steady(v, Keyword(n, "not").value, d, c, d', c');
      }
    }

    lemma SteadyVerdicts(v: Json, subs: seq<Json>, d: nat, c: nat, d': nat, c': nat)
      requires forall s | s in subs :: Steady(v, s, d, c, d', c')
      ensures Verdicts(root, v, subs, d, c, refs, rules) == Verdicts(root, v, subs, d', c', refs, rules)
    {
      forall i | 0 <= i < |subs|
        ensures Conforms(root, v, subs[i], d, c, refs, rules) == Conforms(root, v, subs[i], d', c', refs, rules)
      {
        assert subs[i] in subs && Steady(v, subs[i], d, c, d', c');
      }
    }
  }
}

/**
 The wrapped schema decides every answer as the original does: evaluation of the two runs in
 step, keyword by keyword and reference by reference.
 */
module SchemaWrapTheorem {
  import opened Base
  import opened JsonText
  import opened SchemaConformance
  import opened SchemaWrap
  import opened SchemaWrapMeaning

  /* -------------------------------------------------- schemas that mirror each other */

  ghost function RewrittenKeyword(k: string, o: Option<Json>, m: string -> string): Option<Json> {
    match o case None => None case Some(v) => Some(RewriteValue(k, v, m))
  }

  ghost predicate MirrorsAt(n: Json, n': Json, k: string, m: string -> string) {
    Keyword(n', k) == RewrittenKeyword(k, Keyword(n, k), m)
  }

  /** `n'` is `n` rewritten, as far as any keyword but the definitions can tell. */
  ghost predicate Mirrors(n: Json, n': Json, m: string -> string) {
    && (n.Bool? || n'.Bool? ==> n == n')
    && forall k :: k !in DEFINITIONS ==> MirrorsAt(n, n', k, m)
  }

  ghost predicate CoveredAt(n: Json, k: string, p: string -> bool) {
    Keyword(n, k).Some? ==> EveryField(Field(k, Keyword(n, k).value), p)
  }

  /** Every reference met below the keywords of `n`, definitions aside, satisfies `p`. */
  ghost predicate Covered(n: Json, p: string -> bool) {
    forall k :: k !in DEFINITIONS ==> CoveredAt(n, k, p)
  }

  lemma RewritingMirrors(n: Json, m: string -> string, p: string -> bool)
    ensures Mirrors(n, Rewrite(n, m), m)
    ensures Every(n, p) ==> Covered(n, p)
  {
    if n.Obj? {
      forall k ensures Keyword(Rewrite(n, m), k) == RewrittenKeyword(k, Keyword(n, k), m) {
        LookupRewritten(n.fields, k, m);
      }
    }
  }

  lemma RootMirrors(schema: Json, m: string -> string, p: string -> bool)
    requires schema.Obj? && Every(Inner(schema), p)
    ensures Mirrors(schema, Rewrite(Inner(schema), m), m) && Covered(schema, p)
  {
    RewritingMirrors(Inner(schema), m, p);
    forall k | k !in DEFINITIONS ensures Keyword(Inner(schema), k) == Keyword(schema, k) {
      InnerKeyword(schema, k);
    }
  }

  /* ------------------------------------------------------------------ flat keywords */

  predicate PlainKeyword(k: string) { k !in DEFINITIONS && k != "$ref" && !DataKeyword(k) && !SchemaMap(k) }

  lemma PlainSame(n: Json, n': Json, m: string -> string, k: string)
    requires Mirrors(n, n', m) && PlainKeyword(k)
    ensures Keyword(n', k) == MapOption(Keyword(n, k), m)
  {
    assert MirrorsAt(n, n', k, m);
  }

  lemma NumSame(n: Json, n': Json, m: string -> string, k: string)
    requires Mirrors(n, n', m) && PlainKeyword(k)
    ensures NumKeyword(n', k) == NumKeyword(n, k)
  {
    PlainSame(n, n', m, k);
  }

  lemma TypesSame(v: Json, ts: seq<Json>, m: string -> string)
    ensures (exists t | t in RewriteAll(ts, m) :: MatchesType(v, t)) <==> exists t | t in ts :: MatchesType(v, t)
  {
    var ts' := RewriteAll(ts, m);
    assert forall i :: 0 <= i < |ts| ==> MatchesType(v, ts'[i]) == MatchesType(v, ts[i]);
    assert forall i :: 0 <= i < |ts| ==> ts[i] in ts && ts'[i] in ts';
  }

  lemma TypeSame(v: Json, n: Json, n': Json, m: string -> string)
    requires Mirrors(n, n', m)
    ensures TypeOk(v, n') == TypeOk(v, n)
  {
    PlainSame(n, n', m, "type");
    match Keyword(n, "type")
    case Some(Arr(ts)) => TypesSame(v, ts, m);
    case _ =>
  }

  lemma DataSame(v: Json, n: Json, n': Json, m: string -> string)
    requires Mirrors(n, n', m)
    ensures EnumOk(v, n') == EnumOk(v, n) && ConstOk(v, n') == ConstOk(v, n)
  {
    assert MirrorsAt(n, n', "enum", m) && MirrorsAt(n, n', "const", m);
  }

  lemma StringSame(s: string, n: Json, n': Json, m: string -> string, rules: Rules)
    requires Mirrors(n, n', m)
    ensures StringOk(s, n', rules) == StringOk(s, n, rules)
  {
    NumSame(n, n', m, "minLength"); NumSame(n, n', m, "maxLength"); PlainSame(n, n', m, "pattern");
  }

  lemma NumberSame(x: real, n: Json, n': Json, m: string -> string, rules: Rules)
    requires Mirrors(n, n', m)
    ensures NumberOk(x, n', rules) == NumberOk(x, n, rules)
  {
    NumSame(n, n', m, "minimum"); NumSame(n, n', m, "maximum"); NumSame(n, n', m, "multipleOf");
    NumSame(n, n', m, "exclusiveMinimum"); NumSame(n, n', m, "exclusiveMaximum");
  }

  lemma LengthSame(items: seq<Json>, n: Json, n': Json, m: string -> string)
    requires Mirrors(n, n', m)
    ensures LengthOk(items, n') == LengthOk(items, n)
  {
    NumSame(n, n', m, "minItems"); NumSame(n, n', m, "maxItems"); PlainSame(n, n', m, "uniqueItems");
  }

  lemma RequiredSame(fs: seq<Field>, keys: seq<Json>, m: string -> string)
    ensures RequiredOk(fs, RewriteAll(keys, m)) == RequiredOk(fs, keys)
  {
    var keys' := RewriteAll(keys, m);
    assert forall i :: 0 <= i < |keys| ==> (keys[i].Str? <==> keys'[i].Str?) && (keys[i].Str? ==> keys[i] == keys'[i]);
    assert forall i :: 0 <= i < |keys| ==> keys[i] in keys && keys'[i] in keys';
  }

  lemma ShapeSame(fs: seq<Field>, n: Json, n': Json, m: string -> string)
    requires Mirrors(n, n', m)
    ensures ShapeOk(fs, n') == ShapeOk(fs, n)
  {
    NumSame(n, n', m, "minProperties"); NumSame(n, n', m, "maxProperties"); PlainSame(n, n', m, "required");
    RequiredSame(fs, ListKeyword(n, "required"), m);
  }

  lemma FlatSame(v: Json, n: Json, n': Json, m: string -> string, rules: Rules)
    requires Mirrors(n, n', m)
    ensures FlatOk(v, n', rules) == FlatOk(v, n, rules)
  {
    TypeSame(v, n, n', m);
    DataSame(v, n, n', m);
    match v
    case Str(s) => StringSame(s, n, n', m, rules);
    case Num(x) => NumberSame(x, n, n', m, rules);
    case Arr(items) => LengthSame(items, n, n', m);
    case Obj(fs) => ShapeSame(fs, n, n', m);
    case _ =>
  }

  /* ---------------------------------------------------------------- the subschemas */

  lemma ListSame(n: Json, n': Json, m: string -> string, p: string -> bool, k: string)
    requires Mirrors(n, n', m) && Covered(n, p) && PlainKeyword(k)
    ensures ListKeyword(n', k) == RewriteAll(ListKeyword(n, k), m)
    ensures forall x | x in ListKeyword(n, k) :: Every(x, p)
    ensures Keyword(n', k) == MapOption(Keyword(n, k), m)
    ensures Keyword(n, k).Some? ==> Every(Keyword(n, k).value, p)
  {
    PlainSame(n, n', m, k);
    assert CoveredAt(n, k, p);
    match Keyword(n, k)
    case Some(v) =>
      assert Every(v, p);
      if v.Arr? { assert forall x | x in v.items :: Every(x, p); }
    case None =>
  }

  ghost predicate Mapped(n: Json, n': Json, m: string -> string, p: string -> bool, k: string) {
    && Keyword(n', k) == MapOption(Keyword(n, k), m)
    && (Keyword(n, k).Some? ==> Every(Keyword(n, k).value, p))
  }

  lemma ItemSchemaMapped(n: Json, n': Json, m: string -> string, p: string -> bool, i: nat)
    requires Mapped(n, n', m, p, "prefixItems") && Mapped(n, n', m, p, "items")
      && Mapped(n, n', m, p, "additionalItems")
    ensures ItemSchema(n', i) == MapOption(ItemSchema(n, i), m)
    ensures ItemSchema(n, i).Some? ==> Every(ItemSchema(n, i).value, p)
  {}

  lemma ItemSchemaSame(n: Json, n': Json, m: string -> string, p: string -> bool, i: nat)
    requires Mirrors(n, n', m) && Covered(n, p)
    ensures ItemSchema(n', i) == MapOption(ItemSchema(n, i), m)
    ensures ItemSchema(n, i).Some? ==> Every(ItemSchema(n, i).value, p)
  {
    ListSame(n, n', m, p, "prefixItems");
    ListSame(n, n', m, p, "items");
    ListSame(n, n', m, p, "additionalItems");
    ItemSchemaMapped(n, n', m, p, i);
  }

  lemma MapSame(n: Json, n': Json, m: string -> string, p: string -> bool, k: string)
    requires Mirrors(n, n', m) && Covered(n, p) && (k == "properties" || k == "patternProperties")
    ensures MapKeyword(n', k) == RewriteEntries(MapKeyword(n, k), m)
    ensures forall f | f in MapKeyword(n, k) :: Every(f.value, p)
  {
    assert MirrorsAt(n, n', k, m) && CoveredAt(n, k, p) && SchemaMap(k) && !DataKeyword(k);
    match Keyword(n, k)
    case Some(v) =>
      assert EveryField(Field(k, v), p);
      if v.Obj? { assert RewriteValue(k, v, m) == Obj(RewriteEntries(v.fields, m)); }
      else { assert RewriteValue(k, v, m) == Rewrite(v, m); }
    case None =>
  }

  lemma {:induction false} MatchingSame(patterns: seq<Field>, key: string, m: string -> string, p: string -> bool,
      rules: Rules)
    requires forall f | f in patterns :: Every(f.value, p)
    ensures Matching(RewriteEntries(patterns, m), key, rules) == RewriteAll(Matching(patterns, key, rules), m)
    ensures forall x | x in Matching(patterns, key, rules) :: Every(x, p)
  {
    if patterns != [] {
      MatchingSame(patterns[1..], key, m, p, rules);
      RewriteAllAppend([patterns[0].value], Matching(patterns[1..], key, rules), m);
    }
  }

  lemma RewriteAllAppend(xs: seq<Json>, ys: seq<Json>, m: string -> string)
    ensures RewriteAll(xs + ys, m) == RewriteAll(xs, m) + RewriteAll(ys, m)
  {}

  lemma NamedSame(n: Json, n': Json, m: string -> string, p: string -> bool, key: string)
    requires Mirrors(n, n', m) && Covered(n, p)
    ensures NamedSchemas(n', key) == RewriteAll(NamedSchemas(n, key), m)
    ensures forall x | x in NamedSchemas(n, key) :: Every(x, p)
  {
    MapSame(n, n', m, p, "properties");
    LookupEntries(MapKeyword(n, "properties"), key, m);
  }

  lemma AdditionalSame(n: Json, n': Json, m: string -> string, p: string -> bool)
    requires Mirrors(n, n', m) && Covered(n, p)
    ensures AdditionalSchemas(n') == RewriteAll(AdditionalSchemas(n), m)
    ensures forall x | x in AdditionalSchemas(n) :: Every(x, p)
  {
    ListSame(n, n', m, p, "additionalProperties");
  }

  lemma PropertySchemasSame(n: Json, n': Json, m: string -> string, p: string -> bool, key: string, rules: Rules)
    requires Mirrors(n, n', m) && Covered(n, p)
    ensures PropertySchemas(n', key, rules) == RewriteAll(PropertySchemas(n, key, rules), m)
    ensures forall x | x in PropertySchemas(n, key, rules) :: Every(x, p)
  {
    NamedSame(n, n', m, p, key);
    AdditionalSame(n, n', m, p);
    MapSame(n, n', m, p, "patternProperties");
    MatchingSame(MapKeyword(n, "patternProperties"), key, m, p, rules);
    RewriteAllAppend(NamedSchemas(n, key), Matching(MapKeyword(n, "patternProperties"), key, rules), m);
  }

  /* ------------------------------------------------------- evaluation runs in step */

  /** Two schemas and the documents their references are resolved in. */
  datatype Pair = Pair(root: Json, root': Json, n: Json, n': Json, rules: Rules) {
    ghost predicate Agree(v: Json, d: nat, c: nat, f: nat) {
      Conforms(root', v, n', d, c, f, rules) == Conforms(root, v, n, d, c, f, rules)
    }

    ghost predicate RefsAgree(v: Json, d: nat, c: nat, f: nat)
      requires d > 0
    {
      RefOk(root', v, n', d, c, f, rules) == RefOk(root, v, n, d, c, f, rules)
    }

    ghost predicate BodiesAgree(v: Json, d: nat, c: nat, f: nat)
      requires d > 0
    {
      BodyOk(root', v, n', d, c, f, rules) == BodyOk(root, v, n, d, c, f, rules)
    }

    ghost predicate ItemsAgree(items: seq<Json>, i: nat, d: nat, f: nat)
      requires i <= |items|
    {
      ItemsOk(root', items, n', i, d, f, rules) == ItemsOk(root, items, n, i, d, f, rules)
    }

    ghost predicate FieldsAgree(fs: seq<Field>, d: nat, f: nat) {
      FieldsOk(root', fs, n', d, f, rules) == FieldsOk(root, fs, n, d, f, rules)
    }

    ghost predicate PartsAgree(v: Json, d: nat, f: nat) {
      && (v.Arr? ==> ItemsAgree(v.items, 0, d, f))
      && (v.Obj? ==> FieldsAgree(v.fields, d, f))
    }

    ghost predicate CombinatorsAgree(v: Json, d: nat, c: nat, f: nat) {
      CombinatorsOk(root', v, n', d, c, f, rules) == CombinatorsOk(root, v, n, d, c, f, rules)
    }
  }

  lemma AgreeFromParts(p: Pair, v: Json, m: string -> string, d: nat, c: nat, f: nat)
    requires Mirrors(p.n, p.n', m)
    requires d > 0 ==> p.RefsAgree(v, d, c, f) && p.BodiesAgree(v, d, c, f)
    ensures p.Agree(v, d, c, f)
  {
    PlainSame(p.n, p.n', m, "nullable");
  }

  lemma RefsFromTarget(p: Pair, v: Json, t: Pair, ref: string, ref': string, d: nat, c: nat, f: nat)
    requires d > 0 && Keyword(p.n, "$ref") == Some(Str(ref)) && Keyword(p.n', "$ref") == Some(Str(ref'))
    requires t.root == p.root && t.root' == p.root' && t.rules == p.rules
    requires Resolve(p.root, ref, p.rules) == Some(t.n) && Resolve(p.root', ref', p.rules) == Some(t.n')
    requires c > 0 ==> t.Agree(v, d, c - 1, f)
    ensures p.RefsAgree(v, d, c, f)
  {}

  lemma RefsToNothing(p: Pair, v: Json, ref: string, ref': string, d: nat, c: nat, f: nat)
    requires d > 0 && Keyword(p.n, "$ref") == Some(Str(ref)) && Keyword(p.n', "$ref") == Some(Str(ref'))
    requires Resolve(p.root, ref, p.rules).None? && Resolve(p.root', ref', p.rules).None?
    ensures p.RefsAgree(v, d, c, f)
  {}

  lemma NoRefs(p: Pair, v: Json, m: string -> string, d: nat, c: nat, f: nat)
    requires d > 0 && Mirrors(p.n, p.n', m) && StrKeyword(p.n, "$ref").None?
    ensures p.RefsAgree(v, d, c, f)
  {
    assert MirrorsAt(p.n, p.n', "$ref", m);
    match Keyword(p.n, "$ref")
    case Some(x) =>
      assert RewriteValue("$ref", x, m) in [x, Rewrite(x, m), RewriteAt(Map, x, m)];
      assert StrKeyword(p.n', "$ref").None?;
    case None =>
  }

  lemma BodiesFromParts(p: Pair, v: Json, m: string -> string, d: nat, c: nat, f: nat)
    requires d > 0 && Mirrors(p.n, p.n', m)
    requires p.PartsAgree(v, d - 1, f) && p.CombinatorsAgree(v, d, c, f)
    ensures p.BodiesAgree(v, d, c, f)
  {
    FlatSame(v, p.n, p.n', m, p.rules);
  }

  ghost function WrapPair(schema: Json, key: string, n: Json, n': Json, rules: Rules): Pair
    requires schema.Obj?
  {
    Pair(schema, Wrap(schema, key), n, n', rules)
  }

  lemma {:induction false} Same(schema: Json, key: string, rules: Rules, p: string -> bool, v: Json, n: Json, n': Json,
      d: nat, c: nat, f: nat)
    requires Closed(schema, key, rules, p)
    requires Mirrors(n, n', Mover(key)) && Covered(n, p)
    ensures WrapPair(schema, key, n, n', rules).Agree(v, d, c, f)
    decreases d, c, 1, n, 3
  {
    if d > 0 {
      SameRef(schema, key, rules, p, v, n, n', d, c, f);
      SameBody(schema, key, rules, p, v, n, n', d, c, f);
    }
    AgreeFromParts(WrapPair(schema, key, n, n', rules), v, Mover(key), d, c, f);
  }

  lemma {:induction false} SameRef(schema: Json, key: string, rules: Rules, p: string -> bool, v: Json, n: Json,
      n': Json, d: nat, c: nat, f: nat)
    requires Closed(schema, key, rules, p) && d > 0
    requires Mirrors(n, n', Mover(key)) && Covered(n, p)
    ensures WrapPair(schema, key, n, n', rules).RefsAgree(v, d, c, f)
    decreases d, c, 1, n, 0
  {
    var pair := WrapPair(schema, key, n, n', rules);
    assert MirrorsAt(n, n', "$ref", Mover(key)) && CoveredAt(n, "$ref", p);
    match Keyword(n, "$ref")
    case Some(Str(ref)) =>
      assert EveryField(Field("$ref", Str(ref)), p) && Follows(schema, key, ref, rules, p);
      if Named(schema, ref, rules).Some? {
        SameTarget(schema, key, rules, p, v, ref, d, c, f);
        RefsFromTarget(pair, v, TargetPair(schema, key, ref, rules), ref, MoveRef(ref, key), d, c, f);
      } else {
        RefsToNothing(pair, v, ref, MoveRef(ref, key), d, c, f);
      }
    case _ => NoRefs(pair, v, Mover(key), d, c, f);
  }

  ghost function TargetPair(schema: Json, key: string, ref: string, rules: Rules): Pair
    requires schema.Obj? && Named(schema, ref, rules).Some?
  {
    WrapPair(schema, key, Resolve(schema, ref, rules).value,
      Rewrite(Named(schema, ref, rules).value, Mover(key)), rules)
  }

  lemma {:induction false} SameTarget(schema: Json, key: string, rules: Rules, p: string -> bool, v: Json, ref: string,
      d: nat, c: nat, f: nat)
    requires Closed(schema, key, rules, p) && p(ref) && Named(schema, ref, rules).Some?
    ensures c > 0 ==> TargetPair(schema, key, ref, rules).Agree(v, d, c - 1, f)
    decreases d, c, 0
  {
    var t := Resolve(schema, ref, rules).value;
    assert Follows(schema, key, ref, rules, p);
    if ref == "#" {
      RootMirrors(schema, Mover(key), p);
    } else {
      RewritingMirrors(t, Mover(key), p);
    }
    if c > 0 {
      Same(schema, key, rules, p, v, t, Rewrite(Named(schema, ref, rules).value, Mover(key)), d, c - 1, f);
    }
  }

  lemma {:induction false} SameBody(schema: Json, key: string, rules: Rules, p: string -> bool, v: Json, n: Json,
      n': Json, d: nat, c: nat, f: nat)
    requires Closed(schema, key, rules, p) && d > 0
    requires Mirrors(n, n', Mover(key)) && Covered(n, p)
    ensures WrapPair(schema, key, n, n', rules).BodiesAgree(v, d, c, f)
    decreases d, c, 1, n, 2
  {
    SameParts(schema, key, rules, p, v, n, n', d, c, f);
    SameCombinators(schema, key, rules, p, v, n, n', d, c, f);
    BodiesFromParts(WrapPair(schema, key, n, n', rules), v, Mover(key), d, c, f);
  }

  /** The items or the properties of a value, one level further down. */
  lemma {:induction false} SameParts(schema: Json, key: string, rules: Rules, p: string -> bool, v: Json, n: Json,
      n': Json, d: nat, c: nat, f: nat)
    requires Closed(schema, key, rules, p) && d > 0
    requires Mirrors(n, n', Mover(key)) && Covered(n, p)
    ensures WrapPair(schema, key, n, n', rules).PartsAgree(v, d - 1, f)
    decreases d, c, 1, n, 1
  {
    match v
    case Arr(items) => SameArray(schema, key, rules, p, items, n, n', d, c, f);
    case Obj(fs) => SameObject(schema, key, rules, p, fs, n, n', d, c, f);
    case _ =>
  }

  lemma {:induction false} SameArray(schema: Json, key: string, rules: Rules, p: string -> bool, items: seq<Json>,
      n: Json, n': Json, d: nat, c: nat, f: nat)
    requires Closed(schema, key, rules, p) && d > 0
    requires Mirrors(n, n', Mover(key)) && Covered(n, p)
    ensures WrapPair(schema, key, n, n', rules).ItemsAgree(items, 0, d - 1, f)
    decreases d, c, 1, n, 0
  {
    forall e: nat | e == d - 1 ensures WrapPair(schema, key, n, n', rules).ItemsAgree(items, 0, e, f) {
      SameItems(schema, key, rules, p, items, n, n', 0, e, f);
    }
  }

  lemma {:induction false} SameObject(schema: Json, key: string, rules: Rules, p: string -> bool, fs: seq<Field>,
      n: Json, n': Json, d: nat, c: nat, f: nat)
    requires Closed(schema, key, rules, p) && d > 0
    requires Mirrors(n, n', Mover(key)) && Covered(n, p)
    ensures WrapPair(schema, key, n, n', rules).FieldsAgree(fs, d - 1, f)
    decreases d, c, 1, n, 0
  {
    forall e: nat | e == d - 1 ensures WrapPair(schema, key, n, n', rules).FieldsAgree(fs, e, f) {
      SameFields(schema, key, rules, p, fs, n, n', e, f);
    }
  }

  lemma {:induction false} SameSub(schema: Json, key: string, rules: Rules, p: string -> bool, v: Json, sub: Json,
      d: nat, c: nat, f: nat)
    requires Closed(schema, key, rules, p) && Every(sub, p)
    ensures WrapPair(schema, key, sub, Rewrite(sub, Mover(key)), rules).Agree(v, d, c, f)
    decreases d, c, 1, sub, 4
  {
    RewritingMirrors(sub, Mover(key), p);
    Same(schema, key, rules, p, v, sub, Rewrite(sub, Mover(key)), d, c, f);
  }

  lemma {:induction false} SameItems(schema: Json, key: string, rules: Rules, p: string -> bool, items: seq<Json>,
      n: Json, n': Json, i: nat, d: nat, f: nat)
    requires Closed(schema, key, rules, p) && i <= |items|
    requires Mirrors(n, n', Mover(key)) && Covered(n, p)
    ensures WrapPair(schema, key, n, n', rules).ItemsAgree(items, i, d, f)
    decreases d, f + 1, 0, |items| - i
  {
    if i < |items| {
      var next := i + 1;
      ItemSchemaSame(n, n', Mover(key), p, i);
      if ItemSchema(n, i).Some? { SameSub(schema, key, rules, p, items[i], ItemSchema(n, i).value, d, f, f); }
      SameItems(schema, key, rules, p, items, n, n', next, d, f);
      ItemsStep(schema, items, n, i, next, d, f, rules);
      ItemsStep(Wrap(schema, key), items, n', i, next, d, f, rules);
    }
  }

  lemma ItemsStep(root: Json, items: seq<Json>, n: Json, i: nat, next: nat, d: nat, f: nat, rules: Rules)
    requires i < |items| && next == i + 1
    ensures ItemsOk(root, items, n, i, d, f, rules) <==>
      (ItemSchema(n, i).Some? ==> Conforms(root, items[i], ItemSchema(n, i).value, d, f, f, rules))
      && ItemsOk(root, items, n, next, d, f, rules)
  {}

  lemma {:induction false} SameFields(schema: Json, key: string, rules: Rules, p: string -> bool, fs: seq<Field>,
      n: Json, n': Json, d: nat, f: nat)
    requires Closed(schema, key, rules, p)
    requires Mirrors(n, n', Mover(key)) && Covered(n, p)
    ensures WrapPair(schema, key, n, n', rules).FieldsAgree(fs, d, f)
    decreases d, f + 2, 0, |fs|
  {
    if fs != [] {
      PropertySchemasSame(n, n', Mover(key), p, fs[0].key, rules);
      SameAll(schema, key, rules, p, fs[0].value, PropertySchemas(n, fs[0].key, rules), d, f);
      SameFields(schema, key, rules, p, fs[1..], n, n', d, f);
    }
  }

  lemma {:induction false} SameAll(schema: Json, key: string, rules: Rules, p: string -> bool, v: Json, subs: seq<Json>,
      d: nat, f: nat)
    requires Closed(schema, key, rules, p) && forall x | x in subs :: Every(x, p)
    ensures AllOk(Wrap(schema, key), v, RewriteAll(subs, Mover(key)), d, f, rules)
      == AllOk(schema, v, subs, d, f, rules)
    decreases d, f + 1, 0, |subs|
  {
    if subs != [] {
      SameSub(schema, key, rules, p, v, subs[0], d, f, f);
      SameAll(schema, key, rules, p, v, subs[1..], d, f);
      assert RewriteAll(subs, Mover(key))[1..] == RewriteAll(subs[1..], Mover(key));
    }
  }

  /** Branch by branch, the listed schemas give the same verdicts. */
  lemma {:induction false} SameVerdicts(schema: Json, key: string, rules: Rules, p: string -> bool, v: Json,
      subs: seq<Json>, n: Json, d: nat, c: nat, f: nat)
    requires Closed(schema, key, rules, p) && forall x | x in subs :: x < n && Every(x, p)
    ensures Verdicts(Wrap(schema, key), v, RewriteAll(subs, Mover(key)), d, c, f, rules)
      == Verdicts(schema, v, subs, d, c, f, rules)
    decreases d, c, 1, n, 0, 0
  {
    forall i | 0 <= i < |subs|
      ensures Conforms(Wrap(schema, key), v, Rewrite(subs[i], Mover(key)), d, c, f, rules)
        == Conforms(schema, v, subs[i], d, c, f, rules)
    {
      assert subs[i] in subs;
      SameSub(schema, key, rules, p, v, subs[i], d, c, f);
    }
  }

  lemma {:induction false} SameCombinators(schema: Json, key: string, rules: Rules, p: string -> bool, v: Json, n: Json,
      n': Json, d: nat, c: nat, f: nat)
    requires Closed(schema, key, rules, p)
    requires Mirrors(n, n', Mover(key)) && Covered(n, p)
    ensures WrapPair(schema, key, n, n', rules).CombinatorsAgree(v, d, c, f)
    decreases d, c, 1, n, 1
  {
    SameAllOf(schema, key, rules, p, v, n, n', d, c, f);
    SameAnyOf(schema, key, rules, p, v, n, n', d, c, f);
    SameOneOf(schema, key, rules, p, v, n, n', d, c, f);
    SameNot(schema, key, rules, p, v, n, n', d, c, f);
  }

  lemma {:induction false} SameAllOf(schema: Json, key: string, rules: Rules, p: string -> bool, v: Json, n: Json,
      n': Json, d: nat, c: nat, f: nat)
    requires Closed(schema, key, rules, p)
    requires Mirrors(n, n', Mover(key)) && Covered(n, p)
    ensures AllOfOk(Wrap(schema, key), v, n', d, c, f, rules) == AllOfOk(schema, v, n, d, c, f, rules)
    decreases d, c, 1, n, 0, 1
  {
    ListSame(n, n', Mover(key), p, "allOf");
    SameVerdicts(schema, key, rules, p, v, ListKeyword(n, "allOf"), n, d, c, f);
    AllOfVerdicts(schema, v, n, d, c, f, rules);
    AllOfVerdicts(Wrap(schema, key), v, n', d, c, f, rules);
  }

  lemma {:induction false} SameAnyOf(schema: Json, key: string, rules: Rules, p: string -> bool, v: Json, n: Json,
      n': Json, d: nat, c: nat, f: nat)
    requires Closed(schema, key, rules, p)
    requires Mirrors(n, n', Mover(key)) && Covered(n, p)
    ensures AnyOfOk(Wrap(schema, key), v, n', d, c, f, rules) == AnyOfOk(schema, v, n, d, c, f, rules)
    decreases d, c, 1, n, 0, 1
  {
    ListSame(n, n', Mover(key), p, "anyOf");
    SameVerdicts(schema, key, rules, p, v, ListKeyword(n, "anyOf"), n, d, c, f);
    AnyOfVerdicts(schema, v, ListKeyword(n, "anyOf"), d, c, f, rules);
    AnyOfVerdicts(Wrap(schema, key), v, ListKeyword(n', "anyOf"), d, c, f, rules);
  }

  lemma {:induction false} SameOneOf(schema: Json, key: string, rules: Rules, p: string -> bool, v: Json, n: Json,
      n': Json, d: nat, c: nat, f: nat)
    requires Closed(schema, key, rules, p)
    requires Mirrors(n, n', Mover(key)) && Covered(n, p)
    ensures OneOfOk(Wrap(schema, key), v, n', d, c, f, rules) == OneOfOk(schema, v, n, d, c, f, rules)
    decreases d, c, 1, n, 0, 1
  {
    ListSame(n, n', Mover(key), p, "oneOf");
    SameVerdicts(schema, key, rules, p, v, ListKeyword(n, "oneOf"), n, d, c, f);
  }

  lemma {:induction false} SameNot(schema: Json, key: string, rules: Rules, p: string -> bool, v: Json, n: Json,
      n': Json, d: nat, c: nat, f: nat)
    requires Closed(schema, key, rules, p)
    requires Mirrors(n, n', Mover(key)) && Covered(n, p)
    ensures NotOk(Wrap(schema, key), v, n', d, c, f, rules) == NotOk(schema, v, n, d, c, f, rules)
    decreases d, c, 1, n, 0, 1
  {
    ListSame(n, n', Mover(key), p, "not");
    if Keyword(n, "not").Some? { SameSub(schema, key, rules, p, v, Keyword(n, "not").value, d, c, f); }
  }

  /** `allOf` and `anyOf`, read off the verdicts of their branches. */
  lemma AllOfVerdicts(root: Json, v: Json, n: Json, d: nat, c: nat, f: nat, rules: Rules)
    ensures AllOfOk(root, v, n, d, c, f, rules) <==>
      AllTrue(Verdicts(root, v, ListKeyword(n, "allOf"), d, c, f, rules))
  {
    var all := ListKeyword(n, "allOf");
    var verdicts := Verdicts(root, v, all, d, c, f, rules);
    if AllTrue(verdicts) {
      forall sub | sub in all ensures Conforms(root, v, sub, d, c, f, rules) {
        var i :| 0 <= i < |all| && all[i] == sub;
        assert verdicts[i];
      }
    } else {
      var i :| 0 <= i < |verdicts| && !verdicts[i];
      assert all[i] in all && !Conforms(root, v, all[i], d, c, f, rules);
    }
  }

  predicate AllTrue(bs: seq<bool>) { forall i :: 0 <= i < |bs| ==> bs[i] }

  lemma AnyOfVerdicts(root: Json, v: Json, subs: seq<Json>, d: nat, c: nat, f: nat, rules: Rules)
    ensures (exists sub | sub in subs :: Conforms(root, v, sub, d, c, f, rules))
      <==> true in Verdicts(root, v, subs, d, c, f, rules)
  {
    var verdicts := Verdicts(root, v, subs, d, c, f, rules);
    if true in verdicts {
      var i :| 0 <= i < |verdicts| && verdicts[i] == true;
      assert subs[i] in subs && Conforms(root, v, subs[i], d, c, f, rules);
    } else {
      forall sub | sub in subs ensures !Conforms(root, v, sub, d, c, f, rules) {
        var i :| 0 <= i < |subs| && subs[i] == sub;
        assert verdicts[i] in verdicts;
      }
    }
  }
}

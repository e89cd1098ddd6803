/**
 What it means for a value to conform to a JSON Schema, as
 packages/core/src/utils/json-schema.validator.ts decides it: a boolean function with two
 fuels, one for the nesting of the value and one for references followed without moving into it.
 */
module SchemaConformance {
  import opened Base
  import opened JsonText
  import opened Canonical

  const MAX_REF_CHAIN: nat := 32
  const MAX_VALUE_DEPTH: nat := 256

  /**
   What belongs to the host: regular expressions (None for an invalid pattern), percent decoding,
   and the floating-point test for a whole multiple, within a billionth.
   */
  datatype Rules = Rules(
    regex: string -> Option<string -> bool>,
    decode: string -> Option<string>,
    multiple: (real, real) -> bool)

  /* ------------------------------------------------------------ schema access */

  function Keyword(node: Json, k: string): (r: Option<Json>)
    ensures r.Some? ==> r.value < node
  {
    if node.Obj? then Lookup(node.fields, k) else None
  }

  function NumKeyword(node: Json, k: string): Option<real> {
    match Keyword(node, k) case Some(Num(n)) => Some(n) case _ => None
  }

  function StrKeyword(node: Json, k: string): Option<string> {
    match Keyword(node, k) case Some(Str(s)) => Some(s) case _ => None
  }

  /** The schemas listed under a keyword; none when it is absent or not an array. */
  function ListKeyword(node: Json, k: string): (r: seq<Json>)
    ensures forall x | x in r :: x < node
  {
    match Keyword(node, k) case Some(Arr(items)) => items case _ => []
  }

  /** The named schemas under a keyword; none when it is absent or not an object. */
  function MapKeyword(node: Json, k: string): (r: seq<Field>)
    ensures forall f | f in r :: f.value < node
  {
    match Keyword(node, k) case Some(Obj(fs)) => fs case _ => []
  }

  /* --------------------------------------------------------------- references */

  /** Splits at every slash. */
  function Split(t: string): (r: seq<string>)
    ensures r != []
  {
    if t == "" then [""]
    else if t[0] == '/' then [""] + Split(t[1..])
    else
      var rest := Split(t[1..]);
      [[t[0]] + rest[0]] + rest[1..]
  }

  function ReplaceTilde(t: string, code: char, plain: char): string {
    if |t| >= 2 && t[0] == '~' && t[1] == code then [plain] + ReplaceTilde(t[2..], code, plain)
    else if t == "" then ""
    else [t[0]] + ReplaceTilde(t[1..], code, plain)
  }

  /** One reference token, percent-decoded and then unescaped (RFC 6901, section 4). */
  function Segment(raw: string, rules: Rules): Option<string> {
    match rules.decode(raw)
    case None => None
    case Some(t) => Some(ReplaceTilde(ReplaceTilde(t, '1', '/'), '0', '~'))
  }

  function Segments(raws: seq<string>, rules: Rules): (r: Option<seq<string>>)
    ensures r.Some? ==> |r.value| == |raws|
  {
    if raws == [] then Some([])
    else
      match (Segment(raws[0], rules), Segments(raws[1..], rules))
      case (Some(s), Some(rest)) => Some([s] + rest)
      case _ => None
  }

  predicate Digits(t: string) { forall i :: 0 <= i < |t| ==> '0' <= t[i] <= '9' }

  /** The array index a token names, in the one spelling that names it. */
  function IndexOf(t: string): Option<nat> {
    if t == "" || !Digits(t) || (|t| > 1 && t[0] == '0') then None else Some(Decimal(t))
  }

  function Decimal(t: string): nat
    requires Digits(t)
  {
    if t == "" then 0 else Decimal(t[..|t| - 1]) * 10 + (t[|t| - 1] as int - '0' as int)
  }

  function Child(node: Json, key: string): Option<Json> {
    match node
    case Obj(fs) => Lookup(fs, key)
    case Arr(items) =>
      (match IndexOf(key) case Some(i) => if i < |items| then Some(items[i]) else None case None => None)
    case _ => None
  }

  function Descend(node: Json, path: seq<string>): Option<Json> {
    if path == [] then Some(node)
    else match Child(node, path[0]) case None => None case Some(c) => Descend(c, path[1..])
  }

  /** The path a local reference names; None when it is not local. */
  function RefPath(ref: string, rules: Rules): Option<seq<string>> {
    if ref == "#" then Some([])
    else if |ref| >= 2 && ref[..2] == "#/" then Segments(Split(ref[2..]), rules)
    else None
  }

  /** `resolveRef`: the schema a local reference names within `root`. */
  function Resolve(root: Json, ref: string, rules: Rules): Option<Json> {
    match RefPath(ref, rules)
    case None => None
    case Some(path) =>
      match Descend(root, path)
      case Some(t) => if t.Bool? || t.Arr? || t.Obj? then Some(t) else None
      case None => None
  }

  /* ----------------------------------------------------- keywords about one value */

  function TypeOf(v: Json): string {
    match v
    case Null => "null"
    case Arr(_) => "array"
    case Num(n) => if n == n.Floor as real then "integer" else "number"
    case Bool(_) => "boolean"
    case Str(_) => "string"
    case Obj(_) => "object"
  }

  predicate MatchesType(v: Json, t: Json) {
    t.Str? && (TypeOf(v) == t.s || (t.s == "number" && TypeOf(v) == "integer"))
  }

  predicate TypeOk(v: Json, node: Json) {
    match Keyword(node, "type")
    case None => true
    case Some(Arr(ts)) => exists t | t in ts :: MatchesType(v, t)
    case Some(t) => MatchesType(v, t)
  }

  predicate EnumOk(v: Json, node: Json) {
    match Keyword(node, "enum")
    case Some(Arr(options)) => exists o | o in options :: DeepEqual(o, v)
    case _ => true
  }

  predicate ConstOk(v: Json, node: Json) {
    match Keyword(node, "const") case Some(c) => DeepEqual(c, v) case None => true
  }

  predicate AtLeast(n: int, bound: Option<real>) { bound.Some? ==> n as real >= bound.value }
  predicate AtMost(n: int, bound: Option<real>) { bound.Some? ==> n as real <= bound.value }

  predicate PatternOk(s: string, node: Json, rules: Rules) {
    match StrKeyword(node, "pattern")
    case None => true
    case Some(p) => match rules.regex(p) case None => true case Some(test) => test(s)
  }

  predicate StringOk(s: string, node: Json, rules: Rules) {
    && AtLeast(|s|, NumKeyword(node, "minLength"))
    && AtMost(|s|, NumKeyword(node, "maxLength"))
    && PatternOk(s, node, rules)
  }

  predicate MultipleOk(x: real, node: Json, rules: Rules) {
    match NumKeyword(node, "multipleOf") case Some(m) => m > 0.0 ==> rules.multiple(x, m) case None => true
  }

  predicate InclusiveOk(x: real, node: Json) {
    && (NumKeyword(node, "minimum").Some? ==> x >= NumKeyword(node, "minimum").value)
    && (NumKeyword(node, "maximum").Some? ==> x <= NumKeyword(node, "maximum").value)
  }

  predicate ExclusiveOk(x: real, node: Json) {
    && (NumKeyword(node, "exclusiveMinimum").Some? ==> x > NumKeyword(node, "exclusiveMinimum").value)
    && (NumKeyword(node, "exclusiveMaximum").Some? ==> x < NumKeyword(node, "exclusiveMaximum").value)
  }

  predicate NumberOk(x: real, node: Json, rules: Rules) {
    InclusiveOk(x, node) && ExclusiveOk(x, node) && MultipleOk(x, node, rules)
  }

  predicate Unique(items: seq<Json>) {
    forall i, j :: 0 <= j < i < |items| ==> !DeepEqual(items[i], items[j])
  }

  predicate LengthOk(items: seq<Json>, node: Json) {
    && AtLeast(|items|, NumKeyword(node, "minItems"))
    && AtMost(|items|, NumKeyword(node, "maxItems"))
    && (Keyword(node, "uniqueItems") == Some(Bool(true)) ==> Unique(items))
  }

  predicate RequiredOk(fs: seq<Field>, keys: seq<Json>) {
    forall k | k in keys :: k.Str? ==> Lookup(fs, k.s).Some?
  }

  predicate ShapeOk(fs: seq<Field>, node: Json) {
    && RequiredOk(fs, ListKeyword(node, "required"))
    && AtLeast(|fs|, NumKeyword(node, "minProperties"))
    && AtMost(|fs|, NumKeyword(node, "maxProperties"))
  }

  /** Every keyword that looks at the value without going into it. */
  predicate FlatOk(v: Json, node: Json, rules: Rules) {
    && TypeOk(v, node)
    && EnumOk(v, node)
    && ConstOk(v, node)
    && (v.Str? ==> StringOk(v.s, node, rules))
    && (v.Num? ==> NumberOk(v.n, node, rules))
    && (v.Arr? ==> LengthOk(v.items, node))
    && (v.Obj? ==> ShapeOk(v.fields, node))
  }

  /* ---------------------------------------------------- keywords that go into a value */

  /** The schema of the i-th item: 2020-12 `prefixItems`, a draft-07 tuple, or `items`. */
  function ItemSchema(node: Json, i: nat): Option<Json> {
    match (Keyword(node, "prefixItems"), Keyword(node, "items"))
    case (Some(Arr(tuple)), rest) => if i < |tuple| then Some(tuple[i]) else rest
    case (_, Some(Arr(tuple))) =>
      if i < |tuple| then Some(tuple[i]) else Keyword(node, "additionalItems")
    case (_, rest) => rest
  }

  /** The compiled pattern properties whose pattern matches `key`. */
  function Matching(patterns: seq<Field>, key: string, rules: Rules): seq<Json> {
    if patterns == [] then []
    else
      var rest := Matching(patterns[1..], key, rules);
      match rules.regex(patterns[0].key)
      case Some(test) => if test(key) then [patterns[0].value] + rest else rest
      case None => rest
  }

  function NamedSchemas(node: Json, key: string): seq<Json> {
    match Lookup(MapKeyword(node, "properties"), key) case Some(s) => [s] case None => []
  }

  /** `[false]` is `additionalProperties: false`. */
  function AdditionalSchemas(node: Json): seq<Json> {
    match Keyword(node, "additionalProperties")
    case Some(Bool(b)) => if b then [] else [Bool(false)]
    case Some(Arr(x)) => [Arr(x)]
    case Some(Obj(x)) => [Obj(x)]
    case _ => []
  }

  /** The schemas a property has to satisfy. */
  function PropertySchemas(node: Json, key: string, rules: Rules): seq<Json> {
    var known := NamedSchemas(node, key) + Matching(MapKeyword(node, "patternProperties"), key, rules);
    if known != [] then known else AdditionalSchemas(node)
  }

  function CountTrue(bs: seq<bool>): nat {
    if bs == [] then 0 else (if bs[0] then 1 else 0) + CountTrue(bs[1..])
  }

  /* -------------------------------------------------------------- conformance */

  /**
   Conformance with `depth` levels of nesting and `chain` references left; `refs` is the
   reference allowance every step into the value starts with.
   */
  predicate Conforms(root: Json, v: Json, node: Json, depth: nat, chain: nat, refs: nat, rules: Rules)
    decreases depth, chain, node, 3
  {
    if depth == 0 then false
    else if node.Bool? then node.b
    else
      && RefOk(root, v, node, depth, chain, refs, rules)
      && ((v.Null? && Keyword(node, "nullable") == Some(Bool(true)))
          || BodyOk(root, v, node, depth, chain, refs, rules))
  }

  predicate RefOk(root: Json, v: Json, node: Json, depth: nat, chain: nat, refs: nat, rules: Rules)
    requires depth > 0
    decreases depth, chain, node, 0
  {
    match StrKeyword(node, "$ref")
    case None => true
    case Some(ref) =>
      match Resolve(root, ref, rules)
      case None => false
      case Some(target) => chain > 0 && Conforms(root, v, target, depth, chain - 1, refs, rules)
  }

  predicate BodyOk(root: Json, v: Json, node: Json, depth: nat, chain: nat, refs: nat, rules: Rules)
    requires depth > 0
    decreases depth, chain, node, 2
  {
    && FlatOk(v, node, rules)
    && (v.Arr? ==> ItemsOk(root, v.items, node, 0, depth - 1, refs, rules))
    && (v.Obj? ==> FieldsOk(root, v.fields, node, depth - 1, refs, rules))
    && CombinatorsOk(root, v, node, depth, chain, refs, rules)
  }

  predicate ItemsOk(root: Json, items: seq<Json>, node: Json, i: nat, depth: nat, refs: nat, rules: Rules)
    requires i <= |items|
    decreases depth, refs + 1, 0, |items| - i
  {
    i == |items| ||
    (&& (ItemSchema(node, i).Some? ==>
           Conforms(root, items[i], ItemSchema(node, i).value, depth, refs, refs, rules))
     && ItemsOk(root, items, node, i + 1, depth, refs, rules))
  }

  predicate FieldsOk(root: Json, fs: seq<Field>, node: Json, depth: nat, refs: nat, rules: Rules)
    decreases depth, refs + 1, 1, |fs|
  {
    fs == [] ||
    (&& AllOk(root, fs[0].value, PropertySchemas(node, fs[0].key, rules), depth, refs, rules)
     && FieldsOk(root, fs[1..], node, depth, refs, rules))
  }

  predicate AllOk(root: Json, v: Json, subs: seq<Json>, depth: nat, refs: nat, rules: Rules)
    decreases depth, refs + 1, 0, |subs|
  {
    subs == [] ||
    (&& Conforms(root, v, subs[0], depth, refs, refs, rules)
     && AllOk(root, v, subs[1..], depth, refs, rules))
  }

  /** The verdict of every listed schema on the same value. */
  function Verdicts(root: Json, v: Json, subs: seq<Json>, depth: nat, chain: nat, refs: nat,
      rules: Rules): (r: seq<bool>)
    ensures |r| == |subs|
    ensures forall i :: 0 <= i < |r| ==> r[i] == Conforms(root, v, subs[i], depth, chain, refs, rules)
    decreases depth, chain, subs, 0
  {
    if subs == [] then []
    else
      [Conforms(root, v, subs[0], depth, chain, refs, rules)]
      + Verdicts(root, v, subs[1..], depth, chain, refs, rules)
  }

  predicate AllOfOk(root: Json, v: Json, node: Json, depth: nat, chain: nat, refs: nat, rules: Rules)
    decreases depth, chain, node, 0
  {
    forall sub | sub in ListKeyword(node, "allOf") :: Conforms(root, v, sub, depth, chain, refs, rules)
  }

  predicate AnyOfOk(root: Json, v: Json, node: Json, depth: nat, chain: nat, refs: nat, rules: Rules)
    decreases depth, chain, node, 0
  {
    match Keyword(node, "anyOf")
    case Some(Arr(subs)) => exists sub | sub in subs :: Conforms(root, v, sub, depth, chain, refs, rules)
    case _ => true
  }

  predicate OneOfOk(root: Json, v: Json, node: Json, depth: nat, chain: nat, refs: nat, rules: Rules)
    decreases depth, chain, node, 0
  {
    match Keyword(node, "oneOf")
    case Some(Arr(subs)) => CountTrue(Verdicts(root, v, subs, depth, chain, refs, rules)) == 1
    case _ => true
  }

  predicate NotOk(root: Json, v: Json, node: Json, depth: nat, chain: nat, refs: nat, rules: Rules)
    decreases depth, chain, node, 0
  {
    match Keyword(node, "not")
    case Some(sub) => !Conforms(root, v, sub, depth, chain, refs, rules)
    case None => true
  }

  /** `allOf`, `anyOf`, `oneOf` and `not` (JSON Schema Core 2020-12, section 10.2.1). */
  predicate CombinatorsOk(root: Json, v: Json, node: Json, depth: nat, chain: nat, refs: nat, rules: Rules)
    decreases depth, chain, node, 1
  {
    && AllOfOk(root, v, node, depth, chain, refs, rules)
    && AnyOfOk(root, v, node, depth, chain, refs, rules)
    && OneOfOk(root, v, node, depth, chain, refs, rules)
    && NotOk(root, v, node, depth, chain, refs, rules)
  }

  /** The verdict of `validateJsonSchema` on a whole value. */
  predicate Valid(v: Json, schema: Json, rules: Rules) {
    Conforms(schema, v, schema, MAX_VALUE_DEPTH + 1, MAX_REF_CHAIN, MAX_REF_CHAIN, rules)
  }
}

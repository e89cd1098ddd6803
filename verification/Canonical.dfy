/**
 Canonical serialization (packages/core/src/audit/hash-chain-audit.sink.ts) and structural
 equality (packages/core/src/utils/json-schema.validator.ts).  The two belong to different
 files of the program; the theorem `SameTextIffEqual` says they draw the same distinctions.
 */
module Canonical {
  import opened Base
  import opened JsonText

  /* ------------------------------------------------------------- key ordering */

  /** Position of a character in the order JavaScript sorts strings by, UTF-16 code units. */
  function Rank(c: char): int {
    var u := c as int;
    if u < 0xD800 then u else if u >= 0x10000 then u - 0x10000 + 0xD800 else u + 0x100000
  }

  predicate Before(a: string, b: string) {
    b != "" && (a == "" || Rank(a[0]) < Rank(b[0]) || (a[0] == b[0] && Before(a[1..], b[1..])))
  }

  lemma {:induction false} BeforeTotal(a: string, b: string)
    ensures Before(a, b) || a == b || Before(b, a)
    ensures !(Before(a, b) && Before(b, a)) && !Before(a, a)
  {
    if a != "" && b != "" {
      BeforeTotal(a[1..], b[1..]);
      BeforeTotal(a[1..], a[1..]);
      assert a == [a[0]] + a[1..] && b == [b[0]] + b[1..];
    } else if a != "" {
      BeforeTotal(a[1..], a[1..]);
    }
  }

  lemma {:induction false} BeforeTransitive(a: string, b: string, c: string)
    requires Before(a, b) && Before(b, c)
    ensures Before(a, c)
  {
    if a != "" && a[0] == b[0] == c[0] {
      BeforeTransitive(a[1..], b[1..], c[1..]);
    }
  }

  ghost predicate Ascending(fs: seq<Field>) {
    forall i, j :: 0 <= i < j < |fs| ==> Before(fs[i].key, fs[j].key)
  }

  function Insert(f: Field, fs: seq<Field>): (r: seq<Field>)
    ensures |r| == |fs| + 1
    ensures forall g :: g in r <==> g == f || g in fs
  {
    if fs == [] || Before(f.key, fs[0].key) then [f] + fs else [fs[0]] + Insert(f, fs[1..])
  }

  function SortByKey(fs: seq<Field>): (r: seq<Field>)
    ensures |r| == |fs|
    ensures forall g :: g in r <==> g in fs
  {
    if fs == [] then [] else Insert(fs[0], SortByKey(fs[1..]))
  }

  lemma {:induction false} InsertAscending(f: Field, fs: seq<Field>)
    requires Ascending(fs) && forall g | g in fs :: g.key != f.key
    ensures Ascending(Insert(f, fs))
  {
    if fs != [] {
      BeforeTotal(f.key, fs[0].key);
      var r := Insert(f, fs);
      if Before(f.key, fs[0].key) {
        forall i, j | 0 <= i < j < |r| ensures Before(r[i].key, r[j].key) {
          if i == 0 && j > 1 { BeforeTransitive(f.key, fs[0].key, fs[j - 1].key); }
        }
      } else {
        InsertAscending(f, fs[1..]);
        forall i, j | 0 <= i < j < |r| ensures Before(r[i].key, r[j].key) {
          if i == 0 {
            assert r[j] in Insert(f, fs[1..]);
          }
        }
      }
    }
  }

  lemma {:induction false} SortAscending(fs: seq<Field>)
    requires DistinctKeys(fs)
    ensures Ascending(SortByKey(fs))
  {
    if fs != [] {
      SortAscending(fs[1..]);
      InsertAscending(fs[0], SortByKey(fs[1..]));
    }
  }

  lemma AscendingDistinct(fs: seq<Field>)
    requires Ascending(fs)
    ensures DistinctKeys(fs)
  {
    forall i, j | 0 <= i < j < |fs| ensures fs[i].key != fs[j].key {
      BeforeTotal(fs[i].key, fs[j].key);
      BeforeTotal(fs[i].key, fs[i].key);
    }
  }

  /* ------------------------------------------------------------ serialization */

  /** `canonicalize` on JSON values: like JSON.stringify, with the keys of every object sorted. */
  function Serialize(v: Json, nm: Numerals): string
    decreases v, 1, 0
  {
    match v
    case Arr(items) => ['['] + (SerializeItems(items, nm) + [']'])
    case Obj(fs) => ['{'] + (SerializeFields(SortByKey(fs), v, nm) + ['}'])
    case Str(s) => Quote(s)
    case _ => Print(v, nm)
  }

  function SerializeItems(items: seq<Json>, nm: Numerals): string
    decreases items, 0, 0
  {
    if items == [] then ""
    else if |items| == 1 then Serialize(items[0], nm)
    else Serialize(items[0], nm) + ([','] + SerializeItems(items[1..], nm))
  }

  function SerializeFields(fs: seq<Field>, whole: Json, nm: Numerals): string
    requires forall f | f in fs :: f.value < whole
    decreases whole, 0, |fs|
  {
    if fs == [] then ""
    else
      var first := Quote(fs[0].key) + ([':'] + Serialize(fs[0].value, nm));
      if |fs| == 1 then first else first + ([','] + SerializeFields(fs[1..], whole, nm))
  }

  /** The value with the keys of every object in sorted order. */
  ghost function Normal(v: Json): Json
    decreases v, 1, 0
  {
    match v
    case Arr(items) => Arr(NormalItems(items))
    case Obj(fs) => Obj(NormalFields(SortByKey(fs), v))
    case _ => v
  }

  ghost function NormalItems(items: seq<Json>): (r: seq<Json>)
    ensures |r| == |items| && forall i :: 0 <= i < |r| ==> r[i] == Normal(items[i])
    decreases items, 0, 0
  {
    if items == [] then [] else [Normal(items[0])] + NormalItems(items[1..])
  }

  ghost function NormalFields(fs: seq<Field>, whole: Json): (r: seq<Field>)
    requires forall f | f in fs :: f.value < whole
    ensures |r| == |fs|
    ensures forall i :: 0 <= i < |r| ==> r[i] == Field(fs[i].key, Normal(fs[i].value))
    decreases whole, 0, |fs|
  {
    if fs == [] then []
    else [Field(fs[0].key, Normal(fs[0].value))] + NormalFields(fs[1..], whole)
  }

  lemma {:induction false} SerializeIsPrintNormal(v: Json, nm: Numerals)
    ensures Serialize(v, nm) == Print(Normal(v), nm)
    decreases v, 1, 0
  {
    match v
    case Arr(items) => SerializeItemsIsPrint(items, nm);
    case Obj(fs) => SerializeFieldsIsPrint(SortByKey(fs), v, nm);
    case _ =>
  }

  lemma {:induction false} SerializeItemsIsPrint(items: seq<Json>, nm: Numerals)
    ensures SerializeItems(items, nm) == PrintItems(NormalItems(items), nm)
    decreases items, 0, 0
  {
    if items != [] {
      SerializeIsPrintNormal(items[0], nm);
      SerializeItemsIsPrint(items[1..], nm);
      assert NormalItems(items)[1..] == NormalItems(items[1..]);
    }
  }

  lemma {:induction false} SerializeFieldsIsPrint(fs: seq<Field>, whole: Json, nm: Numerals)
    requires forall f | f in fs :: f.value < whole
    ensures SerializeFields(fs, whole, nm) == PrintFields(NormalFields(fs, whole), nm)
    decreases whole, 0, |fs|
  {
    if fs != [] {
      SerializeIsPrintNormal(fs[0].value, nm);
      SerializeFieldsIsPrint(fs[1..], whole, nm);
      assert NormalFields(fs, whole)[1..] == NormalFields(fs[1..], whole);
    }
  }

  lemma {:induction false} NormalWellFormed(v: Json, nm: Numerals)
    requires WellFormed(v, nm)
    ensures WellFormed(Normal(v), nm)
  {
    match v
    case Arr(items) =>
      forall x | x in NormalItems(items) ensures WellFormed(x, nm) {
        var i :| 0 <= i < |items| && x == Normal(items[i]);
        NormalWellFormed(items[i], nm);
      }
    case Obj(fs) =>
      var sorted := SortByKey(fs);
      SortAscending(fs);
      AscendingDistinct(sorted);
      var r := NormalFields(sorted, v);
      forall f | f in r ensures WellFormed(f.value, nm) {
        var i :| 0 <= i < |r| && f == r[i];
        assert sorted[i] in fs;
        NormalWellFormed(sorted[i].value, nm);
      }
    case _ =>
  }

  /* ------------------------------------------------------- structural equality */

  /** `deepEqual`: the same content, whatever the order of object keys. */
  predicate DeepEqual(a: Json, b: Json)
    decreases a
  {
    match a
    case Arr(x) => b.Arr? && |x| == |b.items| && forall i | 0 <= i < |x| :: DeepEqual(x[i], b.items[i])
    case Obj(x) =>
      && b.Obj?
      && |x| == |b.fields|
      && forall f | f in x ::
        var other := Lookup(b.fields, f.key);
        other.Some? && DeepEqual(f.value, other.value)
    case _ => a == b
  }

  ghost function Keys(fs: seq<Field>): set<string> { set f | f in fs :: f.key }

  lemma {:induction false} KeyCount(fs: seq<Field>)
    requires DistinctKeys(fs)
    ensures |Keys(fs)| == |fs|
  {
    if fs != [] {
      KeyCount(fs[1..]);
      assert Keys(fs) == {fs[0].key} + Keys(fs[1..]);
      assert fs[0].key !in Keys(fs[1..]);
    }
  }

  lemma SameSizeSubset<T>(a: set<T>, b: set<T>)
    requires a <= b && |a| == |b|
    ensures a == b
  {
    assert b == a + (b - a);
    assert |b| == |a| + |b - a|;
  }

  /** A set of keys has one ascending arrangement. */
  lemma {:induction false} OneArrangement(x: seq<Field>, y: seq<Field>)
    requires Ascending(x) && Ascending(y) && Keys(x) == Keys(y)
    ensures |x| == |y| && forall i :: 0 <= i < |x| ==> x[i].key == y[i].key
  {
    AscendingDistinct(x); AscendingDistinct(y);
    KeyCount(x); KeyCount(y);
    if x != [] {
      assert x[0].key in Keys(y) && y[0].key in Keys(x);
      var i :| 0 <= i < |y| && y[i].key == x[0].key;
      var j :| 0 <= j < |x| && x[j].key == y[0].key;
      BeforeTotal(x[0].key, y[0].key);
      assert x[0].key == y[0].key;
      assert Keys(x[1..]) == Keys(x) - {x[0].key};
      assert Keys(y[1..]) == Keys(y) - {y[0].key};
      OneArrangement(x[1..], y[1..]);
      forall k | 0 <= k < |x| ensures x[k].key == y[k].key {
        if k > 0 { assert x[k] == x[1..][k - 1] && y[k] == y[1..][k - 1]; }
      }
    }
  }

  lemma {:induction false} LookupAppend(a: seq<Field>, b: seq<Field>, k: string)
    ensures Lookup(a + b, k) == if Lookup(a, k).Some? then Lookup(a, k) else Lookup(b, k)
  {
    if a == [] {
      assert a + b == b;
    } else {
      assert (a + b)[1..] == a[1..] + b;
      LookupAppend(a[1..], b, k);
    }
  }

  lemma LookupOwn(fs: seq<Field>, f: Field)
    requires DistinctKeys(fs) && f in fs
    ensures Lookup(fs, f.key) == Some(f.value)
  {
    var i :| 0 <= i < |fs| && fs[i] == f;
    var v := Lookup(fs, f.key).value;
    var j :| 0 <= j < |fs| && fs[j] == Field(f.key, v);
  }

  /** Equal-up-to-order objects list the same keys once sorted. */
  lemma SortedTogether(x: seq<Field>, y: seq<Field>)
    requires DistinctKeys(x) && DistinctKeys(y) && |x| == |y|
    requires forall f | f in x :: Lookup(y, f.key).Some?
    ensures forall i :: 0 <= i < |x| ==>
      SortByKey(x)[i].key == SortByKey(y)[i].key && Lookup(y, SortByKey(x)[i].key) == Some(SortByKey(y)[i].value)
  {
    var sx, sy := SortByKey(x), SortByKey(y);
    SortAscending(x); SortAscending(y);
    KeyCount(x); KeyCount(y);
    forall k | k in Keys(x) ensures k in Keys(y) {
      var f :| f in x && f.key == k;
      assert Field(k, Lookup(y, k).value) in y;
    }
    SameSizeSubset(Keys(x), Keys(y));
    assert Keys(sx) == Keys(x) && Keys(sy) == Keys(y);
    OneArrangement(sx, sy);
    forall i | 0 <= i < |x| ensures Lookup(y, sx[i].key) == Some(sy[i].value) {
      assert sy[i] in y;
      LookupOwn(y, sy[i]);
    }
  }

  lemma {:induction false} EqualNormals(a: Json, b: Json, nm: Numerals)
    requires WellFormed(a, nm) && WellFormed(b, nm) && DeepEqual(a, b)
    ensures Normal(a) == Normal(b)
    decreases a
  {
    match a
    case Arr(x) =>
      forall i | 0 <= i < |x| ensures Normal(x[i]) == Normal(b.items[i]) {
        EqualNormals(x[i], b.items[i], nm);
      }
      assert NormalItems(x) == NormalItems(b.items);
    case Obj(x) =>
      var y := b.fields;
      SortedTogether(x, y);
      var sx, sy := SortByKey(x), SortByKey(y);
      forall i | 0 <= i < |x| ensures Normal(sx[i].value) == Normal(sy[i].value) {
        assert sx[i] in x && sy[i] in y;
        EqualNormals(sx[i].value, sy[i].value, nm);
      }
      assert NormalFields(sx, a) == NormalFields(sy, b);
    case _ =>
  }

  /** Objects with one normal form agree field by field. */
  lemma PairedField(x: seq<Field>, y: seq<Field>, f: Field)
    requires DistinctKeys(x) && DistinctKeys(y) && f in x
    requires Normal(Obj(x)) == Normal(Obj(y))
    ensures Lookup(y, f.key).Some? && Normal(Lookup(y, f.key).value) == Normal(f.value)
  {
    var sx, sy := SortByKey(x), SortByKey(y);
    assert NormalFields(sx, Obj(x)) == NormalFields(sy, Obj(y));
    assert f in sx;
    var i :| 0 <= i < |sx| && sx[i] == f;
    assert NormalFields(sx, Obj(x))[i] == NormalFields(sy, Obj(y))[i];
    assert sy[i] in y;
    LookupOwn(y, sy[i]);
  }

  lemma {:induction false} NormalsEqual(a: Json, b: Json, nm: Numerals)
    requires WellFormed(a, nm) && WellFormed(b, nm) && Normal(a) == Normal(b)
    ensures DeepEqual(a, b)
    decreases a
  {
    match a
    case Arr(x) =>
      assert NormalItems(x) == NormalItems(b.items);
      forall i | 0 <= i < |x| ensures DeepEqual(x[i], b.items[i]) {
        assert NormalItems(x)[i] == NormalItems(b.items)[i];
        NormalsEqual(x[i], b.items[i], nm);
      }
    case Obj(x) =>
      var y := b.fields;
      assert |NormalFields(SortByKey(x), a)| == |NormalFields(SortByKey(y), b)|;
      forall f | f in x
        ensures Lookup(y, f.key).Some? && DeepEqual(f.value, Lookup(y, f.key).value)
      {
        PairedField(x, y, f);
        assert Field(f.key, Lookup(y, f.key).value) in y;
        NormalsEqual(f.value, Lookup(y, f.key).value, nm);
      }
    case _ =>
  }

  /**
   Canonical serialization is a faithful normal form: two values serialize to the same text
   exactly when they are equal up to the order of object keys.
   */
  lemma SameTextIffEqual(a: Json, b: Json, nm: Numerals)
    requires Faithful(nm) && WellFormed(a, nm) && WellFormed(b, nm)
    ensures Serialize(a, nm) == Serialize(b, nm) <==> DeepEqual(a, b)
  {
    SerializeIsPrintNormal(a, nm); SerializeIsPrintNormal(b, nm);
    NormalWellFormed(a, nm); NormalWellFormed(b, nm);
    if DeepEqual(a, b) {
      EqualNormals(a, b, nm);
    }
    if Serialize(a, nm) == Serialize(b, nm) {
      ParseUndoesPrint(Normal(a), nm); ParseUndoesPrint(Normal(b), nm);
      NormalsEqual(a, b, nm);
    }
  }

  /** Reading a canonical text back returns an equal value. */
  lemma ParseUndoesSerialize(v: Json, nm: Numerals)
    requires Faithful(nm) && WellFormed(v, nm)
    ensures Parse(Serialize(v, nm), nm) == Some(Normal(v)) && DeepEqual(v, Normal(v))
  {
    SerializeIsPrintNormal(v, nm);
    NormalWellFormed(v, nm);
    ParseUndoesPrint(Normal(v), nm);
    NormalIdempotent(v, nm);
    NormalsEqual(v, Normal(v), nm);
  }

  lemma {:induction false} NormalIdempotent(v: Json, nm: Numerals)
    requires WellFormed(v, nm)
    ensures Normal(Normal(v)) == Normal(v)
  {
    match v
    case Arr(items) =>
      forall i | 0 <= i < |items| ensures Normal(Normal(items[i])) == Normal(items[i]) {
        NormalIdempotent(items[i], nm);
      }
      assert NormalItems(NormalItems(items)) == NormalItems(items);
    case Obj(fs) =>
      var sorted := SortByKey(fs);
      var r := NormalFields(sorted, v);
      SortAscending(fs);
      assert Ascending(r);
      SortedStays(r);
      forall i | 0 <= i < |r| ensures Normal(r[i].value) == r[i].value {
        assert sorted[i] in fs;
        NormalIdempotent(sorted[i].value, nm);
      }
      assert NormalFields(r, Obj(r)) == r;
    case _ =>
  }

  lemma {:induction false} SortedStays(fs: seq<Field>)
    requires Ascending(fs)
    ensures SortByKey(fs) == fs
  {
    if fs != [] {
      SortedStays(fs[1..]);
      assert [fs[0]] + fs[1..] == fs;
    }
  }

  /* --------------------------------------------------------- no control characters */

  predicate Clean(t: string) { forall c | c in t :: c >= ' ' }

  lemma {:induction false} EscapeClean(s: string)
    ensures Clean(Quote(s))
  {
    if s != "" {
      EscapeClean(s[1..]);
      assert forall c | c in Escape(s[1..]) :: c in Quote(s[1..]);
      assert Clean(EscapeChar(s[0]));
    }
  }

  /** A canonical text never contains a raw control character, so NUL is free as a separator. */
  lemma {:induction false} SerializeClean(v: Json, nm: Numerals)
    requires Faithful(nm) && WellFormed(v, nm)
    ensures Clean(Serialize(v, nm))
    decreases v, 1, 0
  {
    match v
    case Arr(items) => ItemsClean(items, nm);
    case Obj(fs) => FieldsClean(SortByKey(fs), v, nm);
    case Str(s) => EscapeClean(s);
    case Num(n) =>
      forall c | c in nm.show(n) ensures c >= ' ' {
        var i :| 0 <= i < |nm.show(n)| && nm.show(n)[i] == c;
      }
    case _ =>
  }

  lemma {:induction false} ItemsClean(items: seq<Json>, nm: Numerals)
    requires Faithful(nm) && forall x | x in items :: WellFormed(x, nm)
    ensures Clean(SerializeItems(items, nm))
    decreases items, 0, 0
  {
    if items != [] {
      SerializeClean(items[0], nm);
      ItemsClean(items[1..], nm);
    }
  }

  lemma {:induction false} FieldsClean(fs: seq<Field>, whole: Json, nm: Numerals)
    requires Faithful(nm) && forall f | f in fs :: f.value < whole && WellFormed(f.value, nm)
    ensures Clean(SerializeFields(fs, whole, nm))
    decreases whole, 0, |fs|
  {
    if fs != [] {
      EscapeClean(fs[0].key);
      SerializeClean(fs[0].value, nm);
      FieldsClean(fs[1..], whole, nm);
    }
  }
}

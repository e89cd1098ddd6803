/**
 Which references a wrapper carries along (packages/model-openai/src/openai-model.adapter.ts:263-297):
 the exact condition for one reference, and a class of schemas that meet it everywhere.
 */
module SchemaWrapCarried {
  import opened Base
  import opened JsonText
  import opened Canonical
  import opened SchemaConformance
  import opened SchemaWrap
  import opened SchemaWrapMeaning

  /* ------------------------------------------------------------- places in a schema */

  predicate SchemaLike(t: Json) { t.Bool? || t.Arr? || t.Obj? }

  /** What `resolveRef` finds at the end of a path. */
  function Found(node: Json, path: seq<string>): Option<Json> {
    match Descend(node, path) case Some(t) => if SchemaLike(t) then Some(t) else None case None => None
  }

  lemma ResolveFinds(root: Json, ref: string, path: seq<string>, rules: Rules)
    requires RefPath(ref, rules) == Some(path)
    ensures Resolve(root, ref, rules) == Found(root, path)
  {}

  /** How the rewriting treats the place a path leads to. */
  function PlaceKind(node: Json, path: seq<string>): Kind {
    match KindAt(Schema, node, path) case Some(kind) => kind case None => Schema
  }

  /** What is found at a place treated in this way comes out of the rewriting as a schema would. */
  predicate AlikeAt(kind: Kind, t: Json) {
    match kind
    case Schema => true
    case Map => t.Obj? ==> forall g | g in t.fields :: ReadAlike(g)
    case _ => !AnyMoves(t)
  }

  lemma AlikeAtIff(kind: Kind, t: Json, key: string)
    requires SchemaLike(t)
    ensures RewriteAt(kind, t, Mover(key)) == Rewrite(t, Mover(key)) <==> AlikeAt(kind, t)
  {
    match kind
    case Schema =>
    case Map => if t.Obj? { EntriesArrive(t.fields, key); }
    case _ => ChangedIffMoves(t, key);
  }

  lemma RewritingLikes(kind: Kind, t: Json, m: string -> string)
    ensures SchemaLike(RewriteAt(kind, t, m)) <==> SchemaLike(t)
  {}

  lemma FoundRewritten(node: Json, path: seq<string>, m: string -> string)
    ensures Found(Rewrite(node, m), path) ==
      match Found(node, path) { case None => None case Some(t) => Some(RewriteAt(PlaceKind(node, path), t, m)) }
  {
    DescendRewritten(Schema, node, path, m);
    match Descend(node, path)
    case Some(t) => RewritingLikes(PlaceKind(node, path), t, m);
    case None => LostRewritten(Schema, node, path, m);
  }

  lemma {:induction false} LostRewritten(kind: Kind, node: Json, path: seq<string>, m: string -> string)
    requires Descend(node, path).None?
    ensures Descend(RewriteAt(kind, node, m), path).None?
    decreases |path|
  {
    ChildRewritten(kind, node, path[0], m);
    match Child(node, path[0])
    case None =>
    case Some(c) => LostRewritten(KindOf(kind, node, path[0], c), c, path[1..], m);
  }

  predicate PlaceAlike(node: Json, path: seq<string>) {
    Found(node, path).Some? ==> AlikeAt(PlaceKind(node, path), Found(node, path).value)
  }

  /** A place of a schema is carried by the rewriting exactly when it is read alike. */
  lemma PlaceCarried(node: Json, path: seq<string>, key: string)
    ensures Found(Rewrite(node, Mover(key)), path) == MapOption(Found(node, path), Mover(key))
      <==> PlaceAlike(node, path)
  {
    FoundRewritten(node, path, Mover(key));
    if Found(node, path).Some? { AlikeAtIff(PlaceKind(node, path), Found(node, path).value, key); }
  }

  lemma FoundBelow(node: Json, path: seq<string>)
    requires node.Obj? && path != []
    ensures Found(node, path) ==
      match Keyword(node, path[0]) { case None => None case Some(c) => Found(c, path[1..]) }
  {}

  lemma FoundAfter(node: Json, p: seq<string>, q: seq<string>)
    requires Descend(node, p).Some?
    ensures Found(node, p + q) == Found(Descend(node, p).value, q)
  {
    DescendAppend(node, p, q);
  }

  /* -------------------------------------------------------- references that move */

  lemma {:induction false} WithoutGone(fs: seq<Field>, gone: string, k: string)
    requires k == gone || Lookup(fs, k).None?
    ensures Lookup(Without(fs, gone), k).None?
  {
    if fs != [] { WithoutGone(fs[1..], gone, k); }
  }

  lemma InnerWithout(schema: Json, k: string)
    requires schema.Obj? && k in DEFINITIONS
    ensures Keyword(Inner(schema), k).None?
  {
    WithoutGone(schema.fields, "$defs", "$defs");
    WithoutGone(Without(schema.fields, "$defs"), "definitions", k);
  }

  /** The old root's new place. */
  lemma FoundInRoot(schema: Json, key: string, rest: seq<string>)
    requires schema.Obj? && Relocates(schema) && FirstFree(key, ROOT_BASE, Keyword(schema, "$defs"))
    ensures Found(Wrap(schema, key), ["$defs", key] + rest) == Found(Rewrite(Inner(schema), Mover(key)), rest)
  {
    WrappedRoot(schema, key);
    FoundAfter(Wrap(schema, key), ["$defs", key], rest);
  }

  /** A reference that moves is followed from the old root's new place. */
  lemma MovedFinds(schema: Json, key: string, ref: string, path: seq<string>, rules: Rules)
    requires schema.Obj? && Relocates(schema) && PlainDecoding(rules)
    requires FirstFree(key, ROOT_BASE, Keyword(schema, "$defs"))
    requires Moves(ref) && RefPath(ref, rules) == Some(path)
    ensures Resolve(Wrap(schema, key), MoveRef(ref, key), rules) == Found(Rewrite(Inner(schema), Mover(key)), path)
  {
    KeyPlain(key, Keyword(schema, "$defs"));
    MovedPath(ref, key, rules);
    FoundInRoot(schema, key, path);
    ResolveFinds(Wrap(schema, key), MoveRef(ref, key), ["$defs", key] + path, rules);
  }

  /** The old root has lost its definitions; the rest of it is where it was. */
  lemma InnerFinds(schema: Json, path: seq<string>)
    requires schema.Obj? && path != []
    ensures path[0] in DEFINITIONS ==> Found(Inner(schema), path).None?
    ensures path[0] !in DEFINITIONS ==>
      Found(Inner(schema), path) == Found(schema, path) && PlaceKind(Inner(schema), path) == PlaceKind(schema, path)
  {
    if path[0] in DEFINITIONS { InnerWithout(schema, path[0]); } else { KindRoot(schema, path); }
  }

  /**
   A reference that moves still resolves exactly when it does not lead into the definitions:
   one that spells their names percent-encoded, or names them as a whole, is pointed at a place
   they have been taken out of.
   */
  lemma MovedReferenceResolves(schema: Json, key: string, ref: string, rules: Rules)
    requires schema.Obj? && Relocates(schema) && PlainDecoding(rules)
    requires FirstFree(key, ROOT_BASE, Keyword(schema, "$defs"))
    requires Moves(ref) && Resolve(schema, ref, rules).Some?
    ensures Resolve(Wrap(schema, key), MoveRef(ref, key), rules).Some?
      <==> ref == "#" || RefPath(ref, rules).value[0] !in DEFINITIONS
  {
    var path := RefPath(ref, rules).value;
    RootPath(ref, rules);
    ResolveFinds(schema, ref, path, rules);
    MovedFinds(schema, key, ref, path, rules);
    FoundRewritten(Inner(schema), path, Mover(key));
    if path != [] { InnerFinds(schema, path); }
  }

  /** The part of the condition for references that move. */
  predicate SurvivesMove(schema: Json, path: seq<string>)
    requires schema.Obj?
  {
    if path == [] then Relocates(schema)
    else if !Relocates(schema) || path[0] in DEFINITIONS then Found(schema, path).None?
    else PlaceAlike(schema, path)
  }

  lemma KeyNoIndex(key: string, defs: Option<Json>)
    requires FirstFree(key, ROOT_BASE, defs)
    ensures IndexOf(key).None?
  {
    var n: nat :| n >= 1 && key == CandidateKey(ROOT_BASE, n);
    assert key[0] == 'w';
  }

  lemma NoSuchDefinition(d: Json, path: seq<string>)
    requires path != [] && Child(d, path[0]).None?
    ensures Found(d, path).None?
  {}

  /** Where nothing moves there is no old root to point at. */
  lemma NoOldRoot(schema: Json, key: string, path: seq<string>)
    requires schema.Obj? && !Relocates(schema) && FirstFree(key, ROOT_BASE, Keyword(schema, "$defs"))
    requires |path| >= 2 && path[0] == "$defs" && path[1] == key
    ensures Found(Wrap(schema, key), path).None?
  {
    FoundBelow(Wrap(schema, key), path);
    WrappedKeyword(schema, key, "$defs");
    match Keyword(schema, "$defs")
    case Some(d) =>
      KeyNoIndex(key, Some(d));
      NoSuchDefinition(d, path[1..]);
    case None =>
  }

  lemma MovedCarriedIff(schema: Json, key: string, ref: string, path: seq<string>, rules: Rules)
    requires schema.Obj? && PlainDecoding(rules) && FirstFree(key, ROOT_BASE, Keyword(schema, "$defs"))
    requires Moves(ref) && RefPath(ref, rules) == Some(path)
    ensures Carried(schema, key, ref, rules) <==> SurvivesMove(schema, path)
  {
    RootPath(ref, rules);
    ResolveFinds(schema, ref, path, rules);
    if Relocates(schema) {
      MovedFinds(schema, key, ref, path, rules);
      if path != [] {
        InnerFinds(schema, path);
        PlaceCarried(Inner(schema), path, key);
      }
    } else {
      KeyPlain(key, Keyword(schema, "$defs"));
      MovedPath(ref, key, rules);
      ResolveFinds(Wrap(schema, key), MoveRef(ref, key), ["$defs", key] + path, rules);
      NoOldRoot(schema, key, ["$defs", key] + path);
    }
  }

  /* ---------------------------------------------------------- references that stay */

  /** The part of the condition for references into the definitions. */
  predicate SurvivesInPlace(schema: Json, key: string, path: seq<string>)
    requires schema.Obj? && |path| >= 2
  {
    var defs := Keyword(schema, path[0]);
    if Relocates(schema) && path[0] == "$defs" && path[1] == key then Found(Inner(schema), path[2..]).None?
    else if Relocates(schema) && path[0] == "$defs" && defs.Some? && !defs.value.Obj? then Found(schema, path).None?
    else defs.Some? ==> PlaceAlike(defs.value, path[1..])
  }

  /** A reference to the key picked for the old root named nothing. */
  lemma NewRootIsNew(schema: Json, key: string, path: seq<string>)
    requires schema.Obj? && FirstFree(key, ROOT_BASE, Keyword(schema, "$defs"))
    requires |path| >= 2 && path[0] == "$defs" && path[1] == key
    ensures Found(schema, path).None?
  {
    FoundBelow(schema, path);
    match Keyword(schema, "$defs")
    case Some(d) =>
      KeyNoIndex(key, Some(d));
      NoSuchDefinition(d, path[1..]);
    case None =>
  }

  /** It comes to name what is below the root. */
  lemma NewRootFinds(schema: Json, key: string, path: seq<string>)
    requires schema.Obj? && Relocates(schema) && FirstFree(key, ROOT_BASE, Keyword(schema, "$defs"))
    requires |path| >= 2 && path[0] == "$defs" && path[1] == key
    ensures Found(Wrap(schema, key), path).None? <==> Found(Inner(schema), path[2..]).None?
  {
    assert path == ["$defs", key] + path[2..];
    FoundInRoot(schema, key, path[2..]);
    FoundRewritten(Inner(schema), path[2..], Mover(key));
  }

  /** Definitions that are no record are dropped when the old root takes their place. */
  lemma OnlyRoot(schema: Json, key: string, name: string)
    requires schema.Obj? && name != key
    requires Keyword(schema, "$defs").Some? && !Keyword(schema, "$defs").value.Obj?
    ensures Lookup(JoinedDefs(schema, key), name).None?
  {
    LookupAppend([], [Field(key, Rewrite(Inner(schema), Mover(key)))], name);
  }

  lemma DroppedDefinitions(schema: Json, key: string, path: seq<string>)
    requires schema.Obj? && Relocates(schema) && |path| >= 2 && path[0] == "$defs" && path[1] != key
    requires Keyword(schema, "$defs").Some? && !Keyword(schema, "$defs").value.Obj?
    ensures Found(Wrap(schema, key), path).None?
  {
    WrappedKeyword(schema, key, "$defs");
    FoundBelow(Wrap(schema, key), path);
    OnlyRoot(schema, key, path[1]);
    NoSuchDefinition(Obj(JoinedDefs(schema, key)), path[1..]);
  }

  lemma SameDefinition(c: Json, d: Json, path: seq<string>)
    requires path != [] && Child(c, path[0]) == Child(d, path[0])
    ensures Found(c, path) == Found(d, path)
  {}

  /** Any other definition sits where it was, rewritten with the definitions around it. */
  lemma KeptDefinitions(schema: Json, key: string, path: seq<string>)
    requires schema.Obj? && |path| >= 2 && path[0] in DEFINITIONS
    requires path[0] == "$defs" && Relocates(schema) ==>
      && (Keyword(schema, "$defs").Some? ==> Keyword(schema, "$defs").value.Obj?)
      && path[1] != key
    ensures Found(Wrap(schema, key), path) ==
      match Keyword(schema, path[0]) { case None => None case Some(d) => Found(Rewrite(d, Mover(key)), path[1..]) }
  {
    var k, more := path[0], path[1..];
    WrappedDefinitions(schema, key, k, more[0]);
    FoundBelow(Wrap(schema, key), path);
    var before, after := MapOption(Keyword(schema, k), Mover(key)), Keyword(Wrap(schema, key), k);
    if before.Some? && after.Some? {
      SameDefinition(after.value, before.value, more);
    } else if before.Some? {
      NoSuchDefinition(before.value, more);
    } else if after.Some? {
      NoSuchDefinition(after.value, more);
    }
  }

  lemma StayingCarriedIff(schema: Json, key: string, ref: string, path: seq<string>, rules: Rules)
    requires schema.Obj? && PlainDecoding(rules) && FirstFree(key, ROOT_BASE, Keyword(schema, "$defs"))
    requires !Moves(ref) && RefPath(ref, rules) == Some(path) && |path| >= 2 && path[0] in DEFINITIONS
    ensures Carried(schema, key, ref, rules) <==> SurvivesInPlace(schema, key, path)
  {
    RootPath(ref, rules);
    ResolveFinds(schema, ref, path, rules);
    ResolveFinds(Wrap(schema, key), ref, path, rules);
    var defs := Keyword(schema, path[0]);
    if Relocates(schema) && path[0] == "$defs" && path[1] == key {
      NewRootIsNew(schema, key, path);
      NewRootFinds(schema, key, path);
    } else if Relocates(schema) && path[0] == "$defs" && defs.Some? && !defs.value.Obj? {
      DroppedDefinitions(schema, key, path);
    } else {
      KeptDefinitions(schema, key, path);
      FoundBelow(schema, path);
      if defs.Some? { PlaceCarried(defs.value, path[1..], key); }
    }
  }

  /* -------------------------------------------------------------- any reference */

  /**
   Nothing is found through the reference, before or after; or what it names is read alike at its
   place, and neither the key of the old root nor definitions that are taken away stand on its path.
   */
  ghost predicate Survives(schema: Json, key: string, ref: string, rules: Rules)
    requires schema.Obj?
  {
    match RefPath(ref, rules)
    case None => true
    case Some(path) =>
      if Moves(ref) then SurvivesMove(schema, path) else |path| >= 2 && SurvivesInPlace(schema, key, path)
  }

  /** A reference is carried along exactly when it survives. */
  lemma CarriedIff(schema: Json, key: string, ref: string, rules: Rules)
    requires schema.Obj? && PlainDecoding(rules) && FirstFree(key, ROOT_BASE, Keyword(schema, "$defs"))
    ensures Carried(schema, key, ref, rules) <==> Survives(schema, key, ref, rules)
  {
    match RefPath(ref, rules)
    case None =>
      KeyPlain(key, Keyword(schema, "$defs"));
      if Moves(ref) { MovedPath(ref, key, rules); }
    case Some(path) =>
      if Moves(ref) {
        MovedCarriedIff(schema, key, ref, path, rules);
      } else {
        StayingPath(ref, rules);
        StayingCarriedIff(schema, key, ref, path, rules);
      }
  }

  /* ---------------------------------------------------- schemas that carry everything */

  /** What the reference names, if anything, stands where the rewriting sees a schema: no map of schemas, no data. */
  ghost predicate AtSchema(schema: Json, ref: string, rules: Rules)
    requires schema.Obj? && Resolve(schema, ref, rules).Some?
  {
    var path := RefPath(ref, rules).value;
    path == [] ||
    if Moves(ref) then KindAt(Schema, schema, path) == Some(Schema)
    else
      match Keyword(schema, path[0])
      case Some(d) => KindAt(Map, d, path[1..]) == Some(Schema)
      case None => false
  }

  ghost function Landing(schema: Json, key: string, rules: Rules): string -> bool
    requires schema.Obj?
  {
    ref => Survives(schema, key, ref, rules) && (Resolve(schema, ref, rules).Some? ==> AtSchema(schema, ref, rules))
  }

  /** Every definition is read alike, and every reference in one lands. */
  ghost predicate DefinitionsFit(schema: Json, k: string, p: string -> bool) {
    Keyword(schema, k).Some? ==>
      && EveryAt(Map, Keyword(schema, k).value, p)
      && (Keyword(schema, k).value.Obj? ==> forall f | f in Keyword(schema, k).value.fields :: ReadAlike(f))
  }

  /** Every reference anywhere in the schema survives, and what it names is a schema. */
  ghost predicate Wrappable(schema: Json, key: string, rules: Rules) {
    && schema.Obj?
    && Every(Inner(schema), Landing(schema, key, rules))
    && forall k | k in DEFINITIONS :: DefinitionsFit(schema, k, Landing(schema, key, rules))
  }

  /** What holds of every reference met while a wrappable schema is evaluated. */
  ghost function Landed(schema: Json, key: string, rules: Rules): string -> bool
    requires schema.Obj?
  {
    ref => Landing(schema, key, rules)(ref) && (Relocates(schema) || !Moves(ref))
  }

  lemma LandedEvery(node: Json, schema: Json, key: string, rules: Rules)
    requires schema.Obj? && Every(node, Landing(schema, key, rules)) && (Relocates(schema) || !AnyMoves(node))
    ensures Every(node, Landed(schema, key, rules))
  {
    var landing := Landing(schema, key, rules);
    if Relocates(schema) {
      EveryBoth(node, landing, landing, Landed(schema, key, rules));
    } else {
      var still := (ref: string) => !Moves(ref);
      StillIsEvery(node, still);
      EveryBoth(node, landing, still, Landed(schema, key, rules));
    }
  }

  lemma LandedDefinitions(schema: Json, k: string, key: string, rules: Rules)
    requires schema.Obj? && k in DEFINITIONS && DefinitionsFit(schema, k, Landing(schema, key, rules))
    ensures Keyword(schema, k).Some? ==> EveryAt(Map, Keyword(schema, k).value, Landed(schema, key, rules))
  {
    if Keyword(schema, k).Some? {
      var d := Keyword(schema, k).value;
      if d.Obj? {
        forall f | f in d.fields ensures Every(f.value, Landed(schema, key, rules)) {
          AlikeMoves(f);
          assert !Relocates(schema) ==> !FieldMoves(f);
          LandedEvery(f.value, schema, key, rules);
        }
      } else {
        LandedEvery(d, schema, key, rules);
      }
    }
  }

  /** What a reference that moves names lies in the root, apart from the definitions. */
  lemma MovedTarget(schema: Json, path: seq<string>, p: string -> bool)
    requires schema.Obj? && path != [] && path[0] !in DEFINITIONS && KindAt(Schema, schema, path) == Some(Schema)
    requires Every(Inner(schema), p)
    ensures Descend(schema, path).Some? && Every(Descend(schema, path).value, p)
  {
    KindRoot(schema, path);
    EveryBelow(Schema, Inner(schema), path, p);
  }

  /** What a reference that stays names lies in the definitions. */
  lemma StayingTarget(schema: Json, d: Json, path: seq<string>, p: string -> bool)
    requires schema.Obj? && path != [] && Keyword(schema, path[0]) == Some(d)
    requires KindAt(Map, d, path[1..]) == Some(Schema) && EveryAt(Map, d, p)
    ensures Descend(schema, path).Some? && Every(Descend(schema, path).value, p)
  {
    EveryBelow(Map, d, path[1..], p);
  }

  lemma LandedFollows(schema: Json, key: string, ref: string, rules: Rules)
    requires Wrappable(schema, key, rules) && PlainDecoding(rules)
    requires FirstFree(key, ROOT_BASE, Keyword(schema, "$defs")) && Landed(schema, key, rules)(ref)
    ensures Follows(schema, key, ref, rules, Landed(schema, key, rules))
  {
    var p := Landed(schema, key, rules);
    LandedEvery(Inner(schema), schema, key, rules);
    CarriedIff(schema, key, ref, rules);
    if ref != "#" && Named(schema, ref, rules).Some? {
      var path := RefPath(ref, rules).value;
      RootPath(ref, rules);
      ResolveFinds(schema, ref, path, rules);
      if Moves(ref) {
        MovedTarget(schema, path, p);
      } else {
        StayingPath(ref, rules);
        LandedDefinitions(schema, path[0], key, rules);
        StayingTarget(schema, Keyword(schema, path[0]).value, path, p);
      }
    }
  }

  /** A wrappable schema carries all its references. */
  lemma WrappableCloses(schema: Json, key: string, rules: Rules)
    requires Wrappable(schema, key, rules) && PlainDecoding(rules)
    requires FirstFree(key, ROOT_BASE, Keyword(schema, "$defs"))
    ensures Closed(schema, key, rules, Landed(schema, key, rules))
  {
    LandedEvery(Inner(schema), schema, key, rules);
    forall ref | Landed(schema, key, rules)(ref) ensures Follows(schema, key, ref, rules, Landed(schema, key, rules)) {
      LandedFollows(schema, key, ref, rules);
    }
  }
}

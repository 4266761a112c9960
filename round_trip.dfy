/** The two directions composed: turning an example into a schema and the
    schema back into an example gives the original example, except that
    every list is cut down to its first element (an empty list comes back as
    `["string_example"]`). */
module RoundTrip {
  import opened JsonModel
  import opened SchemaInference
  import opened Reification

  /** What the round trip makes of an example: dicts keep their keys and
      order, a list keeps only its first element, and a scalar comes back
      unchanged because its node carries it as "example". */
  function Collapse(e: Json): Json
    decreases e, 1
  {
    match e
    case JObj(fs) => JObj(CollapseUpTo(e, |fs|))
    case JArr(a) => if |a| > 0 then JArr([Collapse(a[0])]) else JArr([JStr("string_example")])
    case _ => e
  }

  function CollapseUpTo(obj: Json, k: nat): Fields
    requires obj.JObj? && k <= |obj.fields|
    decreases obj, 0, k
  {
    if k == 0 then [] else CollapseUpTo(obj, k - 1) + [(obj.fields[k - 1].0, Collapse(obj.fields[k - 1].1))]
  }

  /** The calls of `generate_example_from_schema` nested inside the one made
      for the example's node: one per dict level and one per list level. */
  function Depth(e: Json): nat
    decreases e, 1
  {
    match e
    case JObj(fs) => 1 + DepthUpTo(e, |fs|)
    case JArr(a) => 1 + (if |a| > 0 then Depth(a[0]) else 0)
    case _ => 0
  }

  function DepthUpTo(obj: Json, k: nat): nat
    requires obj.JObj? && k <= |obj.fields|
    decreases obj, 0, k
  {
    if k == 0 then 0
    else
      var before := DepthUpTo(obj, k - 1);
      var here := Depth(obj.fields[k - 1].1);
      if before < here then here else before
  }

  /** Every write in `ws` can be found again through a `$ref`: its name has
      no '/' and the table maps it to the written node. */
  predicate Resolves(defs: Fields, ws: Fields) {
    forall i :: 0 <= i < |ws| ==> '/' !in ws[i].0 && Lookup(defs, ws[i].0) == Some(ws[i].1)
  }

  lemma ResolvesAppend(defs: Fields, a: Fields, b: Fields)
    ensures Resolves(defs, a + b) <==> Resolves(defs, a) && Resolves(defs, b)
  {
    if Resolves(defs, a + b) {
      forall i | 0 <= i < |a| ensures '/' !in a[i].0 && Lookup(defs, a[i].0) == Some(a[i].1) {
        assert (a + b)[i] == a[i];
      }
      forall i | 0 <= i < |b| ensures '/' !in b[i].0 && Lookup(defs, b[i].0) == Some(b[i].1) {
        assert (a + b)[|a| + i] == b[i];
      }
    }
  }

  /** The key names a node can carry are pairwise distinct. */
  lemma ReservedNames()
    ensures "type" != "properties" && "type" != "items" && "type" != "description" && "type" != "example"
    ensures "items" != "description" && "items" != "example" && "properties" != "items"
    ensures "properties" != "description" && "properties" != "example" && "description" != "example"
    ensures "$ref" != "type" && "$ref" != "properties" && "$ref" != "items"
    ensures "$ref" != "description" && "$ref" != "example"
  {
    assert "type"[0] == 't' && "properties"[0] == 'p' && "items"[0] == 'i';
    assert "description"[0] == 'd' && "example"[0] == 'e' && "$ref"[0] == '$';
  }

  /** A node without "$ref" is reified in place, one level of fuel down. */
  lemma PlainNode(node: Fields, defs: Fields, h: nat)
    requires "$ref" !in Keys(node)
    ensures Reify(JObj(node), JObj(defs), h + 1) == ReifyNode(JObj(node), JObj(defs), h)
  {
  }

  /** No inferred node has a "$ref" key: only the properties dict holds references. */
  lemma NoRefInSchema(e: Json, path: string)
    ensures "$ref" !in Keys(SchemaOf(e, path).fields)
  {
    ReservedNames();
  }

  lemma LookupSecond(a: string, b: string, x: Json, y: Json)
    requires a != b
    ensures Lookup([(a, x), (b, y)], b) == Some(y)
  {
    assert [(a, x), (b, y)][1..] == [(b, y)];
  }

  lemma LookupThird(a: string, b: string, c: string, x: Json, y: Json, z: Json)
    requires a != c && b != c
    ensures Lookup([(a, x), (b, y), (c, z)], c) == Some(z)
  {
    assert [(a, x), (b, y), (c, z)][1..] == [(b, y), (c, z)];
    LookupSecond(b, c, y, z);
  }

  /** An object node is reified through its properties, which are as many as
      the example's fields. */
  lemma ObjectSchemaReads(e: Json, path: string, defs: Json, g: nat)
    requires e.JObj? && NoDup(Keys(e.fields))
    ensures |InferPropsUpTo(e, |e.fields|, [], path).props| == |e.fields|
    ensures var r := ReifyProps(InferPropsUpTo(e, |e.fields|, [], path).props, |e.fields|, defs, g);
      r.Ok? ==> ReifyNode(SchemaOf(e, path), defs, g) == Ok(JObj(r.value))
  {
    var props := InferPropsUpTo(e, |e.fields|, [], path).props;
    PropsKeys(e, |e.fields|, [], path);
    ReservedNames();
    LookupSecond("type", "properties", JStr("object"), JObj(props));
  }

  /** An array node is reified through its items: the first element's node,
      or the string node for an empty list. */
  lemma ArraySchemaReads(e: Json, path: string, defs: Json, g: nat)
    requires e.JArr?
    ensures var items := if |e.elems| > 0 then SchemaOf(e.elems[0], path + "[]") else StringNode;
      var r := Reify(items, defs, g);
      r.Ok? ==> ReifyNode(SchemaOf(e, path), defs, g) == Ok(JArr([r.value]))
  {
    if |e.elems| > 0 {
      var items := SchemaOf(e.elems[0], path + "[]");
      assert SchemaOf(e, path) == JObj([("type", JStr("array")), ("items", items)]);
      ArrayNodeReads(items, defs, g);
    } else {
      assert SchemaOf(e, path) == JObj([("type", JStr("array")), ("items", StringNode)]);
      ArrayNodeReads(StringNode, defs, g);
    }
  }

  lemma ArrayNodeReads(items: Json, defs: Json, g: nat)
    ensures Reify(items, defs, g).Ok? ==>
      ReifyNode(JObj([("type", JStr("array")), ("items", items)]), defs, g) == Ok(JArr([Reify(items, defs, g).value]))
  {
    ReservedNames();
    LookupSecond("type", "items", JStr("array"), items);
  }

  /** A scalar's node gives the scalar back as its example. */
  lemma ScalarSchemaReads(e: Json, path: string, defs: Json, g: nat)
    requires !e.JObj? && !e.JArr?
    ensures ReifyNode(SchemaOf(e, path), defs, g) == Ok(e)
  {
    ReservedNames();
    LookupThird("type", "description", "example", JStr(InferType(e)), JStr("Description for " + path), e);
  }

  /** The string node of an empty list reifies to its placeholder. */
  lemma StringNodeReads(defs: Fields, h: nat)
    ensures Reify(StringNode, JObj(defs), h + 1) == Ok(JStr("string_example"))
  {
    ReservedNames();
    assert Keys(StringNode.fields)[0] == "type";
    assert "$ref" !in Keys(StringNode.fields);
  }

  /** A `$ref` to a name without '/' resolves to the table's entry for it. */
  lemma RefFieldReads(name: string, defs: Fields, h: nat)
    requires '/' !in name
    ensures Reify(RefTo(name), JObj(defs), h + 1) == ReifyNode(GetOr(defs, name, JObj([])), JObj(defs), h)
  {
    var ref := "#/definitions/" + name;
    assert ref == "#/definitions" + "/" + name;
    LastSegmentAfterSlash("#/definitions", name);
    OnlyKey("$ref", JStr(ref));
    RefReplacesNode(RefTo(name).fields, defs, h);
  }

  /** A non-dict field's node (its own node with description and example
      overwritten) reifies as that node does. */
  lemma FieldNodeReads(key: string, v: Json, path: string, defs: Fields, h: nat)
    requires !v.JObj?
    ensures Reify(FieldNode(key, v, path), JObj(defs), h + 1)
         == ReifyNode(SchemaOf(v, path + "." + key), JObj(defs), h)
  {
    var node := SchemaOf(v, path + "." + key).fields;
    var field := FieldNode(key, v, path).fields;
    FieldNodeShape(key, v, path);
    PlainNode(field, defs, h);
    if v.JArr? {
      SameArrayNode(field, node, JObj(defs), h);
    } else {
      ScalarSchemaReads(v, path + "." + key, JObj(defs), h);
      LeafNode(field, JObj(defs), h);
    }
  }

  /** What reification reads from a non-dict field's node is what it reads
      from the node inferred for the field's value, except that "example"
      is the value itself. */
  lemma FieldNodeShape(key: string, v: Json, path: string)
    requires !v.JObj?
    ensures var node := SchemaOf(v, path + "." + key).fields;
      var field := FieldNode(key, v, path);
      && field.JObj?
      && "$ref" !in Keys(field.fields)
      && GetOr(field.fields, "type", JNull) == GetOr(node, "type", JNull)
      && GetOr(field.fields, "items", JObj([])) == GetOr(node, "items", JObj([]))
      && Lookup(field.fields, "example") == Some(v)
  {
    var node := SchemaOf(v, path + "." + key).fields;
    var desc := JStr("Description for " + key);
    var withDesc := Put(node, "description", desc);
    ReservedNames();
    NoRefInSchema(v, path + "." + key);
    LookupPutOther(node, "description", desc, "$ref");
    LookupPutOther(withDesc, "example", v, "$ref");
    LookupPutOther(node, "description", desc, "type");
    LookupPutOther(withDesc, "example", v, "type");
    LookupPutOther(node, "description", desc, "items");
    LookupPutOther(withDesc, "example", v, "items");
  }

  /** Two array nodes with the same items reify alike. */
  lemma SameArrayNode(a: Fields, b: Fields, defs: Json, g: nat)
    requires GetOr(a, "type", JNull) == JStr("array") == GetOr(b, "type", JNull)
    requires GetOr(a, "items", JObj([])) == GetOr(b, "items", JObj([]))
    ensures ReifyNode(JObj(a), defs, g) == ReifyNode(JObj(b), defs, g)
  {
  }

  lemma {:induction false} CollapseKeys(obj: Json, k: nat)
    requires obj.JObj? && k <= |obj.fields|
    ensures Keys(CollapseUpTo(obj, k)) == Keys(obj.fields)[..k]
  {
    if k > 0 {
      var i: nat := k - 1;
      CollapseKeys(obj, i);
      KeysAppend(CollapseUpTo(obj, i), (obj.fields[i].0, Collapse(obj.fields[i].1)));
      KeysPrefix(obj.fields, i);
    }
  }

  /** The node inferred for a well-formed example reifies to the collapsed
      example, given a table that resolves every write the inference made
      and enough fuel for its nesting. */
  lemma {:induction false} NodeRoundTrip(e: Json, path: string, defs: Fields, g: nat)
    requires WellFormed(e) && Resolves(defs, Writes(e, path)) && g >= Depth(e)
    ensures ReifyNode(SchemaOf(e, path), JObj(defs), g) == Ok(Collapse(e))
    decreases e, 1
  {
    if e.JObj? {
      ObjectRoundTrip(e, path, defs, g);
    } else if e.JArr? {
      ArrayRoundTrip(e, path, defs, g);
    } else {
      ScalarSchemaReads(e, path, JObj(defs), g);
    }
  }

  lemma {:induction false} ObjectRoundTrip(e: Json, path: string, defs: Fields, g: nat)
    requires e.JObj? && WellFormed(e) && Resolves(defs, Writes(e, path)) && g >= Depth(e)
    ensures ReifyNode(SchemaOf(e, path), JObj(defs), g) == Ok(Collapse(e))
    decreases e, 0, |e.fields| + 1
  {
    var h: nat := g - 1;
    ObjectSchemaReads(e, path, JObj(defs), g);
    PropsRoundTrip(e, |e.fields|, path, defs, h);
  }

  lemma {:induction false} ArrayRoundTrip(e: Json, path: string, defs: Fields, g: nat)
    requires e.JArr? && WellFormed(e) && Resolves(defs, Writes(e, path)) && g >= Depth(e)
    ensures ReifyNode(SchemaOf(e, path), JObj(defs), g) == Ok(Collapse(e))
    decreases e, 0
  {
    var h: nat := g - 1;
    ArraySchemaReads(e, path, JObj(defs), g);
    if |e.elems| > 0 {
      var items := SchemaOf(e.elems[0], path + "[]");
      NoRefInSchema(e.elems[0], path + "[]");
      PlainNode(items.fields, defs, h);
      NodeRoundTrip(e.elems[0], path + "[]", defs, h);
    } else {
      StringNodeReads(defs, h);
    }
  }

  /** The same for one field of a dict, through its entry in "properties". */
  lemma {:induction false} FieldRoundTrip(key: string, v: Json, path: string, defs: Fields, h: nat)
    requires WellFormed(v) && Resolves(defs, FieldWrites(key, v, path)) && h >= Depth(v)
    ensures Reify(FieldNode(key, v, path), JObj(defs), h + 1) == Ok(Collapse(v))
    decreases v, 2
  {
    var nested := path + "." + key;
    FieldWritesResolve(key, v, path, defs);
    NodeRoundTrip(v, nested, defs, h);
    if v.JObj? {
      DictFieldReads(key, v, path, defs, h);
    } else {
      FieldNodeReads(key, v, path, defs, h);
    }
  }

  /** A dict field's `$ref` reifies as the hoisted node does. */
  lemma DictFieldReads(key: string, v: Json, path: string, defs: Fields, h: nat)
    requires v.JObj? && Resolves(defs, FieldWrites(key, v, path))
    ensures Reify(FieldNode(key, v, path), JObj(defs), h + 1)
         == ReifyNode(SchemaOf(v, path + "." + key), JObj(defs), h)
  {
    FieldWritesResolve(key, v, path, defs);
    RefFieldReads(Capitalize(key), defs, h);
  }

  /** A field's writes resolve when the nested value's do and, for a dict,
      the hoisted node is found under the field's capitalized key. */
  lemma FieldWritesResolve(key: string, v: Json, path: string, defs: Fields)
    requires Resolves(defs, FieldWrites(key, v, path))
    ensures Resolves(defs, Writes(v, path + "." + key))
    ensures v.JObj? ==>
      '/' !in Capitalize(key) && GetOr(defs, Capitalize(key), JObj([])) == SchemaOf(v, path + "." + key)
  {
    var nested := path + "." + key;
    var own := if v.JObj? then [(Capitalize(key), SchemaOf(v, nested))] else [];
    assert FieldWrites(key, v, path) == Writes(v, nested) + own;
    ResolvesAppend(defs, Writes(v, nested), own);
    if v.JObj? {
      assert own[0] == (Capitalize(key), SchemaOf(v, nested));
    }
  }

  /** The loop over the properties, after `k` iterations. */
  lemma {:induction false} PropsRoundTrip(obj: Json, k: nat, path: string, defs: Fields, h: nat)
    requires obj.JObj? && WellFormed(obj) && k <= |obj.fields|
    requires Resolves(defs, WritesUpTo(obj, k, path)) && h >= DepthUpTo(obj, k)
    ensures var props := InferPropsUpTo(obj, |obj.fields|, [], path).props;
      |props| == |obj.fields| && ReifyProps(props, k, JObj(defs), h + 1) == Ok(CollapseUpTo(obj, k))
    decreases obj, 0, k, 1
  {
    PropsKeys(obj, |obj.fields|, [], path);
    if k > 0 {
      var j: nat := k - 1;
      PropsRoundTripNext(obj, j, k, path, defs, h);
    }
  }

  lemma {:induction false} PropsRoundTripNext(obj: Json, j: nat, k: nat, path: string, defs: Fields, h: nat)
    requires obj.JObj? && WellFormed(obj) && k == j + 1 <= |obj.fields|
    requires Resolves(defs, WritesUpTo(obj, k, path)) && h >= DepthUpTo(obj, k)
    ensures var props := InferPropsUpTo(obj, |obj.fields|, [], path).props;
      |props| == |obj.fields| && ReifyProps(props, k, JObj(defs), h + 1) == Ok(CollapseUpTo(obj, k))
    decreases obj, 0, k, 0
  {
    var key, v := obj.fields[j].0, obj.fields[j].1;
    SplitPremises(obj, j, k, path, defs, h);
    PropsRoundTrip(obj, j, path, defs, h);
    FieldRoundTrip(key, v, path, defs, h);
    PropsRoundTripStep(obj, j, k, path, defs, h + 1);
  }

  /** The premises for `k = j + 1` iterations give those for the first `j`
      and for field `j`. */
  lemma SplitPremises(obj: Json, j: nat, k: nat, path: string, defs: Fields, h: nat)
    requires obj.JObj? && WellFormed(obj) && k == j + 1 <= |obj.fields|
    requires Resolves(defs, WritesUpTo(obj, k, path)) && h >= DepthUpTo(obj, k)
    ensures Resolves(defs, WritesUpTo(obj, j, path)) && h >= DepthUpTo(obj, j)
    ensures Resolves(defs, FieldWrites(obj.fields[j].0, obj.fields[j].1, path)) && h >= Depth(obj.fields[j].1)
    ensures WellFormed(obj.fields[j].1)
  {
    UpToUnfold(obj, j, k, path);
    ResolvesAppend(defs, WritesUpTo(obj, j, path), FieldWrites(obj.fields[j].0, obj.fields[j].1, path));
  }

  /** Iteration `k = j + 1` adds field `j`'s writes and depth. */
  lemma UpToUnfold(obj: Json, j: nat, k: nat, path: string)
    requires obj.JObj? && k == j + 1 <= |obj.fields|
    ensures WritesUpTo(obj, k, path) == WritesUpTo(obj, j, path) + FieldWrites(obj.fields[j].0, obj.fields[j].1, path)
    ensures DepthUpTo(obj, j) <= DepthUpTo(obj, k) && Depth(obj.fields[j].1) <= DepthUpTo(obj, k)
  {
  }

  lemma CollapseUnfold(obj: Json, j: nat, k: nat)
    requires obj.JObj? && k == j + 1 <= |obj.fields|
    ensures CollapseUpTo(obj, k) == CollapseUpTo(obj, j) + [(obj.fields[j].0, Collapse(obj.fields[j].1))]
  {
  }

  lemma PropsRoundTripStep(obj: Json, j: nat, k: nat, path: string, defs: Fields, g: nat)
    requires obj.JObj? && NoDup(Keys(obj.fields)) && k == j + 1 <= |obj.fields|
    requires var props := InferPropsUpTo(obj, |obj.fields|, [], path).props;
      |props| == |obj.fields| && ReifyProps(props, j, JObj(defs), g) == Ok(CollapseUpTo(obj, j))
    requires Reify(FieldNode(obj.fields[j].0, obj.fields[j].1, path), JObj(defs), g) == Ok(Collapse(obj.fields[j].1))
    ensures var props := InferPropsUpTo(obj, |obj.fields|, [], path).props;
      ReifyProps(props, k, JObj(defs), g) == Ok(CollapseUpTo(obj, k))
  {
    var props := InferPropsUpTo(obj, |obj.fields|, [], path).props;
    var key, v := obj.fields[j].0, obj.fields[j].1;
    PropsAt(obj, |obj.fields|, [], path, j);
    ReifyPropsUnfold(props, j, k, JObj(defs), g);
    var acc := CollapseUpTo(obj, j);
    CollapseUnfold(obj, j, k);
    CollapseKeys(obj, j);
    assert key !in Keys(acc) by {
      forall m | 0 <= m < j ensures Keys(acc)[m] != key {
        assert Keys(acc)[m] == Keys(obj.fields)[m];
        assert Keys(obj.fields)[j] == key;
      }
    }
    PutKeys(acc, key, Collapse(v));
  }

  // ---------------------------------------------------------------------
  // The whole round trip

  /** The names the root decoration adds differ from "$ref" and "properties". */
  lemma RootNames()
    ensures "$ref" != "$schema" && "$ref" != "title" && "$ref" != "definitions"
    ensures "properties" != "$schema" && "properties" != "title" && "properties" != "definitions"
  {
    assert "$ref"[1] == 'r' && "$schema"[1] == 's';
    assert "$ref"[0] == '$' && "title"[0] == 't' && "definitions"[0] == 'd';
    assert "properties"[0] == 'p' && "$schema"[0] == '$';
  }

  /** Two object nodes with the same "properties" reify alike. */
  lemma SameObjectNode(a: Fields, b: Fields, defs: Json, g: nat)
    requires GetOr(a, "type", JNull) == JStr("object") == GetOr(b, "type", JNull)
    requires GetOr(a, "properties", JObj([])) == GetOr(b, "properties", JObj([]))
    ensures ReifyNode(JObj(a), defs, g) == ReifyNode(JObj(b), defs, g)
  {
  }

  /** The decorated root has no "$ref" key. */
  lemma RootNoRef(x: Json)
    ensures FullSchema(x).JObj? && "$ref" !in Keys(FullSchema(x).fields)
  {
    FullSchemaKeys(x);
    NoRefShapeKeys(x);
    RefNotInDecorated(FullSchema(x).fields, ShapeKeys(x));
  }

  lemma NoRefShapeKeys(x: Json)
    ensures "$ref" !in ShapeKeys(x)
  {
    NoRefInSchema(x, "Root");
    ShapeKeysAreNodeKeys(x, "Root");
  }

  lemma RefNotInDecorated(fs: Fields, ks: seq<string>)
    requires Keys(fs) == ks + ["$schema", "title", "definitions"] && "$ref" !in ks
    ensures "$ref" !in Keys(fs)
  {
    RootNames();
    NotInAppend("$ref", ks, ["$schema", "title", "definitions"]);
  }

  lemma ShapeKeysAreNodeKeys(x: Json, path: string)
    ensures Keys(SchemaOf(x, path).fields) == ShapeKeys(x)
  {
  }

  lemma NotInAppend(k: string, a: seq<string>, b: seq<string>)
    requires k !in a && k !in b
    ensures k !in a + b
  {
  }

  /** The decoration leaves "properties" as the inferred node has it. */
  lemma RootProperties(x: Json)
    ensures FullSchema(x).JObj?
    ensures Lookup(FullSchema(x).fields, "properties") == Lookup(SchemaOf(x, "Root").fields, "properties")
  {
    var b := Infer(x, [], "Root");
    var s := b.node.fields;
    RootNames();
    assert "properties" != "type" by { ReservedNames(); }
    var f1 := Put(s, "$schema", JStr(Draft07));
    var f2 := Put(f1, "title", JStr("Generated Schema"));
    var f3 := Put(f2, "type", JStr("object"));
    LookupPutOther(s, "$schema", JStr(Draft07), "properties");
    LookupPutOther(f1, "title", JStr("Generated Schema"), "properties");
    LookupPutOther(f2, "type", JStr("object"), "properties");
    LookupPutOther(f3, "definitions", JObj(b.defs), "properties");
  }

  /** The first call reads the table from the root and goes straight to the
      root's node, which reifies as the node inferred for the example. */
  lemma RootReads(x: Json, h: nat)
    requires x.JObj?
    ensures Reify(FullSchema(x), JNull, h + 1)
         == ReifyNode(SchemaOf(x, "Root"), JObj(PutAll([], Writes(x, "Root"))), h)
  {
    var defs := JObj(PutAll([], Writes(x, "Root")));
    RootEntry(x, h);
    FullSchemaEntries(x);
    RootProperties(x);
    SameObjectNode(FullSchema(x).fields, SchemaOf(x, "Root").fields, defs, h);
  }

  /** The first call takes the root's "definitions" as its table and, the
      root having no "$ref", reifies the root node itself. */
  lemma RootEntry(x: Json, h: nat)
    ensures Reify(FullSchema(x), JNull, h + 1) == ReifyNode(FullSchema(x), JObj(PutAll([], Writes(x, "Root"))), h)
  {
    FullSchemaEntries(x);
    RootNoRef(x);
  }

  /** The table `generate_full_schema` leaves resolves every write when no
      name is written twice and no name holds a '/'. */
  lemma TableResolves(d: Fields, ws: Fields)
    requires NoDup(Keys(ws)) && forall i :: 0 <= i < |ws| ==> '/' !in ws[i].0
    ensures Resolves(PutAll(d, ws), ws)
  {
    forall i | 0 <= i < |ws| ensures Lookup(PutAll(d, ws), ws[i].0) == Some(ws[i].1) {
      WrittenOnce(d, ws, i);
    }
  }

  lemma WrittenOnce(d: Fields, ws: Fields, i: nat)
    requires NoDup(Keys(ws)) && i < |ws|
    ensures Lookup(PutAll(d, ws), ws[i].0) == Some(ws[i].1)
  {
    forall j | i < j < |ws| ensures ws[j].0 != ws[i].0 {
      assert Keys(ws)[j] != Keys(ws)[i];
    }
    PutAllWritten(d, ws, i);
  }

  /** Schema to example after example to schema: a dict example whose nested
      dicts are hoisted under distinct names without '/' comes back as its
      collapse, given one call more than its nesting depth. */
  lemma ExampleRoundTrip(x: Json, h: nat)
    requires x.JObj? && WellFormed(x)
    requires var ws := Writes(x, "Root");
      NoDup(Keys(ws)) && forall i :: 0 <= i < |ws| ==> '/' !in ws[i].0
    requires h >= Depth(x)
    ensures Reify(FullSchema(x), JNull, h + 1) == Ok(Collapse(x))
  {
    var ws := Writes(x, "Root");
    TableResolves([], ws);
    RootReads(x, h);
    NodeRoundTrip(x, "Root", PutAll([], ws), h);
  }

  /** A root that is not a dict still gets type "object" but no
      "properties", so it comes back as `{}`. */
  lemma NonDictRootIsEmpty(x: Json, h: nat)
    requires !x.JObj?
    ensures Reify(FullSchema(x), JNull, h + 1) == Ok(JObj([]))
  {
    var defs := JObj(PutAll([], Writes(x, "Root")));
    RootEntry(x, h);
    FullSchemaEntries(x);
    RootProperties(x);
    NoPropertiesKey(x);
    EmptyObjectNode(FullSchema(x).fields, defs, h);
  }

  /** Only a dict's node has "properties". */
  lemma NoPropertiesKey(x: Json)
    requires !x.JObj?
    ensures Lookup(SchemaOf(x, "Root").fields, "properties") == None
  {
    ShapeKeysAreNodeKeys(x, "Root");
    ReservedNames();
    assert "properties" !in ShapeKeys(x);
  }

  /** An object node without "properties" reifies to `{}`. */
  lemma EmptyObjectNode(fs: Fields, defs: Json, g: nat)
    requires Lookup(fs, "type") == Some(JStr("object")) && Lookup(fs, "properties") == None
    ensures ReifyNode(JObj(fs), defs, g) == Ok(JObj([]))
  {
  }
}

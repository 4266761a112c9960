/** Example to schema: `infer_type`, the recursive `generate_schema_from_example`
    with its shared, mutable definitions table, and the root decoration done by
    `generate_full_schema`. */
module SchemaInference {
  import opened JsonModel

  const Draft07: string := "http://json-schema.org/draft-07/schema#"

  /** `isinstance(v, int)`: Python's bool is a subclass of int. */
  predicate IsPyInt(v: Json) {
    v.JInt? || v.JBool?
  }

  /** `infer_type`. The int test comes before the bool test, so a boolean is
      classified "integer" and the "boolean" branch is never taken; the final
      fallback is unreachable for a JSON value. */
  function InferType(v: Json): (t: string)
    ensures t == "object" <==> v.JObj?
    ensures t == "array" <==> v.JArr?
    ensures t == "string" <==> v.JStr?
    ensures t == "integer" <==> v.JInt? || v.JBool?
    ensures t == "number" <==> v.JNum?
    ensures t == "null" <==> v.JNull?
    ensures t != "boolean"
  {
    if v.JObj? then "object"
    else if v.JArr? then "array"
    else if v.JStr? then "string"
    else if IsPyInt(v) then "integer"
    else if v.JNum? then "number"
    else if v.JBool? then "boolean"
    else if v.JNull? then "null"
    else "string"
  }

  /** The keys of the node one call builds for `e`, in the order it adds them. */
  function ShapeKeys(e: Json): seq<string> {
    if e.JObj? then ["type", "properties"]
    else if e.JArr? then ["type", "items"]
    else ["type", "description", "example"]
  }

  /** The node an empty list's items default to. */
  const StringNode: Json := JObj([("type", JStr("string"))])

  /** What one call returns, with the definitions table as it leaves it. */
  datatype Built = Built(node: Json, defs: Fields)

  /** The properties dict and the definitions table part-way through the loop
      over a dict's fields. */
  datatype Progress = Progress(props: Fields, defs: Fields)

  /** One call of `generate_schema_from_example(e, definitions, path)`: the node
      it returns and the definitions table as the call leaves it. */
  function Infer(e: Json, defs: Fields, path: string): (r: Built)
    ensures r.node.JObj? && Keys(r.node.fields) == ShapeKeys(e)
    ensures Lookup(r.node.fields, "type") == Some(JStr(InferType(e)))
    decreases e, 1
  {
    match e
    case JObj(fs) =>
      var acc := InferPropsUpTo(e, |fs|, defs, path);
      Built(JObj([("type", JStr("object")), ("properties", JObj(acc.props))]), acc.defs)
    case JArr(a) =>
      if |a| > 0 then
        var items := Infer(a[0], defs, path + "[]");
        Built(JObj([("type", JStr("array")), ("items", items.node)]), items.defs)
      else
        Built(JObj([("type", JStr("array")), ("items", StringNode)]), defs)
    case _ =>
      Built(JObj([("type", JStr(InferType(e))), ("description", JStr("Description for " + path)),
                  ("example", e)]), defs)
  }

  /** The loop over `example.items()` after its first `k` iterations: the
      properties dict built so far and the definitions table. */
  function InferPropsUpTo(obj: Json, k: nat, defs: Fields, path: string): (r: Progress)
    requires obj.JObj? && k <= |obj.fields|
    decreases obj, 0, k
  {
    if k == 0 then Progress([], defs)
    else
      var acc := InferPropsUpTo(obj, k - 1, defs, path);
      FieldStep(acc.props, acc.defs, obj.fields[k - 1].0, obj.fields[k - 1].1, path)
  }

  /** One iteration of that loop, from the properties dict and table so far. A
      dict-valued field is inferred first, then stored in the table under its
      capitalized key (so it overwrites whatever the nested call stored there)
      and replaced by a `$ref`; any other field gets its own node, whose
      description and example are then overwritten. */
  function FieldStep(props: Fields, defs: Fields, key: string, value: Json, path: string): (r: Progress)
    decreases value, 2
  {
    var sub := Infer(value, defs, path + "." + key);
    if value.JObj? then
      var refName := Capitalize(key);
      Progress(Put(props, key, RefTo(refName)), Put(sub.defs, refName, sub.node))
    else
      var node := Put(Put(sub.node.fields, "description", JStr("Description for " + key)), "example", value);
      Progress(Put(props, key, JObj(node)), sub.defs)
  }

  /** The node inferred for `e`, which does not depend on the table passed in
      (see InferIsWrites). */
  function SchemaOf(e: Json, path: string): Json {
    Infer(e, [], path).node
  }

  /** What the properties dict holds for field `key` with value `value`. */
  function FieldNode(key: string, value: Json, path: string): Json {
    if value.JObj? then RefTo(Capitalize(key))
    else
      var sub := SchemaOf(value, path + "." + key);
      JObj(Put(Put(sub.fields, "description", JStr("Description for " + key)), "example", value))
  }

  // ---------------------------------------------------------------------
  // The definitions table as a sequence of writes

  /** Applies the writes `ws` to the table `d` in order, each as `d[k] = v`. */
  function PutAll(d: Fields, ws: Fields): Fields
    decreases |ws|
  {
    if ws == [] then d else Put(PutAll(d, ws[..|ws| - 1]), ws[|ws| - 1].0, ws[|ws| - 1].1)
  }

  /** The writes one call makes to the definitions table, in the order it
      makes them: a nested dict's own writes come before the write of the
      nested dict itself. */
  function Writes(e: Json, path: string): Fields
    decreases e, 1
  {
    match e
    case JObj(fs) => WritesUpTo(e, |fs|, path)
    case JArr(a) => if |a| > 0 then Writes(a[0], path + "[]") else []
    case _ => []
  }

  function WritesUpTo(obj: Json, k: nat, path: string): Fields
    requires obj.JObj? && k <= |obj.fields|
    decreases obj, 0, k
  {
    if k == 0 then []
    else WritesUpTo(obj, k - 1, path) + FieldWrites(obj.fields[k - 1].0, obj.fields[k - 1].1, path)
  }

  /** The writes of one iteration of the loop over a dict's fields. */
  function FieldWrites(key: string, value: Json, path: string): Fields
    decreases value, 2
  {
    var nested := path + "." + key;
    Writes(value, nested) + (if value.JObj? then [(Capitalize(key), SchemaOf(value, nested))] else [])
  }

  lemma {:induction false} PutAllAppend(d: Fields, a: Fields, b: Fields)
    ensures PutAll(d, a + b) == PutAll(PutAll(d, a), b)
    decreases |b|
  {
    if b == [] {
      assert a + b == a;
    } else {
      var b' := b[..|b| - 1];
      assert (a + b)[..|a + b| - 1] == a + b';
      PutAllAppend(d, a, b');
    }
  }

  /** A table name that no write touches keeps its old entry. */
  lemma {:induction false} PutAllOther(d: Fields, ws: Fields, c: string)
    requires c !in Keys(ws)
    ensures Lookup(PutAll(d, ws), c) == Lookup(d, c)
    decreases |ws|
  {
    if ws != [] {
      var ws' := ws[..|ws| - 1];
      assert Keys(ws') == Keys(ws)[..|ws| - 1];
      assert Keys(ws)[|ws| - 1] == ws[|ws| - 1].0;
      PutAllOther(d, ws', c);
      LookupPutOther(PutAll(d, ws'), ws[|ws| - 1].0, ws[|ws| - 1].1, c);
    }
  }

  /** Writes never drop a name, and the names the table had keep their places. */
  lemma {:induction false} PutAllKeys(d: Fields, ws: Fields)
    ensures Keys(d) <= Keys(PutAll(d, ws))
    decreases |ws|
  {
    if ws != [] {
      var prev := PutAll(d, ws[..|ws| - 1]);
      PutAllKeys(d, ws[..|ws| - 1]);
      PutKeys(prev, ws[|ws| - 1].0, ws[|ws| - 1].1);
      if ws[|ws| - 1].0 !in Keys(prev) {
        assert Keys(prev + [ws[|ws| - 1]]) == Keys(prev) + [ws[|ws| - 1].0];
      }
    }
  }

  /** A write that no later write overrides survives to the end. */
  lemma {:induction false} PutAllWritten(d: Fields, ws: Fields, i: nat)
    requires i < |ws|
    requires forall j :: i < j < |ws| ==> ws[j].0 != ws[i].0
    ensures Lookup(PutAll(d, ws), ws[i].0) == Some(ws[i].1)
    decreases |ws|
  {
    var n := |ws| - 1;
    var ws' := ws[..n];
    if i < n {
      PutAllWritten(d, ws', i);
      LookupPutOther(PutAll(d, ws'), ws[n].0, ws[n].1, ws[i].0);
    }
  }

  // ---------------------------------------------------------------------
  // What a call returns and what it leaves in the table

  /** The node a call returns does not depend on the table it is given, and
      the table it leaves is the table it was given with the call's writes
      applied in order. */
  lemma {:induction false} InferIsWrites(e: Json, d: Fields, path: string)
    ensures Infer(e, d, path) == Built(SchemaOf(e, path), PutAll(d, Writes(e, path)))
    decreases e, 1
  {
    match e
    case JObj(fs) =>
      InferPropsIsWrites(e, |fs|, d, path);
    case JArr(a) =>
      if |a| > 0 {
        InferIsWrites(a[0], d, path + "[]");
        InferIsWrites(a[0], [], path + "[]");
      }
    case _ =>
  }

  lemma {:induction false} InferPropsIsWrites(obj: Json, k: nat, d: Fields, path: string)
    requires obj.JObj? && k <= |obj.fields|
    ensures InferPropsUpTo(obj, k, d, path).props == InferPropsUpTo(obj, k, [], path).props
    ensures InferPropsUpTo(obj, k, d, path).defs == PutAll(d, WritesUpTo(obj, k, path))
    decreases obj, 0, k, 1
  {
    if k > 0 {
      var j: nat := k - 1;
      InferPropsIsWrites(obj, j, d, path);
      InferPropsIsWrites(obj, j, [], path);
      InferPropsIsWritesStep(obj, j, k, d, path);
    }
  }

  /** The inductive step of InferPropsIsWrites, from `i` iterations to `k = i + 1`. */
  lemma InferPropsIsWritesStep(obj: Json, i: nat, k: nat, d: Fields, path: string)
    requires obj.JObj? && k == i + 1 <= |obj.fields|
    requires InferPropsUpTo(obj, i, d, path).props == InferPropsUpTo(obj, i, [], path).props
    requires InferPropsUpTo(obj, i, d, path).defs == PutAll(d, WritesUpTo(obj, i, path))
    requires InferPropsUpTo(obj, i, [], path).defs == PutAll([], WritesUpTo(obj, i, path))
    ensures InferPropsUpTo(obj, k, d, path).props == InferPropsUpTo(obj, k, [], path).props
    ensures InferPropsUpTo(obj, k, d, path).defs == PutAll(d, WritesUpTo(obj, k, path))
    decreases obj, 0, k, 0
  {
    var key, value := obj.fields[i].0, obj.fields[i].1;
    var props := InferPropsUpTo(obj, i, [], path).props;
    var w := WritesUpTo(obj, i, path);
    var fw := FieldWrites(key, value, path);
    PropsUnfold(obj, i, d, path);
    PropsUnfold(obj, i, [], path);
    FieldStepIsWrites(props, PutAll(d, w), key, value, path);
    FieldStepIsWrites(props, PutAll([], w), key, value, path);
    assert WritesUpTo(obj, i + 1, path) == w + fw;
    PutAllAppend(d, w, fw);
  }

  /** Iteration `i + 1` starts from what the first `i` iterations built. */
  lemma PropsUnfold(obj: Json, i: nat, d: Fields, path: string)
    requires obj.JObj? && i < |obj.fields|
    ensures var acc := InferPropsUpTo(obj, i, d, path);
      InferPropsUpTo(obj, i + 1, d, path) == FieldStep(acc.props, acc.defs, obj.fields[i].0, obj.fields[i].1, path)
  {
  }

  /** The same for one iteration: the properties dict it builds does not
      depend on the table, and the table it leaves is the old one with the
      iteration's writes applied. */
  lemma {:induction false} FieldStepIsWrites(props: Fields, d: Fields, key: string, value: Json, path: string)
    ensures FieldStep(props, d, key, value, path).props == FieldStep(props, [], key, value, path).props
    ensures FieldStep(props, d, key, value, path).defs == PutAll(d, FieldWrites(key, value, path))
    decreases value, 2
  {
    var nested := path + "." + key;
    InferIsWrites(value, d, nested);
    InferIsWrites(value, [], nested);
    if value.JObj? {
      var last := [(Capitalize(key), SchemaOf(value, nested))];
      PutAllAppend(d, Writes(value, nested), last);
      assert PutAll(PutAll(d, Writes(value, nested)), last)
          == Put(PutAll(d, Writes(value, nested)), Capitalize(key), SchemaOf(value, nested));
    } else {
      assert FieldWrites(key, value, path) == Writes(value, nested);
    }
  }

  /** For a dict with distinct keys, iteration `k = i + 1` appends field `i`'s
      node to the properties dict, given that the first `i` iterations used
      the first `i` keys. */
  lemma PropsStep(obj: Json, i: nat, k: nat, d: Fields, path: string)
    requires obj.JObj? && k == i + 1 <= |obj.fields| && NoDup(Keys(obj.fields))
    requires Keys(InferPropsUpTo(obj, i, d, path).props) == Keys(obj.fields)[..i]
    ensures InferPropsUpTo(obj, k, d, path).props
         == InferPropsUpTo(obj, i, d, path).props
            + [(obj.fields[i].0, FieldNode(obj.fields[i].0, obj.fields[i].1, path))]
  {
    var acc := InferPropsUpTo(obj, i, d, path);
    var props := acc.props;
    var key, value := obj.fields[i].0, obj.fields[i].1;
    PropsUnfold(obj, i, d, path);
    InferIsWrites(value, acc.defs, path + "." + key);
    var x := FieldNode(key, value, path);
    assert InferPropsUpTo(obj, k, d, path).props == Put(props, key, x);
    assert key !in Keys(props) by {
      forall j | 0 <= j < i ensures Keys(props)[j] != key {
        assert Keys(props)[j] == Keys(obj.fields)[j];
        assert Keys(obj.fields)[i] == key;
      }
    }
    PutKeys(props, key, x);
  }

  /** For a dict with distinct keys, the properties dict built by the first
      `k` iterations has the first `k` keys of the example, in order. */
  lemma {:induction false} PropsKeys(obj: Json, k: nat, d: Fields, path: string)
    requires obj.JObj? && k <= |obj.fields| && NoDup(Keys(obj.fields))
    ensures Keys(InferPropsUpTo(obj, k, d, path).props) == Keys(obj.fields)[..k]
  {
    if k > 0 {
      var i: nat := k - 1;
      PropsKeys(obj, i, d, path);
      PropsStep(obj, i, k, d, path);
      KeysAppend(InferPropsUpTo(obj, i, d, path).props, (obj.fields[i].0, FieldNode(obj.fields[i].0, obj.fields[i].1, path)));
      KeysPrefix(obj.fields, i);
    }
  }

  /** ... and entry `i` holds the field node for the example's `i`-th field. */
  lemma {:induction false} PropsAt(obj: Json, k: nat, d: Fields, path: string, i: nat)
    requires obj.JObj? && i < k <= |obj.fields| && NoDup(Keys(obj.fields))
    ensures |InferPropsUpTo(obj, k, d, path).props| == k
    ensures InferPropsUpTo(obj, k, d, path).props[i]
         == (obj.fields[i].0, FieldNode(obj.fields[i].0, obj.fields[i].1, path))
  {
    var j: nat := k - 1;
    PropsKeys(obj, j, d, path);
    PropsStep(obj, j, k, d, path);
    var pj := InferPropsUpTo(obj, j, d, path).props;
    var x := (obj.fields[j].0, FieldNode(obj.fields[j].0, obj.fields[j].1, path));
    assert |pj| == j;
    if i < j {
      PropsAt(obj, j, d, path, i);
      assert (pj + [x])[i] == pj[i];
    } else {
      assert i == j;
      assert (pj + [x])[j] == x;
    }
  }

  /** The properties of an object node: exactly the example's keys, in the
      example's order; a dict-valued field is a `$ref` to its capitalized key,
      any other field its own node with description "Description for <key>"
      and the field's value as example. */
  lemma ObjectProperties(fs: Fields, d: Fields, path: string)
    requires NoDup(Keys(fs))
    ensures var p := Lookup(Infer(JObj(fs), d, path).node.fields, "properties");
      && p.Some? && p.value.JObj?
      && Keys(p.value.fields) == Keys(fs)
      && (forall i :: 0 <= i < |fs| && fs[i].1.JObj? ==>
            p.value.fields[i].1 == RefTo(Capitalize(fs[i].0)))
      && (forall i :: 0 <= i < |fs| && !fs[i].1.JObj? ==>
            var field := p.value.fields[i].1;
            && field.JObj?
            && Lookup(field.fields, "type") == Some(JStr(InferType(fs[i].1)))
            && Lookup(field.fields, "description") == Some(JStr("Description for " + fs[i].0))
            && Lookup(field.fields, "example") == Some(fs[i].1))
  {
    var obj := JObj(fs);
    PropsKeys(obj, |fs|, d, path);
    var props := InferPropsUpTo(obj, |fs|, d, path).props;
    assert Lookup(Infer(obj, d, path).node.fields, "properties") == Some(JObj(props));
    forall i | 0 <= i < |fs| ensures props[i].1 == FieldNode(fs[i].0, fs[i].1, path) {
      PropsAt(obj, |fs|, d, path, i);
    }
    forall i | 0 <= i < |fs| && !fs[i].1.JObj?
      ensures var field := props[i].1;
        && field.JObj?
        && Lookup(field.fields, "type") == Some(JStr(InferType(fs[i].1)))
        && Lookup(field.fields, "description") == Some(JStr("Description for " + fs[i].0))
        && Lookup(field.fields, "example") == Some(fs[i].1)
    {
      var sub := SchemaOf(fs[i].1, path + "." + fs[i].0);
      var withDesc := Put(sub.fields, "description", JStr("Description for " + fs[i].0));
      LookupPutOther(sub.fields, "description", JStr("Description for " + fs[i].0), "type");
      LookupPutOther(withDesc, "example", fs[i].1, "type");
      LookupPutOther(withDesc, "example", fs[i].1, "description");
    }
  }

  /** Right after the iteration for a dict-valued field, the table maps the
      field's capitalized key to the node inferred for the nested dict, even
      when the nested call itself stored something under the same name: the
      outer write comes last. */
  lemma DictFieldHoisted(obj: Json, i: nat, d: Fields, path: string)
    requires obj.JObj? && i < |obj.fields| && obj.fields[i].1.JObj?
    ensures Lookup(InferPropsUpTo(obj, i + 1, d, path).defs, Capitalize(obj.fields[i].0))
         == Some(SchemaOf(obj.fields[i].1, path + "." + obj.fields[i].0))
  {
    var dk := InferPropsUpTo(obj, i, d, path).defs;
    InferIsWrites(obj.fields[i].1, dk, path + "." + obj.fields[i].0);
  }

  /** A call never drops a name from the table, and a name it does not write
      keeps its entry. */
  lemma DefinitionsOnlyGrow(e: Json, d: Fields, path: string, c: string)
    ensures Keys(d) <= Keys(Infer(e, d, path).defs)
    ensures c !in Keys(Writes(e, path)) ==> Lookup(Infer(e, d, path).defs, c) == Lookup(d, c)
  {
    InferIsWrites(e, d, path);
    PutAllKeys(d, Writes(e, path));
    if c !in Keys(Writes(e, path)) {
      PutAllOther(d, Writes(e, path), c);
    }
  }

  /** An array's node looks at element 0 only: the rest of the list never
      changes the node or the table, and a dict element stays inline. */
  lemma ArrayUsesFirstElementOnly(x: Json, rest1: seq<Json>, rest2: seq<Json>, d: Fields, path: string)
    ensures Infer(JArr([x] + rest1), d, path) == Infer(JArr([x] + rest2), d, path)
    ensures var items := Lookup(Infer(JArr([x] + rest1), d, path).node.fields, "items");
      items == Some(Infer(x, d, path + "[]").node)
      && (x.JObj? ==> Lookup(items.value.fields, "type") == Some(JStr("object")))
    ensures Lookup(Infer(JArr([]), d, path).node.fields, "items") == Some(StringNode)
  {
  }

  /** `generate_full_schema` after loading: the call's node with "$schema",
      "title", "type" and "definitions" set, whatever the root's kind (see
      FullSchemaKeys and FullSchemaEntries). */
  function FullSchema(example: Json): Json {
    var b := Infer(example, [], "Root");
    JObj(Decorate(b.node.fields, b.defs))
  }

  /** The four assignments made to the root node. */
  function Decorate(root: Fields, defs: Fields): Fields {
    Put(Put(Put(Put(root, "$schema", JStr(Draft07)), "title", JStr("Generated Schema")),
      "type", JStr("object")), "definitions", JObj(defs))
  }

  /** The root keeps the keys of the node inferred for the example, then gains
      "$schema", "title" and "definitions", in that order ("type" is already
      there and keeps its place). */
  lemma FullSchemaKeys(example: Json)
    ensures FullSchema(example).JObj?
    ensures Keys(FullSchema(example).fields) == ShapeKeys(example) + ["$schema", "title", "definitions"]
  {
    var b := Infer(example, [], "Root");
    var s, defs := b.node, b.defs;
    ShapeKeysReserved(example);
    assert Keys(s.fields)[0] == "type";
    DecorateKeys(s.fields, defs);
  }

  lemma DecorateKeys(root: Fields, defs: Fields)
    requires |root| > 0 && root[0].0 == "type"
    requires "$schema" !in Keys(root) && "title" !in Keys(root) && "definitions" !in Keys(root)
    ensures Keys(Decorate(root, defs)) == Keys(root) + ["$schema", "title", "definitions"]
  {
    var f1 := Put(root, "$schema", JStr(Draft07));
    PutNewKey(root, "$schema", JStr(Draft07));
    var f2 := Put(f1, "title", JStr("Generated Schema"));
    assert "title" !in Keys(f1);
    PutNewKey(f1, "title", JStr("Generated Schema"));
    var f3 := Put(f2, "type", JStr("object"));
    assert Keys(f2)[0] == "type";
    PutKeys(f2, "type", JStr("object"));
    assert "definitions" !in Keys(f3);
    PutNewKey(f3, "definitions", JObj(defs));
    AppendThree(Keys(root), "$schema", "title", "definitions");
  }

  /** The root declares draft-07, is titled "Generated Schema", has type
      "object" even when the example is not a dict, and carries the
      definitions table as the example's writes leave it. */
  lemma FullSchemaEntries(example: Json)
    ensures FullSchema(example).JObj?
    ensures Lookup(FullSchema(example).fields, "$schema") == Some(JStr(Draft07))
    ensures Lookup(FullSchema(example).fields, "title") == Some(JStr("Generated Schema"))
    ensures Lookup(FullSchema(example).fields, "type") == Some(JStr("object"))
    ensures Lookup(FullSchema(example).fields, "definitions") == Some(JObj(PutAll([], Writes(example, "Root"))))
  {
    var b := Infer(example, [], "Root");
    var s, defs := b.node, b.defs;
    InferIsWrites(example, [], "Root");
    var f1 := Put(s.fields, "$schema", JStr(Draft07));
    var f2 := Put(f1, "title", JStr("Generated Schema"));
    var f3 := Put(f2, "type", JStr("object"));
    LookupPutOther(f1, "title", JStr("Generated Schema"), "$schema");
    LookupPutOther(f2, "type", JStr("object"), "$schema");
    LookupPutOther(f2, "type", JStr("object"), "title");
    LookupPutOther(f3, "definitions", JObj(defs), "$schema");
    LookupPutOther(f3, "definitions", JObj(defs), "title");
    LookupPutOther(f3, "definitions", JObj(defs), "type");
  }

  /** The keys the root decoration adds are not keys of any node. */
  lemma ShapeKeysReserved(e: Json)
    ensures |ShapeKeys(e)| > 0 && ShapeKeys(e)[0] == "type"
    ensures "$schema" !in ShapeKeys(e) && "title" !in ShapeKeys(e) && "definitions" !in ShapeKeys(e)
  {
  }

  /** The definitions table `generate_full_schema` creates and hands down the
      recursion; every call writes into the same object. */
  class DefinitionsTable {
    var entries: Fields

    constructor ()
      ensures entries == []
    {
      entries := [];
    }
  }

  /** `generate_schema_from_example`, writing into the shared table. */
  method GenerateSchema(example: Json, definitions: DefinitionsTable, path: string) returns (schema: Json)
    modifies definitions
    ensures Built(schema, definitions.entries) == Infer(example, old(definitions.entries), path)
    decreases example, 2
  {
    var t := InferType(example);
    if t == "object" {
      var props := GenerateProperties(example, definitions, path);
      schema := JObj([("type", JStr(t)), ("properties", JObj(props))]);
    } else if t == "array" {
      if |example.elems| > 0 {
        var items := GenerateSchema(example.elems[0], definitions, path + "[]");
        schema := JObj([("type", JStr(t)), ("items", items)]);
      } else {
        schema := JObj([("type", JStr(t)), ("items", StringNode)]);
      }
    } else {
      schema := JObj([("type", JStr(t)), ("description", JStr("Description for " + path)),
                      ("example", example)]);
    }
  }

  /** The loop over `example.items()` that fills `schema["properties"]`. */
  method GenerateProperties(example: Json, definitions: DefinitionsTable, path: string) returns (props: Fields)
    requires example.JObj?
    modifies definitions
    ensures Progress(props, definitions.entries) == InferPropsUpTo(example, |example.fields|, old(definitions.entries), path)
    decreases example, 1
  {
    var fs := example.fields;
    props := [];
    var i := 0;
    while i < |fs|
      invariant 0 <= i <= |fs|
      invariant Progress(props, definitions.entries) == InferPropsUpTo(example, i, old(definitions.entries), path)
    {
      PropsUnfold(example, i, old(definitions.entries), path);
      props := GenerateField(fs[i].0, fs[i].1, definitions, path, props);
      i := i + 1;
    }
  }

  /** The body of that loop for one `key, value` pair. */
  method GenerateField(key: string, value: Json, definitions: DefinitionsTable, path: string, props: Fields)
    returns (props': Fields)
    modifies definitions
    ensures Progress(props', definitions.entries) == FieldStep(props, old(definitions.entries), key, value, path)
    decreases value, 3
  {
    var nestedPath := path + "." + key;
    if value.JObj? {
      var refName := Capitalize(key);
      var sub := GenerateSchema(value, definitions, nestedPath);
      definitions.entries := Put(definitions.entries, refName, sub);
      props' := Put(props, key, RefTo(refName));
    } else {
      var sub := GenerateSchema(value, definitions, nestedPath);
      var node := sub.fields;
      node := Put(node, "description", JStr("Description for " + key));
      node := Put(node, "example", value);
      props' := Put(props, key, JObj(node));
    }
  }

  /** `generate_full_schema` between loading and saving. */
  method GenerateFullSchema(example: Json) returns (schema: Json)
    ensures schema == FullSchema(example)
  {
    var definitions := new DefinitionsTable();
    var s := GenerateSchema(example, definitions, "Root");
    var fs := s.fields;
    fs := Put(fs, "$schema", JStr(Draft07));
    fs := Put(fs, "title", JStr("Generated Schema"));
    fs := Put(fs, "type", JStr("object"));
    fs := Put(fs, "definitions", JObj(definitions.entries));
    schema := JObj(fs);
  }
}

/** Schema to example: `generate_example_from_schema`, a recursive function
    from a schema to a value that resolves `$ref` through a definitions table
    and falls back to fixed placeholders at the leaves. */
module Reification {
  import opened JsonModel

  /** Python's recursion limit, which a `$ref` cycle reaches, is modelled by
      `fuel`: every call consumes one unit and a call made with none left
      raises RecursionError. `definitions` is `JNull` where Python's is
      `None`; a call made without a table takes the schema's own
      "definitions" entry (default `{}`). */
  function Reify(schema: Json, definitions: Json, fuel: nat): (r: Result<Json>)
    decreases fuel, 0
  {
    if fuel == 0 then Err(RecursionError)
    else
      var table := if definitions.JNull? then Get(schema, "definitions", JObj([])) else Ok(definitions);
      match table
      case Err(e) => Err(e)
      case Ok(defs) =>
        match Contains(schema, "$ref")
        case Err(e) => Err(e)
        case Ok(hasRef) =>
          if hasRef then
            match Resolve(schema, defs)
            case Err(e) => Err(e)
            case Ok(target) => ReifyNode(target, defs, fuel - 1)
          else ReifyNode(schema, defs, fuel - 1)
  }

  /** `definitions.get(schema["$ref"].split("/")[-1], {})`: a reference is
      looked up by what follows its last '/'; the prefix is never checked. */
  function Resolve(schema: Json, defs: Json): (r: Result<Json>)
    ensures !schema.JObj? ==> r == Err(TypeError)
    ensures schema.JObj? && "$ref" !in Keys(schema.fields) ==> r == Err(KeyError)
    ensures schema.JObj? && "$ref" in Keys(schema.fields) ==>
      var ref := Lookup(schema.fields, "$ref").value;
      && (!ref.JStr? ==> r == Err(AttributeError))
      && (ref.JStr? && !defs.JObj? ==> r == Err(AttributeError))
      && (ref.JStr? && defs.JObj? ==>
            var name := LastSegment(ref.s);
            r == Ok(if name in Keys(defs.fields) then Lookup(defs.fields, name).value else JObj([])))
  {
    match Index(schema, "$ref")
    case Err(e) => Err(e)
    case Ok(ref) =>
      if ref.JStr? then Get(defs, LastSegment(ref.s), JObj([])) else Err(AttributeError)
  }

  /** The body after resolution: object, array, or leaf, by the node's "type". */
  function ReifyNode(node: Json, defs: Json, fuel: nat): (r: Result<Json>)
    decreases fuel, 2
  {
    if !node.JObj? then Err(AttributeError)
    else
      var t := GetOr(node.fields, "type", JNull);
      if t == JStr("object") then
        var props := GetOr(node.fields, "properties", JObj([]));
        if !props.JObj? then Err(AttributeError)
        else
          match ReifyProps(props.fields, |props.fields|, defs, fuel)
          case Err(e) => Err(e)
          case Ok(fs) => Ok(JObj(fs))
      else if t == JStr("array") then
        match Reify(GetOr(node.fields, "items", JObj([])), defs, fuel)
        case Err(e) => Err(e)
        case Ok(v) => Ok(JArr([v]))
      else Ok(Leaf(node.fields))
  }

  /** A node that is neither an object nor an array: its "example" verbatim,
      or a placeholder chosen by its "type". */
  function Leaf(node: Fields): (r: Json)
    ensures "example" in Keys(node) ==> r == Lookup(node, "example").value
    ensures "example" !in Keys(node) ==>
      r == match GetOr(node, "type", JNull)
           case JStr("string") => JStr("string_example")
           case JStr("integer") => JInt(123)
           case JStr("number") => JNum("123.45")
           case JStr("boolean") => JBool(true)
           case _ => JNull
  {
    var t := GetOr(node, "type", JNull);
    if "example" in Keys(node) then GetOr(node, "example", JNull)
    else if t == JStr("string") then JStr("string_example")
    else if t == JStr("integer") then JInt(123)
    else if t == JStr("number") then JNum("123.45")
    else if t == JStr("boolean") then JBool(true)
    else JNull
  }

  /** The loop over `properties.items()` after its first `k` iterations: the
      example dict built so far, or the first exception raised. */
  function ReifyProps(props: Fields, k: nat, defs: Json, fuel: nat): (r: Result<Fields>)
    requires k <= |props|
    decreases fuel, 1, k
  {
    if k == 0 then Ok([])
    else
      match ReifyProps(props, k - 1, defs, fuel)
      case Err(e) => Err(e)
      case Ok(acc) =>
        match Reify(props[k - 1].1, defs, fuel)
        case Err(e) => Err(e)
        case Ok(v) => Ok(Put(acc, props[k - 1].0, v))
  }

  // ---------------------------------------------------------------------
  // Properties

  /** Iteration `k = j + 1` of the loop over the properties. */
  lemma ReifyPropsUnfold(props: Fields, j: nat, k: nat, defs: Json, fuel: nat)
    requires k == j + 1 <= |props|
    ensures ReifyProps(props, j, defs, fuel).Ok? && Reify(props[j].1, defs, fuel).Ok? ==>
      ReifyProps(props, k, defs, fuel)
        == Ok(Put(ReifyProps(props, j, defs, fuel).value, props[j].0, Reify(props[j].1, defs, fuel).value))
  {
  }

  /** The first call reads the table from the root's "definitions" entry
      (`{}` when there is none); a table that is passed in is used as is. */
  lemma DefinitionsFromRoot(fs: Fields, fuel: nat)
    requires fuel > 0
    ensures "definitions" !in Keys(fs) ==> Reify(JObj(fs), JNull, fuel) == Reify(JObj(fs), JObj([]), fuel)
    ensures "definitions" in Keys(fs) && !Lookup(fs, "definitions").value.JNull? ==>
      Reify(JObj(fs), JNull, fuel) == Reify(JObj(fs), Lookup(fs, "definitions").value, fuel)
  {
  }

  /** A node with a string "$ref" is replaced wholesale by the definition
      named after the reference's last '/': its other keys are ignored. */
  lemma RefReplacesNode(fs: Fields, defs: Fields, fuel: nat)
    requires "$ref" in Keys(fs) && Lookup(fs, "$ref").value.JStr?
    ensures Reify(JObj(fs), JObj(defs), fuel + 1)
         == ReifyNode(GetOr(defs, LastSegment(Lookup(fs, "$ref").value.s), JObj([])), JObj(defs), fuel)
    ensures Reify(JObj(fs), JObj(defs), fuel + 1)
         == Reify(JObj([("$ref", Lookup(fs, "$ref").value)]), JObj(defs), fuel + 1)
  {
    var ref := Lookup(fs, "$ref").value;
    var only := [("$ref", ref)];
    assert Keys(only)[0] == "$ref";
    assert Lookup(only, "$ref") == Some(ref);
    RefNode(fs, defs, fuel);
    RefNode(only, defs, fuel);
  }

  lemma RefNode(fs: Fields, defs: Fields, fuel: nat)
    requires "$ref" in Keys(fs) && Lookup(fs, "$ref").value.JStr?
    ensures Reify(JObj(fs), JObj(defs), fuel + 1)
         == ReifyNode(GetOr(defs, LastSegment(Lookup(fs, "$ref").value.s), JObj([])), JObj(defs), fuel)
  {
    var target := GetOr(defs, LastSegment(Lookup(fs, "$ref").value.s), JObj([]));
    assert Resolve(JObj(fs), JObj(defs)) == Ok(target);
    ReifyRef(fs, defs, fuel);
  }

  /** One call on a dict with a "$ref" key, given a table. */
  lemma ReifyRef(fs: Fields, defs: Fields, fuel: nat)
    requires "$ref" in Keys(fs)
    ensures Resolve(JObj(fs), JObj(defs)).Ok? ==>
      Reify(JObj(fs), JObj(defs), fuel + 1) == ReifyNode(Resolve(JObj(fs), JObj(defs)).value, JObj(defs), fuel)
  {
  }

  /** A reference to a name the table does not hold reifies to null: the
      empty dict it falls back to has neither "type" nor "example". */
  lemma MissingDefinitionIsNull(ref: string, defs: Fields, fuel: nat)
    requires LastSegment(ref) !in Keys(defs)
    ensures Reify(JObj([("$ref", JStr(ref))]), JObj(defs), fuel + 1) == Ok(JNull)
  {
    var only := [("$ref", JStr(ref))];
    OnlyKey("$ref", JStr(ref));
    var empty: Fields := [];
    assert GetOr(defs, LastSegment(ref), JObj([])) == JObj(empty);
    RefReplacesNode(only, defs, fuel);
    UntypedIsNull(empty, JObj(defs), fuel);
  }

  /** References are followed once: a definition that is itself only a
      `$ref` reifies to null, whatever it points to. */
  lemma RefToBareRefIsNull(ref: string, defs: Fields, fuel: nat)
    requires LastSegment(ref) in Keys(defs)
    requires var def := Lookup(defs, LastSegment(ref)).value; def.JObj? && Keys(def.fields) == ["$ref"]
    ensures Reify(JObj([("$ref", JStr(ref))]), JObj(defs), fuel + 1) == Ok(JNull)
  {
    var only := [("$ref", JStr(ref))];
    OnlyKey("$ref", JStr(ref));
    var inner := Lookup(defs, LastSegment(ref)).value.fields;
    BareRefUntyped(inner);
    RefReplacesNode(only, defs, fuel);
    UntypedIsNull(inner, JObj(defs), fuel);
  }

  lemma BareRefUntyped(inner: Fields)
    requires Keys(inner) == ["$ref"]
    ensures "type" !in Keys(inner) && "example" !in Keys(inner)
  {
    assert "type"[0] != "$ref"[0];
  }

  /** A one-entry dict holds its key and nothing else. */
  lemma OnlyKey(k: string, v: Json)
    ensures Keys([(k, v)]) == [k]
    ensures Lookup([(k, v)], k) == Some(v)
  {
    assert Keys([(k, v)])[0] == k;
  }

  /** A node with neither "type" nor "example" is a null leaf. */
  lemma UntypedIsNull(fs: Fields, defs: Json, fuel: nat)
    requires "type" !in Keys(fs) && "example" !in Keys(fs)
    ensures ReifyNode(JObj(fs), defs, fuel) == Ok(JNull)
  {
    assert GetOr(fs, "type", JNull) == JNull;
  }

  /** An array node always yields a one-element list; without "items" the
      element is null. */
  lemma ArrayYieldsOneElement(fs: Fields, defs: Json, fuel: nat)
    requires GetOr(fs, "type", JNull) == JStr("array")
    ensures ReifyNode(JObj(fs), defs, fuel).Ok? ==>
      ReifyNode(JObj(fs), defs, fuel) == Ok(JArr([Reify(GetOr(fs, "items", JObj([])), defs, fuel).value]))
    ensures "items" !in Keys(fs) ==> ReifyNode(JObj(fs), defs, fuel + 1) == Ok(JArr([JNull]))
  {
    if "items" !in Keys(fs) {
      var empty: Fields := [];
      assert GetOr(fs, "items", JObj([])) == JObj(empty);
      assert Contains(JObj(empty), "$ref") == Ok(false);
      UntypedIsNull(empty, defs, fuel);
      assert Reify(JObj(empty), defs, fuel + 1) == Ok(JNull);
    }
  }

  /** A leaf (any "type" but "object" and "array") yields its "example"
      verbatim, or its type's placeholder. */
  lemma LeafNode(fs: Fields, defs: Json, fuel: nat)
    requires GetOr(fs, "type", JNull) != JStr("object") && GetOr(fs, "type", JNull) != JStr("array")
    ensures ReifyNode(JObj(fs), defs, fuel) == Ok(Leaf(fs))
  {
  }

  /** An object node yields a dict with exactly the declared property names,
      in declaration order, each reified with the same table; without
      "properties" it yields `{}`. */
  lemma ObjectYieldsProperties(fs: Fields, defs: Json, fuel: nat)
    requires GetOr(fs, "type", JNull) == JStr("object")
    ensures "properties" !in Keys(fs) ==> ReifyNode(JObj(fs), defs, fuel) == Ok(JObj([]))
    ensures var props := GetOr(fs, "properties", JObj([]));
      props.JObj? && NoDup(Keys(props.fields)) && ReifyNode(JObj(fs), defs, fuel).Ok? ==>
        var r := ReifyNode(JObj(fs), defs, fuel).value;
        && r.JObj?
        && Keys(r.fields) == Keys(props.fields)
        && forall i :: 0 <= i < |props.fields| ==>
             Reify(props.fields[i].1, defs, fuel) == Ok(r.fields[i].1)
  {
    var props := GetOr(fs, "properties", JObj([]));
    if props.JObj? && NoDup(Keys(props.fields)) && ReifyNode(JObj(fs), defs, fuel).Ok? {
      var ps := props.fields;
      PropsReified(ps, |ps|, defs, fuel);
    }
  }

  /** The loop over the properties: when it completes, the dict it built has
      the first `k` names, each holding its reified value. */
  lemma {:induction false} PropsReified(props: Fields, k: nat, defs: Json, fuel: nat)
    requires k <= |props| && NoDup(Keys(props))
    ensures ReifyProps(props, k, defs, fuel).Ok? ==>
      var acc := ReifyProps(props, k, defs, fuel).value;
      && Keys(acc) == Keys(props)[..k]
      && forall i :: 0 <= i < k ==> Reify(props[i].1, defs, fuel) == Ok(acc[i].1)
  {
    if k > 0 && ReifyProps(props, k, defs, fuel).Ok? {
      var j: nat := k - 1;
      PropsReified(props, j, defs, fuel);
      PropsReifiedStep(props, j, k, defs, fuel);
    }
  }

  lemma PropsReifiedStep(props: Fields, j: nat, k: nat, defs: Json, fuel: nat)
    requires k == j + 1 <= |props| && NoDup(Keys(props))
    requires ReifyProps(props, k, defs, fuel).Ok?
    requires ReifyProps(props, j, defs, fuel).Ok? ==>
      var acc := ReifyProps(props, j, defs, fuel).value;
      && Keys(acc) == Keys(props)[..j]
      && forall i :: 0 <= i < j ==> Reify(props[i].1, defs, fuel) == Ok(acc[i].1)
    ensures var acc := ReifyProps(props, k, defs, fuel).value;
      && Keys(acc) == Keys(props)[..k]
      && forall i :: 0 <= i < k ==> Reify(props[i].1, defs, fuel) == Ok(acc[i].1)
  {
    var prev := ReifyProps(props, j, defs, fuel).value;
    var v := Reify(props[j].1, defs, fuel).value;
    var key := props[j].0;
    assert ReifyProps(props, k, defs, fuel).value == Put(prev, key, v);
    assert key !in Keys(prev) by {
      forall m | 0 <= m < j ensures Keys(prev)[m] != key {
        assert Keys(prev)[m] == Keys(props)[m];
        assert Keys(props)[j] == key;
      }
    }
    PutKeys(prev, key, v);
    KeysAppend(prev, (key, v));
    KeysPrefix(props, j);
    var acc := prev + [(key, v)];
    forall i | 0 <= i < k ensures Reify(props[i].1, defs, fuel) == Ok(acc[i].1) {
      if i < j {
        assert acc[i] == prev[i];
      } else {
        assert i == j;
      }
    }
  }
}

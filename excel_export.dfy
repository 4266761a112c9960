/** Schema to spreadsheet: `process_object` flattens an object schema's
    "properties" into rows of seven columns, and the workbook holds the
    root's sheet followed by one sheet per definition. */
module ExcelExport {
  import opened JsonModel

  /** One row as `process_object` builds it. Every cell but "Field Name" and
      "Enum" is copied from the field's schema, so it may hold any value. */
  datatype SheetRow = SheetRow(
    fieldName: string,
    typ: Json,
    format: Json,
    description: Json,
    example: Json,
    enumText: string,
    ref: Json)

  /** A sheet of the workbook: its name (the schema's "title" may be any
      value) and its rows. */
  datatype Sheet = Sheet(name: Json, rows: seq<SheetRow>)

  const Columns: seq<string> := ["Field Name", "Type", "Format", "Description", "Example", "Enum", "$ref:"]

  /** The row as the dict that becomes a line of the sheet. */
  function RowDict(r: SheetRow): (d: Fields)
    ensures Keys(d) == Columns
    ensures forall i :: 0 <= i < |d| ==> d[i].0 == Columns[i]
  {
    [("Field Name", JStr(r.fieldName)), ("Type", r.typ), ("Format", r.format),
     ("Description", r.description), ("Example", r.example), ("Enum", JStr(r.enumText)),
     ("$ref:", r.ref)]
  }

  // ---------------------------------------------------------------------
  // The "Enum" cell

  predicate AllText(a: seq<Json>) {
    forall i :: 0 <= i < |a| ==> a[i].JStr?
  }

  function Texts(a: seq<Json>): (r: seq<string>)
    requires AllText(a)
    ensures |r| == |a| && forall i :: 0 <= i < |a| ==> a[i] == JStr(r[i])
  {
    seq(|a|, i requires 0 <= i < |a| => a[i].s)
  }

  /** Iterating over a string yields its characters. */
  function Chars(s: string): (r: seq<string>)
    ensures |r| == |s| && forall i :: 0 <= i < |s| ==> r[i] == [s[i]]
  {
    seq(|s|, i requires 0 <= i < |s| => [s[i]])
  }

  /** `", ".join(v)`: a list must hold only strings, a string is joined
      character by character, a dict by its keys; anything else cannot be
      iterated and raises TypeError. */
  function EnumText(v: Json): (r: Result<string>)
    ensures r.Ok? <==> v.JStr? || v.JObj? || (v.JArr? && AllText(v.elems))
    ensures v.JArr? && AllText(v.elems) ==> r == Ok(Join(Texts(v.elems)))
    ensures v.JObj? ==> r == Ok(Join(Keys(v.fields)))
  {
    match v
    case JArr(a) => if AllText(a) then Ok(Join(Texts(a))) else Err(TypeError)
    case JStr(s) => Ok(Join(Chars(s)))
    case JObj(fs) => Ok(Join(Keys(fs)))
    case _ => Err(TypeError)
  }

  // ---------------------------------------------------------------------
  // Rows

  /** The row for one property, before the `$ref:` rules. */
  function BaseRow(name: string, fs: Fields, enumText: string): SheetRow {
    SheetRow(name, GetOr(fs, "type", JStr("")), GetOr(fs, "format", JStr("")),
      GetOr(fs, "description", JStr("")), GetOr(fs, "example", JStr("")), enumText, JStr(""))
  }

  /** The row for property `name` with schema `props`, or the exception its
      construction raises. */
  function EncodeField(name: string, props: Json): Result<SheetRow> {
    if !props.JObj? then Err(AttributeError)
    else
      match FieldEnum(props.fields)
      case Err(e) => Err(e)
      case Ok(text) => ArrayRef(OwnRef(BaseRow(name, props.fields, text), props.fields), props.fields)
  }

  /** The Enum cell: the joined "enum" when the field has one, else blank. */
  function FieldEnum(fs: Fields): Result<string> {
    match Lookup(fs, "enum")
    case Some(e) => EnumText(e)
    case None => Ok("")
  }

  /** `if "$ref" in props and "type" not in props`: the field's own "$ref".
      Only the `$ref:` cell changes. */
  function OwnRef(row: SheetRow, fs: Fields): (r: SheetRow)
    ensures r == row.(ref := r.ref)
  {
    match Lookup(fs, "$ref")
    case Some(ref) => if Lookup(fs, "type").None? then row.(ref := ref) else row
    case None => row
  }

  /** `if row["Type"] == "array" and "items" in props`: the "$ref" of the
      items, if any. Only the `$ref:` cell changes. */
  function ArrayRef(row: SheetRow, fs: Fields): (r: Result<SheetRow>)
    ensures r.Ok? ==> r.value == row.(ref := r.value.ref)
  {
    match Lookup(fs, "items")
    case Some(items) => if row.typ == JStr("array") then ItemsRef(row, items) else Ok(row)
    case None => Ok(row)
  }

  /** `if "$ref" in items: row["$ref:"] = items["$ref"]`. Membership works on
      a dict, a list or a string, but only a dict can be indexed by "$ref". */
  function ItemsRef(row: SheetRow, items: Json): (r: Result<SheetRow>)
    ensures r.Ok? ==> r.value == row.(ref := r.value.ref)
  {
    match Contains(items, "$ref")
    case Err(e) => Err(e)
    case Ok(has) =>
      if !has then Ok(row)
      else
        match Index(items, "$ref")
        case Err(e) => Err(e)
        case Ok(v) => Ok(row.(ref := v))
  }

  /** The rows for the first `k` properties, or the first exception. */
  function RowsUpTo(props: Fields, k: nat): Result<seq<SheetRow>>
    requires k <= |props|
  {
    if k == 0 then Ok([]) else AppendRow(RowsUpTo(props, k - 1), EncodeField(props[k - 1].0, props[k - 1].1))
  }

  /** `rows.append(row)` after a row was built, unless an exception came first. */
  function AppendRow(rows: Result<seq<SheetRow>>, row: Result<SheetRow>): (r: Result<seq<SheetRow>>)
    ensures r.Ok? <==> rows.Ok? && row.Ok?
    ensures r.Ok? ==> r.value == rows.value + [row.value]
    ensures rows.Err? ==> r == rows
  {
    if rows.Err? then rows
    else if row.Err? then Err(row.error)
    else Ok(rows.value + [row.value])
  }

  /** `process_object(name, data)`: the name is only printed. */
  function ObjectRows(data: Json): Result<seq<SheetRow>> {
    if !data.JObj? then Err(AttributeError)
    else
      var p := GetOr(data.fields, "properties", JObj([]));
      if !p.JObj? then Err(AttributeError) else RowsUpTo(p.fields, |p.fields|)
  }

  // ---------------------------------------------------------------------
  // The workbook

  /** The sheets for the first `k` definitions, or the first exception. */
  function DefinitionSheets(defs: Fields, k: nat): Result<seq<Sheet>>
    requires k <= |defs|
  {
    if k == 0 then Ok([]) else AppendSheet(DefinitionSheets(defs, k - 1), defs[k - 1].0, ObjectRows(defs[k - 1].1))
  }

  /** `sheet.to_excel(writer, sheet_name=name)` after the rows were built,
      unless an exception came first. */
  function AppendSheet(sheets: Result<seq<Sheet>>, name: string, rows: Result<seq<SheetRow>>): (r: Result<seq<Sheet>>)
    ensures r.Ok? <==> sheets.Ok? && rows.Ok?
    ensures r.Ok? ==> r.value == sheets.value + [Sheet(JStr(name), rows.value)]
    ensures sheets.Err? ==> r == sheets
  {
    if sheets.Err? then sheets
    else if rows.Err? then Err(rows.error)
    else Ok(sheets.value + [Sheet(JStr(name), rows.value)])
  }

  /** The sheets `generate_excel_from_schema` writes, in order, or the
      exception that makes it exit. */
  function Workbook(schema: Json): Result<seq<Sheet>> {
    if !schema.JObj? then Err(AttributeError)
    else
      match ObjectRows(schema)
      case Err(e) => Err(e)
      case Ok(main) =>
        var title := GetOr(schema.fields, "title", JStr("Main"));
        var defs := GetOr(schema.fields, "definitions", JObj([]));
        if !defs.JObj? then Err(AttributeError)
        else
          match DefinitionSheets(defs.fields, |defs.fields|)
          case Err(e) => Err(e)
          case Ok(rest) => Ok([Sheet(title, main)] + rest)
  }

  // ---------------------------------------------------------------------
  // The loops of the source

  /** One pass of the loop body at lines 25-45: the row dict, then the two
      overwrites of its `$ref:` cell. */
  method BuildRow(name: string, props: Json) returns (r: Result<SheetRow>)
    ensures r == EncodeField(name, props)
  {
    if !props.JObj? {
      return Err(AttributeError);
    }
    var fs := props.fields;
    var enumText := "";
    var enum := Lookup(fs, "enum");
    if enum.Some? {
      var joined := EnumText(enum.value);
      if joined.Err? {
        return Err(joined.error);
      }
      enumText := joined.value;
    }
    var row := BaseRow(name, fs, enumText);
    var ref := Lookup(fs, "$ref");
    if Lookup(fs, "type").None? && ref.Some? {
      row := row.(ref := ref.value);
    }
    var items := Lookup(fs, "items");
    if row.typ == JStr("array") && items.Some? {
      var has := Contains(items.value, "$ref");
      if has.Err? {
        return Err(has.error);
      }
      if has.value {
        var v := Index(items.value, "$ref");
        if v.Err? {
          return Err(v.error);
        }
        row := row.(ref := v.value);
      }
    }
    return Ok(row);
  }

  /** `process_object`: appends one row per property, stopping at the first
      exception. */
  method ProcessObject(data: Json) returns (r: Result<seq<SheetRow>>)
    ensures r == ObjectRows(data)
  {
    if !data.JObj? {
      return Err(AttributeError);
    }
    var properties := GetOr(data.fields, "properties", JObj([]));
    if !properties.JObj? {
      return Err(AttributeError);
    }
    var props := properties.fields;
    var rows: seq<SheetRow> := [];
    var i := 0;
    while i < |props|
      invariant 0 <= i <= |props|
      invariant RowsUpTo(props, i) == Ok(rows)
    {
      var row := BuildRow(props[i].0, props[i].1);
      RowsNext(props, i, rows, row);
      if row.Err? {
        return Err(row.error);
      }
      rows := rows + [row.value];
      i := i + 1;
    }
    return Ok(rows);
  }

  /** Lines 50-57: the root's sheet, then one sheet per definition. */
  method GenerateWorkbook(schema: Json) returns (r: Result<seq<Sheet>>)
    ensures r == Workbook(schema)
  {
    if !schema.JObj? {
      return Err(AttributeError);
    }
    var main := ProcessObject(schema);
    if main.Err? {
      return Err(main.error);
    }
    var first := Sheet(GetOr(schema.fields, "title", JStr("Main")), main.value);
    var definitions := GetOr(schema.fields, "definitions", JObj([]));
    if !definitions.JObj? {
      return Err(AttributeError);
    }
    var rest := ProcessDefinitions(definitions.fields);
    if rest.Err? {
      return Err(rest.error);
    }
    return Ok([first] + rest.value);
  }

  /** Lines 56-57: one sheet per definition, in order, stopping at the first
      exception. */
  method ProcessDefinitions(defs: Fields) returns (r: Result<seq<Sheet>>)
    ensures r == DefinitionSheets(defs, |defs|)
  {
    r := Ok([]);
    var i := 0;
    while i < |defs| && r.Ok?
      invariant 0 <= i <= |defs|
      invariant r == DefinitionSheets(defs, i)
    {
      r := AddDefinitionSheet(defs, i, r.value);
      i := i + 1;
    }
    SheetsLoopExit(defs, i, r);
  }

  /** When the loop stops, at the end or at the first exception, its
      result is the workbook's. */
  lemma SheetsLoopExit(defs: Fields, i: nat, r: Result<seq<Sheet>>)
    requires i <= |defs| && r == DefinitionSheets(defs, i)
    requires !(i < |defs| && r.Ok?)
    ensures r == DefinitionSheets(defs, |defs|)
  {
    if r.Err? {
      SheetsErrPersists(defs, i, |defs|);
    }
  }

  /** The body of the loop at lines 56-57: the sheet for definition `i`. */
  method AddDefinitionSheet(defs: Fields, i: nat, sheets: seq<Sheet>) returns (r: Result<seq<Sheet>>)
    requires i < |defs| && DefinitionSheets(defs, i) == Ok(sheets)
    ensures r == DefinitionSheets(defs, i + 1)
  {
    var rows := ProcessObject(defs[i].1);
    SheetsStep(defs, i, i + 1);
    if rows.Err? {
      return Err(rows.error);
    }
    return Ok(sheets + [Sheet(JStr(defs[i].0), rows.value)]);
  }

  /** The first exception is the one raised: later properties are not
      looked at. */
  lemma {:induction false} RowsErrPersists(props: Fields, j: nat, k: nat)
    requires j <= k <= |props|
    requires RowsUpTo(props, j).Err?
    ensures RowsUpTo(props, k) == RowsUpTo(props, j)
    decreases k
  {
    if k > j {
      var i: nat := k - 1;
      RowsErrPersists(props, j, i);
      RowsErrStep(props, i, k);
    }
  }

  lemma RowsErrStep(props: Fields, j: nat, k: nat)
    requires k == j + 1 <= |props| && RowsUpTo(props, j).Err?
    ensures RowsUpTo(props, k) == RowsUpTo(props, j)
  {
  }

  /** One pass of the loop in `process_object`: the row built for property
      `i` is appended, or its exception is what the whole call gives. */
  lemma RowsNext(props: Fields, i: nat, rows: seq<SheetRow>, row: Result<SheetRow>)
    requires i < |props| && RowsUpTo(props, i) == Ok(rows)
    requires row == EncodeField(props[i].0, props[i].1)
    ensures row.Ok? ==> RowsUpTo(props, i + 1) == Ok(rows + [row.value])
    ensures row.Err? ==> RowsUpTo(props, |props|) == Err(row.error)
  {
    var k := i + 1;
    RowsStep(props, i, k);
    if row.Err? {
      RowsErrPersists(props, k, |props|);
    }
  }

  lemma {:induction false} SheetsErrPersists(defs: Fields, j: nat, k: nat)
    requires j <= k <= |defs|
    requires DefinitionSheets(defs, j).Err?
    ensures DefinitionSheets(defs, k) == DefinitionSheets(defs, j)
    decreases k
  {
    if k > j {
      var i: nat := k - 1;
      SheetsErrPersists(defs, j, i);
      SheetsErrStep(defs, i, k);
    }
  }

  lemma SheetsErrStep(defs: Fields, i: nat, k: nat)
    requires k == i + 1 <= |defs|
    requires DefinitionSheets(defs, i).Err?
    ensures DefinitionSheets(defs, k) == DefinitionSheets(defs, i)
  {
    SheetsStep(defs, i, k);
  }

  // ---------------------------------------------------------------------
  // Properties of the rows

  /** One row per property, in declaration order; the rows exist exactly
      when every property's row can be built. */
  lemma {:induction false} RowsOnePerProperty(props: Fields, k: nat)
    requires k <= |props|
    ensures RowsUpTo(props, k).Ok? <==> forall i :: 0 <= i < k ==> EncodeField(props[i].0, props[i].1).Ok?
    ensures RowsUpTo(props, k).Ok? ==>
      |RowsUpTo(props, k).value| == k &&
      forall i :: 0 <= i < k ==> EncodeField(props[i].0, props[i].1) == Ok(RowsUpTo(props, k).value[i])
  {
    if RowsUpTo(props, k).Ok? {
      RowsAreFields(props, k);
    }
    if forall i :: 0 <= i < k ==> EncodeField(props[i].0, props[i].1).Ok? {
      AllFieldsGiveRows(props, k);
    }
  }

  lemma {:induction false} RowsAreFields(props: Fields, k: nat)
    requires k <= |props|
    requires RowsUpTo(props, k).Ok?
    ensures |RowsUpTo(props, k).value| == k
    ensures forall i :: 0 <= i < k ==> EncodeField(props[i].0, props[i].1) == Ok(RowsUpTo(props, k).value[i])
  {
    if k > 0 {
      var j: nat := k - 1;
      RowsStep(props, j, k);
      var prev := RowsUpTo(props, j);
      var next := EncodeField(props[j].0, props[j].1);
      RowsAreFields(props, j);
      var rows := RowsUpTo(props, k).value;
      assert rows == prev.value + [next.value];
      forall i | 0 <= i < k
        ensures EncodeField(props[i].0, props[i].1) == Ok(rows[i])
      {
        if i < j {
          assert rows[i] == prev.value[i];
        } else {
          assert i == j && rows[i] == next.value;
        }
      }
    }
  }

  lemma {:induction false} AllFieldsGiveRows(props: Fields, k: nat)
    requires k <= |props|
    requires forall i :: 0 <= i < k ==> EncodeField(props[i].0, props[i].1).Ok?
    ensures RowsUpTo(props, k).Ok?
  {
    if k > 0 {
      var j: nat := k - 1;
      RowsStep(props, j, k);
      AllFieldsGiveRows(props, j);
      assert EncodeField(props[j].0, props[j].1).Ok?;
    }
  }

  lemma RowsStep(props: Fields, j: nat, k: nat)
    requires k == j + 1 <= |props|
    ensures RowsUpTo(props, k) == AppendRow(RowsUpTo(props, j), EncodeField(props[j].0, props[j].1))
  {
  }

  /** An object with no "properties", or an empty one, gives no rows. */
  lemma NoPropertiesNoRows(data: Json)
    requires data.JObj?
    requires GetOr(data.fields, "properties", JObj([])) == JObj([])
    ensures ObjectRows(data) == Ok([])
  {
  }

  /** A property schema that is not a dict cannot be read with `.get`. */
  lemma NonDictFieldFails(name: string, props: Json)
    requires !props.JObj?
    ensures EncodeField(name, props) == Err(AttributeError)
  {
  }

  /** "Field Name" is the property name; Type, Format, Description and
      Example are copied when present and blank otherwise; Enum is the
      joined "enum" when present and blank otherwise. */
  lemma FieldCells(name: string, fs: Fields)
    requires EncodeField(name, JObj(fs)).Ok?
    ensures var row := EncodeField(name, JObj(fs)).value;
      && row.fieldName == name
      && row.typ == (if "type" in Keys(fs) then Lookup(fs, "type").value else JStr(""))
      && row.format == (if "format" in Keys(fs) then Lookup(fs, "format").value else JStr(""))
      && row.description == (if "description" in Keys(fs) then Lookup(fs, "description").value else JStr(""))
      && row.example == (if "example" in Keys(fs) then Lookup(fs, "example").value else JStr(""))
      && (if "enum" in Keys(fs) then EnumText(Lookup(fs, "enum").value) == Ok(row.enumText) else row.enumText == "")
  {
  }

  /** The rules for the `$ref:` cell: the field's own "$ref" only when it has
      no "type"; for a field typed "array", the "$ref" of its dict "items";
      blank otherwise. */
  lemma RefCell(name: string, fs: Fields)
    requires EncodeField(name, JObj(fs)).Ok?
    ensures var row := EncodeField(name, JObj(fs)).value;
      && ("type" !in Keys(fs) && "$ref" in Keys(fs) ==> row.ref == Lookup(fs, "$ref").value)
      && ("type" !in Keys(fs) && "$ref" !in Keys(fs) ==> row.ref == JStr(""))
      && ("type" in Keys(fs) && Lookup(fs, "type").value != JStr("array") ==> row.ref == JStr(""))
      && (Lookup(fs, "type") == Some(JStr("array")) && "items" !in Keys(fs) ==> row.ref == JStr(""))
  {
  }

  /** A typed array whose "items" is a dict takes that dict's "$ref", or a
      blank cell when it has none. */
  lemma ArrayRefCell(name: string, fs: Fields, items: Fields)
    requires Lookup(fs, "type") == Some(JStr("array"))
    requires Lookup(fs, "items") == Some(JObj(items))
    requires EncodeField(name, JObj(fs)).Ok?
    ensures EncodeField(name, JObj(fs)).value.ref == GetOr(items, "$ref", JStr(""))
  {
  }

  /** `"$ref" in items` holds for a list: it has the element "$ref"; for a
      text: it contains "$ref". */
  predicate ListOrTextHasRef(items: Json) {
    (items.JArr? && JStr("$ref") in items.elems) || (items.JStr? && IsSubstring("$ref", items.s))
  }

  /** A typed array whose "items" is a list or a text: when `"$ref" in items`
      holds, indexing it by "$ref" raises TypeError; otherwise the `$ref:`
      cell stays blank. */
  lemma ArraySearchableItems(name: string, fs: Fields, items: Json)
    requires Lookup(fs, "type") == Some(JStr("array"))
    requires Lookup(fs, "items") == Some(items) && (items.JArr? || items.JStr?)
    ensures ListOrTextHasRef(items) ==> EncodeField(name, JObj(fs)) == Err(TypeError)
    ensures !ListOrTextHasRef(items) ==> (EncodeField(name, JObj(fs)).Ok? <==> FieldEnum(fs).Ok?)
    ensures !ListOrTextHasRef(items) && EncodeField(name, JObj(fs)).Ok? ==> EncodeField(name, JObj(fs)).value.ref == JStr("")
  {
  }

  /** An "items" that `in` cannot search (a number, a boolean, null) raises
      TypeError once the field is typed "array". */
  lemma ArrayItemsNotSearchable(name: string, fs: Fields)
    requires Lookup(fs, "type") == Some(JStr("array"))
    requires "items" in Keys(fs)
    requires var items := Lookup(fs, "items").value; !(items.JObj? || items.JArr? || items.JStr?)
    requires "enum" !in Keys(fs)
    ensures EncodeField(name, JObj(fs)) == Err(TypeError)
  {
  }

  // ---------------------------------------------------------------------
  // Properties of the workbook

  lemma {:induction false} DefinitionSheetsInOrder(defs: Fields, k: nat)
    requires k <= |defs|
    requires DefinitionSheets(defs, k).Ok?
    ensures |DefinitionSheets(defs, k).value| == k
    ensures forall i :: 0 <= i < k ==>
      ObjectRows(defs[i].1).Ok? && DefinitionSheets(defs, k).value[i] == Sheet(JStr(defs[i].0), ObjectRows(defs[i].1).value)
  {
    if k > 0 {
      var j: nat := k - 1;
      SheetsStep(defs, j, k);
      var prev := DefinitionSheets(defs, j);
      var next := ObjectRows(defs[j].1);
      DefinitionSheetsInOrder(defs, j);
      var sheets := DefinitionSheets(defs, k).value;
      assert sheets == prev.value + [Sheet(JStr(defs[j].0), next.value)];
      forall i | 0 <= i < k
        ensures ObjectRows(defs[i].1).Ok? && sheets[i] == Sheet(JStr(defs[i].0), ObjectRows(defs[i].1).value)
      {
        if i < j {
          assert sheets[i] == prev.value[i];
        } else {
          assert i == j && sheets[i] == Sheet(JStr(defs[j].0), next.value);
        }
      }
    }
  }

  lemma SheetsStep(defs: Fields, j: nat, k: nat)
    requires k == j + 1 <= |defs|
    ensures DefinitionSheets(defs, k) == AppendSheet(DefinitionSheets(defs, j), defs[j].0, ObjectRows(defs[j].1))
  {
  }

  /** Sheet order: the root's rows first, named by its "title" or "Main",
      then one sheet per definition in table order. */
  lemma WorkbookOrder(schema: Json)
    requires Workbook(schema).Ok?
    ensures schema.JObj?
    ensures var sheets := Workbook(schema).value;
      var defs := GetOr(schema.fields, "definitions", JObj([]));
      && defs.JObj?
      && |sheets| == 1 + |defs.fields|
      && sheets[0] == Sheet(GetOr(schema.fields, "title", JStr("Main")), ObjectRows(schema).value)
      && forall i :: 0 <= i < |defs.fields| ==>
           ObjectRows(defs.fields[i].1).Ok? &&
           sheets[i + 1] == Sheet(JStr(defs.fields[i].0), ObjectRows(defs.fields[i].1).value)
  {
    var defs := GetOr(schema.fields, "definitions", JObj([])).fields;
    var main := ObjectRows(schema).value;
    var rest := DefinitionSheets(defs, |defs|);
    assert Workbook(schema) == Ok([Sheet(GetOr(schema.fields, "title", JStr("Main")), main)] + rest.value);
    DefinitionSheetsInOrder(defs, |defs|);
    forall i | 0 <= i < |defs|
      ensures ObjectRows(defs[i].1).Ok? && Workbook(schema).value[i + 1] == Sheet(JStr(defs[i].0), ObjectRows(defs[i].1).value)
    {
      assert Workbook(schema).value[i + 1] == rest.value[i];
    }
  }
}

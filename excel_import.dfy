/** Spreadsheet to schema: every sheet with a "Field Name" column becomes an
    object schema, one property per row; the sheet named like the output's
    title supplies the root's properties, any other sheet becomes a
    definition referenced from the root. */
module ExcelImport {
  import opened JsonModel
  import SchemaInference

  /** A non-empty cell as the spreadsheet reader hands it over. Numbers other
      than integers are kept as their text. */
  datatype Cell = CStr(s: string) | CInt(i: int) | CNum(text: string) | CBool(b: bool)

  /** A row: column name to cell, `None` for an empty (NaN) cell. A column
      the sheet lacks is a key the map lacks. */
  type Row = map<string, Option<Cell>>

  datatype Sheet = Sheet(name: string, columns: set<string>, rows: seq<Row>)

  /** Every row of a sheet has exactly the sheet's columns. */
  predicate Rectangular(s: Sheet) {
    forall r :: r in s.rows ==> r.Keys == s.columns
  }

  /** Every row has a "Field Name" cell. */
  predicate Named(rows: seq<Row>) {
    forall r :: r in rows ==> "Field Name" in r
  }

  const Title: string := "Generated Schema"

  // ---------------------------------------------------------------------
  // Cells

  /** `row.get(column, default)`. */
  function CellOr(row: Row, column: string, default: Option<Cell>): (c: Option<Cell>)
    ensures column in row ==> c == row[column]
    ensures column !in row ==> c == default
  {
    if column in row then row[column] else default
  }

  /** A cell as a JSON value; an empty cell is NaN, which `json.dump`
      writes as `NaN`. */
  function CellJson(c: Option<Cell>): Json {
    match c
    case None => JNum("NaN")
    case Some(CStr(s)) => JStr(s)
    case Some(CInt(i)) => JInt(i)
    case Some(CNum(t)) => JNum(t)
    case Some(CBool(b)) => JBool(b)
  }

  /** `str(cell)` for a non-empty cell. */
  function CellText(c: Cell): string {
    match c
    case CStr(s) => s
    case CInt(i) => IntToString(i)
    case CNum(t) => t
    case CBool(b) => if b then "True" else "False"
  }

  /** The key a "Field Name" cell becomes in the written schema: `json.dump`
      turns a number or boolean key into its JSON text and NaN into "NaN". */
  function FieldKey(c: Option<Cell>): (k: string)
    ensures c.Some? && c.value.CStr? ==> k == c.value.s
  {
    match c
    case None => "NaN"
    case Some(CStr(s)) => s
    case Some(CInt(i)) => IntToString(i)
    case Some(CNum(t)) => t
    case Some(CBool(b)) => if b then "true" else "false"
  }

  /** The target of a non-blank "$ref:" cell: the cell's text, stripped. */
  function RefTarget(c: Option<Cell>): Option<string> {
    match c
    case None => None
    case Some(cell) => if Strip(CellText(cell)) == "" then None else Some(Strip(CellText(cell)))
  }

  // ---------------------------------------------------------------------
  // One row

  /** `field_schema[key] = cell` when the cell is not NaN. */
  function WithCell(fs: Fields, key: string, c: Option<Cell>): Fields {
    if c.Some? then Put(fs, key, CellJson(c)) else fs
  }

  /** The schema of the field a row describes. A non-blank "$ref:" cell
      makes a reference (inside "items" when the type is "array") and
      nothing else of the row is kept; otherwise the field has the row's
      type and its non-empty format, description and example. */
  function DecodeField(row: Row): Json {
    var typ := CellOr(row, "Type", Some(CStr("string")));
    match RefTarget(CellOr(row, "$ref:", None))
    case Some(target) =>
      if typ == Some(CStr("array")) then JObj([("type", JStr("array")), ("items", JObj([("$ref", JStr(target))]))])
      else JObj([("$ref", JStr(target))])
    case None =>
      var base := [("type", CellJson(typ))];
      var f1 := WithCell(base, "format", CellOr(row, "Format", None));
      var f2 := WithCell(f1, "description", CellOr(row, "Description", Some(CStr(""))));
      JObj(WithCell(f2, "example", CellOr(row, "Example", None)))
  }

  /** The property name a row stands for. */
  function RowKey(row: Row): string
    requires "Field Name" in row
  {
    FieldKey(row["Field Name"])
  }

  /** The properties a sheet's rows build, row after row, starting from
      `props`: a repeated name overwrites the earlier entry in place. */
  function PutRows(props: Fields, rows: seq<Row>): Fields
    requires Named(rows)
    decreases |rows|
  {
    if rows == [] then props
    else
      assert rows[0] in rows;
      PutRows(Put(props, RowKey(rows[0]), DecodeField(rows[0])), rows[1..])
  }

  // ---------------------------------------------------------------------
  // Sheets

  /** The root's "properties" and "definitions" while the sheets are read. */
  datatype Output = Output(props: Fields, defs: Fields)

  /** The object schema a sheet defines. */
  function ObjectSchema(props: Fields): Json {
    JObj([("type", JStr("object")), ("properties", JObj(props))])
  }

  /** Reading one sheet: skipped without a "Field Name" column; the title
      sheet replaces the root's properties wholesale; any other sheet becomes
      a definition and a root property referring to it. */
  function PlaceSheet(out: Output, sheet: Sheet): Output
    requires Rectangular(sheet)
  {
    if "Field Name" !in sheet.columns then out
    else
      var props := PutRows([], sheet.rows);
      if sheet.name == Title then Output(props, out.defs)
      else Output(Put(out.props, sheet.name, RefTo(sheet.name)), Put(out.defs, sheet.name, ObjectSchema(props)))
  }

  predicate AllRectangular(sheets: seq<Sheet>) {
    forall s :: s in sheets ==> Rectangular(s)
  }

  /** The sheets read in workbook order. */
  function PlaceAll(out: Output, sheets: seq<Sheet>): Output
    requires AllRectangular(sheets)
    decreases |sheets|
  {
    if sheets == [] then out
    else
      assert sheets[0] in sheets;
      PlaceAll(PlaceSheet(out, sheets[0]), sheets[1..])
  }

  /** The schema `generate_schema_from_excel` writes for a workbook. */
  function Decode(sheets: seq<Sheet>): Json
    requires AllRectangular(sheets)
  {
    var out := PlaceAll(Output([], []), sheets);
    JObj([("$schema", JStr(SchemaInference.Draft07)), ("title", JStr(Title)), ("type", JStr("object")),
          ("properties", JObj(out.props)), ("definitions", JObj(out.defs))])
  }

  // ---------------------------------------------------------------------
  // The loops of the source

  /** Lines 34-57: the schema of one row's field, built key by key. */
  method BuildField(row: Row) returns (field: Json)
    ensures field == DecodeField(row)
  {
    var fieldType := CellOr(row, "Type", Some(CStr("string")));
    var fieldFormat := CellOr(row, "Format", None);
    var fieldDescription := CellOr(row, "Description", Some(CStr("")));
    var fieldExample := CellOr(row, "Example", None);
    var fieldRef := CellOr(row, "$ref:", None);
    if fieldRef.Some? && Strip(CellText(fieldRef.value)) != "" {
      var target := Strip(CellText(fieldRef.value));
      if fieldType == Some(CStr("array")) {
        field := JObj([("type", JStr("array")), ("items", JObj([("$ref", JStr(target))]))]);
      } else {
        field := JObj([("$ref", JStr(target))]);
      }
    } else {
      var fs := [("type", CellJson(fieldType))];
      if fieldFormat.Some? {
        fs := Put(fs, "format", CellJson(fieldFormat));
      }
      if fieldDescription.Some? {
        fs := Put(fs, "description", CellJson(fieldDescription));
      }
      if fieldExample.Some? {
        fs := Put(fs, "example", CellJson(fieldExample));
      }
      field := JObj(fs);
    }
  }

  /** Lines 32-59: the properties of one sheet, row after row. */
  method SheetProperties(rows: seq<Row>) returns (props: Fields)
    requires Named(rows)
    ensures props == PutRows([], rows)
  {
    props := [];
    var i := 0;
    while i < |rows|
      invariant 0 <= i <= |rows|
      invariant PutRows(props, rows[i..]) == PutRows([], rows)
    {
      assert rows[i] in rows;
      var field := BuildField(rows[i]);
      PutRowsStep(props, rows, i);
      props := Put(props, RowKey(rows[i]), field);
      i := i + 1;
    }
  }

  /** Lines 16-66: the sheets in workbook order, then the schema. */
  method GenerateSchemaFromExcel(sheets: seq<Sheet>) returns (schema: Json)
    requires AllRectangular(sheets)
    ensures schema == Decode(sheets)
  {
    var props: Fields := [];
    var defs: Fields := [];
    var i := 0;
    while i < |sheets|
      invariant 0 <= i <= |sheets|
      invariant PlaceAll(Output(props, defs), sheets[i..]) == PlaceAll(Output([], []), sheets)
    {
      var sheet := sheets[i];
      assert sheet in sheets;
      PlaceAllStep(Output(props, defs), sheets, i);
      if "Field Name" in sheet.columns {
        RectangularNamed(sheet);
        var objectProps := SheetProperties(sheet.rows);
        if sheet.name == Title {
          props := objectProps;
        } else {
          defs := Put(defs, sheet.name, ObjectSchema(objectProps));
          props := Put(props, sheet.name, RefTo(sheet.name));
        }
      }
      i := i + 1;
    }
    schema := JObj([("$schema", JStr(SchemaInference.Draft07)), ("title", JStr(Title)), ("type", JStr("object")),
                    ("properties", JObj(props)), ("definitions", JObj(defs))]);
  }

  lemma RectangularNamed(sheet: Sheet)
    requires Rectangular(sheet) && "Field Name" in sheet.columns
    ensures Named(sheet.rows)
  {
  }

  lemma PutRowsStep(props: Fields, rows: seq<Row>, i: nat)
    requires Named(rows) && i < |rows|
    ensures Named(rows[i..]) && "Field Name" in rows[i]
    ensures PutRows(props, rows[i..]) == PutRows(Put(props, RowKey(rows[i]), DecodeField(rows[i])), rows[i + 1..])
  {
    assert rows[i..][0] == rows[i];
    assert rows[i..][1..] == rows[i + 1..];
  }

  lemma PlaceAllStep(out: Output, sheets: seq<Sheet>, i: nat)
    requires AllRectangular(sheets) && i < |sheets|
    ensures AllRectangular(sheets[i..]) && Rectangular(sheets[i])
    ensures PlaceAll(out, sheets[i..]) == PlaceAll(PlaceSheet(out, sheets[i]), sheets[i + 1..])
  {
    assert sheets[i] in sheets;
    assert sheets[i..][0] == sheets[i];
    assert sheets[i..][1..] == sheets[i + 1..];
  }

  // ---------------------------------------------------------------------
  // Properties of one row

  /** The keys a field schema can get are pairwise distinct. */
  lemma FieldKeysDistinct()
    ensures "type" != "format" && "type" != "description" && "type" != "example"
    ensures "format" != "description" && "format" != "example" && "description" != "example"
    ensures "$ref" != "type" && "$ref" != "format" && "$ref" != "description" && "$ref" != "example"
  {
    assert "type"[0] != "format"[0] && "type"[0] != "description"[0] && "type"[0] != "example"[0];
    assert "format"[0] != "description"[0] && "format"[0] != "example"[0] && "description"[0] != "example"[0];
    assert "$ref"[0] != "type"[0] && "$ref"[0] != "format"[0] && "$ref"[0] != "description"[0] && "$ref"[0] != "example"[0];
  }

  /** The entry `field_schema[key] = cell` adds, if any. */
  function Entry(key: string, c: Option<Cell>): Fields {
    if c.Some? then [(key, CellJson(c))] else []
  }

  lemma WithNewCell(fs: Fields, key: string, c: Option<Cell>)
    requires key !in Keys(fs)
    ensures WithCell(fs, key, c) == fs + Entry(key, c)
  {
    if c.Some? {
      PutKeys(fs, key, CellJson(c));
    }
  }

  lemma {:induction false} KeysAppendEntry(fs: Fields, key: string, c: Option<Cell>, k: string)
    ensures k in Keys(fs + Entry(key, c)) <==> k in Keys(fs) || (c.Some? && k == key)
  {
    if c.Some? {
      KeysAppend(fs, (key, CellJson(c)));
    } else {
      assert fs + Entry(key, c) == fs;
    }
  }

  /** Without a non-blank "$ref:" cell, the field is its type followed by
      the format, description and example cells that are not empty, in that
      order; a missing "Type" column gives "string", a missing "Description"
      column gives "", and an empty "Type" cell gives NaN. */
  lemma PlainField(row: Row)
    requires RefTarget(CellOr(row, "$ref:", None)).None?
    ensures DecodeField(row) == JObj([("type", CellJson(CellOr(row, "Type", Some(CStr("string")))))]
      + Entry("format", CellOr(row, "Format", None))
      + Entry("description", CellOr(row, "Description", Some(CStr(""))))
      + Entry("example", CellOr(row, "Example", None)))
    ensures "$ref" !in Keys(DecodeField(row).fields)
  {
    FieldKeysDistinct();
    var base := [("type", CellJson(CellOr(row, "Type", Some(CStr("string")))))];
    var fmt := CellOr(row, "Format", None);
    var desc := CellOr(row, "Description", Some(CStr("")));
    var ex := CellOr(row, "Example", None);
    assert Keys(base) == ["type"];
    WithNewCell(base, "format", fmt);
    var f1 := base + Entry("format", fmt);
    KeysAppendEntry(base, "format", fmt, "description");
    KeysAppendEntry(base, "format", fmt, "example");
    KeysAppendEntry(base, "format", fmt, "$ref");
    WithNewCell(f1, "description", desc);
    var f2 := f1 + Entry("description", desc);
    KeysAppendEntry(f1, "description", desc, "example");
    KeysAppendEntry(f1, "description", desc, "$ref");
    WithNewCell(f2, "example", ex);
    KeysAppendEntry(f2, "example", ex, "$ref");
  }

  /** With a non-blank "$ref:" cell the field is a bare reference to its
      stripped text, or an array of such references when the type is
      "array"; format, description and example are dropped. */
  lemma RefField(row: Row, target: string)
    requires RefTarget(CellOr(row, "$ref:", None)) == Some(target)
    ensures target != "" && target == Strip(CellText(row["$ref:"].value))
    ensures CellOr(row, "Type", Some(CStr("string"))) == Some(CStr("array")) ==>
      DecodeField(row) == JObj([("type", JStr("array")), ("items", JObj([("$ref", JStr(target))]))])
    ensures CellOr(row, "Type", Some(CStr("string"))) != Some(CStr("array")) ==>
      DecodeField(row) == JObj([("$ref", JStr(target))])
  {
  }

  /** Two rows with the same "Type" and the same non-blank "$ref:" cell
      describe the same field, whatever their other cells hold. */
  lemma RefFieldIgnoresOtherCells(row1: Row, row2: Row)
    requires RefTarget(CellOr(row1, "$ref:", None)).Some?
    requires CellOr(row1, "$ref:", None) == CellOr(row2, "$ref:", None)
    requires CellOr(row1, "Type", Some(CStr("string"))) == CellOr(row2, "Type", Some(CStr("string")))
    ensures DecodeField(row1) == DecodeField(row2)
  {
  }

  /** Only the Type, Format, Description, Example and "$ref:" columns are
      read: any other cell can change without changing the field. */
  lemma UnreadColumn(row: Row, column: string, c: Option<Cell>)
    requires column != "Type" && column != "Format" && column != "Description"
    requires column != "Example" && column != "$ref:"
    ensures DecodeField(row[column := c]) == DecodeField(row)
  {
    var row' := row[column := c];
    assert CellOr(row', "Type", Some(CStr("string"))) == CellOr(row, "Type", Some(CStr("string")));
    assert CellOr(row', "Format", None) == CellOr(row, "Format", None);
    assert CellOr(row', "Description", Some(CStr(""))) == CellOr(row, "Description", Some(CStr("")));
    assert CellOr(row', "Example", None) == CellOr(row, "Example", None);
    assert CellOr(row', "$ref:", None) == CellOr(row, "$ref:", None);
  }

  /** The "Enum" column is never read back. */
  lemma EnumNeverRead(row: Row, c: Option<Cell>)
    ensures DecodeField(row["Enum" := c]) == DecodeField(row)
  {
    assert "Enum"[0] != "Type"[0] && "Enum"[0] != "Format"[0] && "Enum"[0] != "Description"[0];
    assert "Enum"[1] != "Example"[1] && "Enum"[0] != "$ref:"[0];
    UnreadColumn(row, "Enum", c);
  }

  // ---------------------------------------------------------------------
  // Properties of a sheet

  /** Reading the rows `rows` after `front` continues from where `front`
      left the properties. */
  lemma {:induction false} PutRowsAppend(props: Fields, front: seq<Row>, back: seq<Row>)
    requires Named(front) && Named(back)
    ensures Named(front + back)
    ensures PutRows(props, front + back) == PutRows(PutRows(props, front), back)
    decreases |front|
  {
    if front == [] {
      assert front + back == back;
    } else {
      assert front[0] in front;
      assert (front + back)[0] == front[0];
      assert (front + back)[1..] == front[1..] + back;
      PutRowsAppend(Put(props, RowKey(front[0]), DecodeField(front[0])), front[1..], back);
    }
  }

  /** A name that no row carries keeps what it had. */
  lemma {:induction false} UntouchedName(props: Fields, rows: seq<Row>, k: string)
    requires Named(rows)
    requires forall r :: r in rows ==> RowKey(r) != k
    ensures Lookup(PutRows(props, rows), k) == Lookup(props, k)
    decreases |rows|
  {
    if rows != [] {
      assert rows[0] in rows;
      LookupPutOther(props, RowKey(rows[0]), DecodeField(rows[0]), k);
      UntouchedName(Put(props, RowKey(rows[0]), DecodeField(rows[0])), rows[1..], k);
    }
  }

  /** A repeated name overwrites the earlier entry: the last row with a
      given name decides that property. */
  lemma {:induction false} LastRowWins(props: Fields, rows: seq<Row>, j: nat)
    requires Named(rows) && j < |rows|
    requires forall i :: j < i < |rows| ==> RowKey(rows[i]) != RowKey(rows[j])
    ensures Lookup(PutRows(props, rows), RowKey(rows[j])) == Some(DecodeField(rows[j]))
    decreases |rows|
  {
    assert rows[0] in rows;
    var next := Put(props, RowKey(rows[0]), DecodeField(rows[0]));
    if j == 0 {
      forall r | r in rows[1..]
        ensures RowKey(r) != RowKey(rows[0])
      {
        var i :| 0 <= i < |rows[1..]| && rows[1..][i] == r;
        assert rows[i + 1] == r;
      }
      UntouchedName(next, rows[1..], RowKey(rows[0]));
    } else {
      var j': nat := j - 1;
      assert rows[1..][j'] == rows[j];
      forall i | j' < i < |rows[1..]|
        ensures RowKey(rows[1..][i]) != RowKey(rows[1..][j'])
      {
        assert rows[1..][i] == rows[i + 1];
      }
      LastRowWins(next, rows[1..], j');
    }
  }

  // ---------------------------------------------------------------------
  // Properties of the workbook

  lemma OutputNamesDistinct()
    ensures NoDup(["$schema", "title", "type", "properties", "definitions"])
  {
    var ks := ["$schema", "title", "type", "properties", "definitions"];
    assert ks[1][1] != ks[2][1];
    forall i, j | 0 <= i < j < |ks| ensures ks[i] != ks[j] {
      if i != 1 || j != 2 {
        assert ks[i][0] != ks[j][0];
      }
    }
  }

  /** Whatever the workbook holds, the schema has the draft-07 "$schema",
      the title "Generated Schema", type "object", and dicts for
      "properties" and "definitions". */
  lemma OutputShape(sheets: seq<Sheet>)
    requires AllRectangular(sheets)
    ensures Decode(sheets).JObj?
    ensures var fs := Decode(sheets).fields;
      var out := PlaceAll(Output([], []), sheets);
      && Keys(fs) == ["$schema", "title", "type", "properties", "definitions"]
      && Lookup(fs, "$schema") == Some(JStr(SchemaInference.Draft07))
      && Lookup(fs, "title") == Some(JStr("Generated Schema"))
      && Lookup(fs, "type") == Some(JStr("object"))
      && Lookup(fs, "properties") == Some(JObj(out.props))
      && Lookup(fs, "definitions") == Some(JObj(out.defs))
  {
    var fs := Decode(sheets).fields;
    assert Keys(fs) == ["$schema", "title", "type", "properties", "definitions"];
    OutputNamesDistinct();
    LookupAt(fs, 0);
    LookupAt(fs, 1);
    LookupAt(fs, 2);
    LookupAt(fs, 3);
    LookupAt(fs, 4);
  }

  /** Reading `back` after `front` continues from where `front` left the
      output. */
  lemma {:induction false} PlaceAllAppend(out: Output, front: seq<Sheet>, back: seq<Sheet>)
    requires AllRectangular(front) && AllRectangular(back)
    ensures AllRectangular(front + back)
    ensures PlaceAll(out, front + back) == PlaceAll(PlaceAll(out, front), back)
    decreases |front|
  {
    if front == [] {
      assert front + back == back;
    } else {
      assert front[0] in front;
      assert (front + back)[0] == front[0];
      assert (front + back)[1..] == front[1..] + back;
      PlaceAllAppend(PlaceSheet(out, front[0]), front[1..], back);
    }
  }

  /** A sheet without a "Field Name" column contributes nothing, and the
      sheets after it are read as if it were absent. */
  lemma SkippedSheet(front: seq<Sheet>, sheet: Sheet, back: seq<Sheet>)
    requires AllRectangular(front) && Rectangular(sheet) && AllRectangular(back)
    requires "Field Name" !in sheet.columns
    ensures AllRectangular(front + [sheet] + back) && AllRectangular(front + back)
    ensures Decode(front + [sheet] + back) == Decode(front + back)
  {
    var out := Output([], []);
    assert AllRectangular([sheet]);
    PlaceAllAppend(out, front, [sheet]);
    PlaceAllAppend(out, front + [sheet], back);
    PlaceAllAppend(out, front, back);
    assert PlaceAll(PlaceAll(out, front), [sheet]) == PlaceAll(out, front);
  }

  /** The sheet named "Generated Schema" replaces the root's properties
      wholesale, dropping the references earlier sheets added, and leaves
      the definitions alone. */
  lemma TitleSheetPlaced(out: Output, sheet: Sheet)
    requires Rectangular(sheet) && "Field Name" in sheet.columns && sheet.name == "Generated Schema"
    ensures Named(sheet.rows)
    ensures PlaceSheet(out, sheet) == Output(PutRows([], sheet.rows), out.defs)
  {
  }

  /** Any other sheet S becomes definitions[S], an object schema with the
      sheet's properties, and the root property S refers to it; every other
      entry of both is unchanged. */
  lemma DefinitionSheetPlaced(out: Output, sheet: Sheet)
    requires Rectangular(sheet) && "Field Name" in sheet.columns && sheet.name != "Generated Schema"
    ensures Named(sheet.rows)
    ensures var r := PlaceSheet(out, sheet);
      && Lookup(r.defs, sheet.name) == Some(JObj([("type", JStr("object")), ("properties", JObj(PutRows([], sheet.rows)))]))
      && Lookup(r.props, sheet.name) == Some(JObj([("$ref", JStr("#/definitions/" + sheet.name))]))
      && (forall k :: k != sheet.name ==> Lookup(r.defs, k) == Lookup(out.defs, k) && Lookup(r.props, k) == Lookup(out.props, k))
  {
    var props := PutRows([], sheet.rows);
    forall k | k != sheet.name
      ensures Lookup(PlaceSheet(out, sheet).defs, k) == Lookup(out.defs, k)
      ensures Lookup(PlaceSheet(out, sheet).props, k) == Lookup(out.props, k)
    {
      LookupPutOther(out.defs, sheet.name, ObjectSchema(props), k);
      LookupPutOther(out.props, sheet.name, RefTo(sheet.name), k);
    }
  }

  /** Definitions are only added or overwritten, never removed. */
  lemma {:induction false} DefinitionsOnlyGrow(out: Output, sheets: seq<Sheet>, k: string)
    requires AllRectangular(sheets)
    requires k in Keys(out.defs)
    ensures k in Keys(PlaceAll(out, sheets).defs)
    decreases |sheets|
  {
    if sheets != [] {
      assert sheets[0] in sheets;
      var sheet := sheets[0];
      if "Field Name" in sheet.columns && sheet.name != Title {
        var props := PutRows([], sheet.rows);
        if k != sheet.name {
          LookupPutOther(out.defs, sheet.name, ObjectSchema(props), k);
        }
      }
      DefinitionsOnlyGrow(PlaceSheet(out, sheet), sheets[1..], k);
    }
  }
}

/** Schema to spreadsheet and back: the cells the encoder writes, as the
    reader returns them, and the field schemas that survive the trip. */
module TabularRoundTrip {
  import opened JsonModel
  import ExcelExport
  import opened ExcelImport

  /** The texts the spreadsheet reader takes for a missing value by default.
      The empty string is one of them, so a blank cell is read back empty. */
  const NaTexts: set<string> := {"", "#N/A", "#N/A N/A", "#NA", "-1.#IND", "-1.#QNAN", "-NaN", "-nan",
    "1.#IND", "1.#QNAN", "<NA>", "N/A", "NA", "NULL", "NaN", "None", "n/a", "nan", "null"}

  /** The error codes the spreadsheet writer stores as error cells; the
      reader returns an error cell as a missing value. */
  const ErrorCodes: set<string> := {"#NULL!", "#DIV/0!", "#VALUE!", "#REF!", "#NAME?", "#NUM!", "#N/A"}

  /** The longest text a cell holds: the writer cuts a longer one. */
  const MaxCellText := 32767

  /** The control characters the writer refuses in a cell (it raises). */
  predicate Illegal(c: char) {
    0 <= c as int <= 8 || c as int == 11 || c as int == 12 || 14 <= c as int <= 31
  }

  predicate HasIllegal(t: string) {
    exists i :: 0 <= i < |t| && Illegal(t[i])
  }

  /** The text the writer stores for `s`. */
  function StoredText(s: string): (t: string)
    ensures |t| <= MaxCellText && |t| <= |s| && t == s[..|t|]
    ensures |s| <= MaxCellText ==> t == s
  {
    if |s| > MaxCellText then s[..MaxCellText] else s
  }

  /** What is read back from a cell a text was written to, or None when the
      writer raises. A text of two or more characters that starts with '='
      is stored as a formula, which has no computed value when read back,
      and an error code is stored as an error cell: both read back empty. */
  function ReadBackText(s: string): Option<Option<Cell>> {
    var t := StoredText(s);
    if HasIllegal(t) then None
    else if |t| > 1 && t[0] == '=' then Some(None)
    else if t in ErrorCodes || t in NaTexts then Some(None)
    else Some(Some(CStr(t)))
  }

  /** The floating-point texts that do not name a finite number. */
  const NonFinite: set<string> := {"NaN", "Infinity", "-Infinity"}

  /** What is read back from a cell a floating-point number was written to:
      the writer leaves NaN blank, so it reads back empty, and writes an
      infinity as the text "inf" or "-inf", which reads back as that text. */
  function ReadBackNumber(t: string): (c: Option<Cell>)
    ensures c == None <==> t == "NaN"
    ensures c.Some? && c.value.CNum? <==> t !in NonFinite
    ensures c.Some? && c.value.CNum? ==> c.value.text == t
    ensures t in NonFinite - {"NaN"} ==> c.Some? && c.value.CStr? && c.value.s == (if t[0] == '-' then "-inf" else "inf")
  {
    if t == "NaN" then None
    else if t == "Infinity" then Some(CStr("inf"))
    else if t == "-Infinity" then Some(CStr("-inf"))
    else Some(CNum(t))
  }

  /** What is read back from a cell a value was written to, or None when the
      writer raises, and for a list or a dict, which the writer stores as its
      text and which therefore does not read back as the same value. */
  function ReadBack(v: Json): Option<Option<Cell>> {
    match v
    case JNull => Some(None)
    case JBool(b) => Some(Some(CBool(b)))
    case JInt(i) => Some(Some(CInt(i)))
    case JNum(t) => Some(ReadBackNumber(t))
    case JStr(s) => ReadBackText(s)
    case _ => None
  }

  /** A text the writer stores as itself and the reader returns as itself:
      not too long, without refused characters, not a formula, not an error
      code and not a missing-value text. */
  predicate KeptText(s: string) {
    && |s| <= MaxCellText
    && (forall i :: 0 <= i < |s| ==> !Illegal(s[i]))
    && !(|s| > 1 && s[0] == '=')
    && s !in ErrorCodes && s !in NaTexts
  }

  /** A value that is written and read back as a non-empty cell: a boolean,
      an integer, a finite floating-point number or a kept text. */
  predicate Kept(v: Json) {
    match v
    case JBool(_) => true
    case JInt(_) => true
    case JNum(t) => t !in NonFinite
    case JStr(s) => KeptText(s)
    case _ => false
  }

  /** A kept text is stored as itself and read back as itself. */
  lemma KeptTextReads(s: string)
    requires KeptText(s)
    ensures ReadBack(JStr(s)) == Some(Some(CStr(s)))
  {
    assert StoredText(s) == s;
    assert !HasIllegal(s);
  }

  /** The kept values are exactly those read back as themselves. */
  lemma KeptReadsAsItself(v: Json)
    ensures Kept(v) <==> ReadBack(v).Some? && ReadBack(v).value.Some? && CellJson(ReadBack(v).value) == v
  {
    if v.JStr? && ReadBack(v).Some? && ReadBack(v).value.Some? && CellJson(ReadBack(v).value) == v {
      assert StoredText(v.s) == v.s;
    }
  }

  const ColumnSet: set<string> := {"Field Name", "Type", "Format", "Description", "Example", "Enum", "$ref:"}

  /** Every cell of the row can be written. */
  predicate Writable(r: ExcelExport.SheetRow) {
    ReadBack(JStr(r.fieldName)).Some? && ReadBack(JStr(r.enumText)).Some?
    && ReadBack(r.typ).Some? && ReadBack(r.format).Some? && ReadBack(r.description).Some?
    && ReadBack(r.example).Some? && ReadBack(r.ref).Some?
  }

  /** A row as the reader returns it after the writer stored it. */
  function ReadRow(r: ExcelExport.SheetRow): Option<Row> {
    if !Writable(r) then None
    else Some(map[
      "Field Name" := ReadBack(JStr(r.fieldName)).value,
      "Type" := ReadBack(r.typ).value,
      "Format" := ReadBack(r.format).value,
      "Description" := ReadBack(r.description).value,
      "Example" := ReadBack(r.example).value,
      "Enum" := ReadBack(JStr(r.enumText)).value,
      "$ref:" := ReadBack(r.ref).value])
  }

  lemma ColumnsDistinct()
    ensures "Field Name" != "Type" && "Field Name" != "Format" && "Field Name" != "Description"
    ensures "Field Name" != "Example" && "Field Name" != "Enum" && "Field Name" != "$ref:"
    ensures "Type" != "Format" && "Type" != "Description" && "Type" != "Example" && "Type" != "Enum" && "Type" != "$ref:"
    ensures "Format" != "Description" && "Format" != "Example" && "Format" != "Enum" && "Format" != "$ref:"
    ensures "Description" != "Example" && "Description" != "Enum" && "Description" != "$ref:"
    ensures "Example" != "Enum" && "Example" != "$ref:" && "Enum" != "$ref:"
  {
    assert "Field Name"[1] != "Format"[1] && "Example"[1] != "Enum"[1];
    assert "Field Name"[0] != "Type"[0] && "Field Name"[0] != "Description"[0];
    assert "Field Name"[0] != "Example"[0] && "Field Name"[0] != "Enum"[0] && "Field Name"[0] != "$ref:"[0];
    assert "Type"[0] != "Format"[0] && "Type"[0] != "Description"[0] && "Type"[0] != "Example"[0];
    assert "Type"[0] != "Enum"[0] && "Type"[0] != "$ref:"[0];
    assert "Format"[0] != "Description"[0] && "Format"[0] != "Example"[0] && "Format"[0] != "Enum"[0];
    assert "Format"[0] != "$ref:"[0];
    assert "Description"[0] != "Example"[0] && "Description"[0] != "Enum"[0] && "Description"[0] != "$ref:"[0];
    assert "Example"[0] != "$ref:"[0] && "Enum"[0] != "$ref:"[0];
  }

  /** The read row has the seven columns, each holding what its cell was
      read back as. */
  lemma ReadRowCells(r: ExcelExport.SheetRow)
    requires Writable(r)
    ensures ReadRow(r).Some?
    ensures var row := ReadRow(r).value;
      && row.Keys == ColumnSet
      && row["Field Name"] == ReadBack(JStr(r.fieldName)).value
      && row["Type"] == ReadBack(r.typ).value
      && row["Format"] == ReadBack(r.format).value
      && row["Description"] == ReadBack(r.description).value
      && row["Example"] == ReadBack(r.example).value
      && row["$ref:"] == ReadBack(r.ref).value
  {
    ColumnsDistinct();
  }

  /** The reader returns a row keyed by the writer's columns, and each of its
      cells is what the entry the writer put in that column reads back as. */
  lemma ReadRowOfRowDict(r: ExcelExport.SheetRow)
    requires Writable(r)
    ensures ReadRow(r).Some?
    ensures forall c :: c in ReadRow(r).value <==> c in ExcelExport.Columns
    ensures forall i :: 0 <= i < |ExcelExport.RowDict(r)| ==>
      ReadBack(ExcelExport.RowDict(r)[i].1) == Some(ReadRow(r).value[ExcelExport.RowDict(r)[i].0])
  {
    ReadRowCells(r);
    var d := ExcelExport.RowDict(r);
    var row := ReadRow(r).value;
    assert d == [("Field Name", JStr(r.fieldName)), ("Type", r.typ), ("Format", r.format),
      ("Description", r.description), ("Example", r.example), ("Enum", JStr(r.enumText)),
      ("$ref:", r.ref)];
    forall i | 0 <= i < |d|
      ensures ReadBack(d[i].1) == Some(row[d[i].0])
    {
      if i == 0 {
      } else if i == 1 {
      } else if i == 2 {
      } else if i == 3 {
      } else if i == 4 {
      } else if i == 5 {
        assert row["Enum"] == ReadBack(JStr(r.enumText)).value;
      } else {
      }
    }
  }

  // ---------------------------------------------------------------------
  // The field schemas a row can carry

  /** The field schemas that fit the seven columns: a bare reference, an
      array of references, or a type with optional format, description and
      example. */
  datatype FieldShape =
    | RefShape(target: string)
    | ArrayRefShape(target: string)
    | PlainShape(typ: Json, format: Option<Json>, description: Option<Json>, example: Option<Json>)

  function Opt(key: string, v: Option<Json>): Fields {
    if v.Some? then [(key, v.value)] else []
  }

  function ShapeJson(sh: FieldShape): Json {
    match sh
    case RefShape(t) => JObj([("$ref", JStr(t))])
    case ArrayRefShape(t) => JObj([("type", JStr("array")), ("items", JObj([("$ref", JStr(t))]))])
    case PlainShape(t, f, d, e) => JObj([("type", t)] + Opt("format", f) + Opt("description", d) + Opt("example", e))
  }

  /** A reference target that is read back as itself. */
  predicate KeptTarget(t: string) {
    KeptText(t) && Strip(t) == t
  }

  predicate KeptOpt(v: Option<Json>) {
    v.Some? ==> Kept(v.value)
  }

  /** A shape every part of which is read back as itself. */
  predicate KeptShape(sh: FieldShape) {
    match sh
    case RefShape(t) => KeptTarget(t)
    case ArrayRefShape(t) => KeptTarget(t)
    case PlainShape(t, f, d, e) => Kept(t) && KeptOpt(f) && KeptOpt(d) && KeptOpt(e)
  }

  /** The value an optional cell is written with. */
  function OrBlank(v: Option<Json>): Json {
    if v.Some? then v.value else JStr("")
  }

  /** The row the encoder writes for a field of each shape. */
  function ShapeRow(name: string, sh: FieldShape): ExcelExport.SheetRow {
    match sh
    case RefShape(t) => ExcelExport.SheetRow(name, JStr(""), JStr(""), JStr(""), JStr(""), "", JStr(t))
    case ArrayRefShape(t) => ExcelExport.SheetRow(name, JStr("array"), JStr(""), JStr(""), JStr(""), "", JStr(t))
    case PlainShape(t, f, d, e) => ExcelExport.SheetRow(name, t, OrBlank(f), OrBlank(d), OrBlank(e), "", JStr(""))
  }

  lemma SchemaKeysDistinct()
    ensures "$ref" != "type" && "$ref" != "format" && "$ref" != "description" && "$ref" != "example"
    ensures "$ref" != "enum" && "$ref" != "items"
    ensures "type" != "format" && "type" != "description" && "type" != "example" && "type" != "enum" && "type" != "items"
    ensures "format" != "description" && "format" != "example" && "format" != "enum" && "format" != "items"
    ensures "description" != "example" && "description" != "enum" && "description" != "items"
    ensures "example" != "enum" && "example" != "items" && "enum" != "items"
  {
    assert "$ref"[0] != "type"[0] && "$ref"[0] != "format"[0] && "$ref"[0] != "description"[0];
    assert "$ref"[0] != "example"[0] && "$ref"[0] != "enum"[0] && "$ref"[0] != "items"[0];
    assert "type"[0] != "format"[0] && "type"[0] != "description"[0] && "type"[0] != "example"[0];
    assert "type"[0] != "enum"[0] && "type"[0] != "items"[0];
    assert "format"[0] != "description"[0] && "format"[0] != "example"[0] && "format"[0] != "enum"[0];
    assert "format"[0] != "items"[0];
    assert "description"[0] != "example"[0] && "description"[0] != "enum"[0] && "description"[0] != "items"[0];
    assert "example"[1] != "enum"[1] && "example"[0] != "items"[0] && "enum"[0] != "items"[0];
  }

  lemma OptLookup(key: string, v: Option<Json>, k: string)
    ensures k in Keys(Opt(key, v)) <==> v.Some? && k == key
    ensures Lookup(Opt(key, v), k) == if k == key then v else None
  {
    if v.Some? {
      assert Keys(Opt(key, v)) == [key];
    }
  }

  /** A lookup in a plain field finds its type, format, description and
      example, and nothing else. */
  lemma PlainLookup(t: Json, f: Option<Json>, d: Option<Json>, e: Option<Json>, k: string)
    requires k == "type" || k == "format" || k == "description" || k == "example" || k == "enum" || k == "$ref" || k == "items"
    ensures Lookup(ShapeJson(PlainShape(t, f, d, e)).fields, k) ==
      if k == "type" then Some(t) else if k == "format" then f else if k == "description" then d
      else if k == "example" then e else None
  {
    SchemaKeysDistinct();
    var a := [("type", t)];
    assert Keys(a) == ["type"];
    LookupAppend(a, Opt("format", f), k);
    OptLookup("format", f, k);
    KeysAppend2(a, Opt("format", f), k);
    LookupAppend(a + Opt("format", f), Opt("description", d), k);
    OptLookup("description", d, k);
    KeysAppend2(a + Opt("format", f), Opt("description", d), k);
    LookupAppend(a + Opt("format", f) + Opt("description", d), Opt("example", e), k);
    OptLookup("example", e, k);
  }

  lemma KeysAppend2(a: Fields, b: Fields, k: string)
    ensures k in Keys(a + b) <==> k in Keys(a) || k in Keys(b)
  {
    assert Keys(a + b) == Keys(a) + Keys(b);
  }

  /** The encoder writes `ShapeRow` for a field of each shape. */
  lemma EncodeShape(name: string, sh: FieldShape)
    ensures ExcelExport.EncodeField(name, ShapeJson(sh)) == Ok(ShapeRow(name, sh))
  {
    match sh
    case RefShape(t) => EncodeRef(name, t);
    case ArrayRefShape(t) => EncodeArrayRef(name, t);
    case PlainShape(t, f, d, e) => EncodePlain(name, t, f, d, e);
  }

  lemma EncodeRef(name: string, t: string)
    ensures ExcelExport.EncodeField(name, ShapeJson(RefShape(t))) == Ok(ShapeRow(name, RefShape(t)))
  {
    SchemaKeysDistinct();
    assert Lookup([("$ref", JStr(t))], "$ref") == Some(JStr(t));
  }

  lemma EncodeArrayRef(name: string, t: string)
    ensures ExcelExport.EncodeField(name, ShapeJson(ArrayRefShape(t))) == Ok(ShapeRow(name, ArrayRefShape(t)))
  {
    SchemaKeysDistinct();
    var items := [("$ref", JStr(t))];
    var fs := [("type", JStr("array")), ("items", JObj(items))];
    assert Lookup(fs, "type") == Some(JStr("array"));
    assert Lookup(fs, "items") == Some(JObj(items));
    assert Lookup(items, "$ref") == Some(JStr(t));
    assert Keys(items) == ["$ref"];
  }

  lemma EncodePlain(name: string, t: Json, f: Option<Json>, d: Option<Json>, e: Option<Json>)
    ensures ExcelExport.EncodeField(name, ShapeJson(PlainShape(t, f, d, e))) == Ok(ShapeRow(name, PlainShape(t, f, d, e)))
  {
    PlainLookup(t, f, d, e, "enum");
    PlainLookup(t, f, d, e, "type");
    PlainLookup(t, f, d, e, "format");
    PlainLookup(t, f, d, e, "description");
    PlainLookup(t, f, d, e, "example");
    PlainLookup(t, f, d, e, "$ref");
    PlainLookup(t, f, d, e, "items");
  }

  /** A blank cell reads back empty, and the text "array" as itself. */
  lemma NaFacts()
    ensures ReadBack(JStr("")) == Some(None)
    ensures ReadBack(JStr("array")) == Some(Some(CStr("array")))
  {
    assert !HasIllegal("");
    ArrayKept();
    KeptTextReads("array");
  }

  lemma ArrayKept()
    ensures KeptText("array")
  {
    assert forall s :: s in NaTexts ==> s == "" || s[0] != 'a';
    assert forall s :: s in ErrorCodes ==> s[0] == '#';
  }

  /** An optional cell written blank reads back empty, and one written with
      a kept value reads back as that value. */
  lemma EntryOfOpt(key: string, v: Option<Json>)
    requires KeptOpt(v)
    ensures ReadBack(OrBlank(v)).Some?
    ensures Entry(key, ReadBack(OrBlank(v)).value) == Opt(key, v)
  {
    NaFacts();
    if v.Some? {
      KeptReadsAsItself(v.value);
    }
  }

  /** Reading back the row of a field whose parts are all kept gives a row
      that decodes to the same property name and field schema. */
  lemma DecodeShapeRow(name: string, sh: FieldShape)
    requires KeptText(name) && KeptShape(sh)
    ensures ReadRow(ShapeRow(name, sh)).Some?
    ensures "Field Name" in ReadRow(ShapeRow(name, sh)).value && RowKey(ReadRow(ShapeRow(name, sh)).value) == name
    ensures DecodeField(ReadRow(ShapeRow(name, sh)).value) == ShapeJson(sh)
  {
    match sh
    case RefShape(t) => DecodeRefRow(name, t);
    case ArrayRefShape(t) => DecodeArrayRefRow(name, t);
    case PlainShape(t, f, d, e) => DecodePlainRow(name, t, f, d, e);
  }

  lemma DecodeRefRow(name: string, t: string)
    requires KeptText(name) && KeptTarget(t)
    ensures ReadRow(ShapeRow(name, RefShape(t))).Some?
    ensures "Field Name" in ReadRow(ShapeRow(name, RefShape(t))).value && RowKey(ReadRow(ShapeRow(name, RefShape(t))).value) == name
    ensures DecodeField(ReadRow(ShapeRow(name, RefShape(t))).value) == ShapeJson(RefShape(t))
  {
    NaFacts();
    var r := ShapeRow(name, RefShape(t));
    KeptTextReads(name);
    KeptTextReads(t);
    assert Writable(r);
    ReadRowCells(r);
    RefTargetKept(t);
    DecodeRefCells(ReadRow(r).value, name, t, None);
  }

  lemma DecodeArrayRefRow(name: string, t: string)
    requires KeptText(name) && KeptTarget(t)
    ensures ReadRow(ShapeRow(name, ArrayRefShape(t))).Some?
    ensures "Field Name" in ReadRow(ShapeRow(name, ArrayRefShape(t))).value && RowKey(ReadRow(ShapeRow(name, ArrayRefShape(t))).value) == name
    ensures DecodeField(ReadRow(ShapeRow(name, ArrayRefShape(t))).value) == ShapeJson(ArrayRefShape(t))
  {
    NaFacts();
    var r := ShapeRow(name, ArrayRefShape(t));
    KeptTextReads(name);
    KeptTextReads(t);
    assert Writable(r);
    ReadRowCells(r);
    RefTargetKept(t);
    DecodeRefCells(ReadRow(r).value, name, t, Some(CStr("array")));
  }

  /** A kept target is read from the "$ref:" cell as itself. */
  lemma RefTargetKept(t: string)
    requires KeptTarget(t)
    ensures RefTarget(Some(CStr(t))) == Some(t)
  {
    NaFacts();
  }

  /** A row named `name` whose "$ref:" cell holds a target read as itself
      decodes to a reference to it, inside an array when the Type
      cell says "array". */
  lemma DecodeRefCells(row: Row, name: string, t: string, typ: Option<Cell>)
    requires "Field Name" in row && row["Field Name"] == Some(CStr(name))
    requires "Type" in row && row["Type"] == typ
    requires "$ref:" in row && row["$ref:"] == Some(CStr(t))
    requires RefTarget(Some(CStr(t))) == Some(t)
    ensures RowKey(row) == name
    ensures typ == Some(CStr("array")) ==> DecodeField(row) == ShapeJson(ArrayRefShape(t))
    ensures typ != Some(CStr("array")) ==> DecodeField(row) == ShapeJson(RefShape(t))
  {
    assert CellOr(row, "$ref:", None) == Some(CStr(t));
  }

  lemma DecodePlainRow(name: string, t: Json, f: Option<Json>, d: Option<Json>, e: Option<Json>)
    requires KeptText(name) && Kept(t) && KeptOpt(f) && KeptOpt(d) && KeptOpt(e)
    ensures ReadRow(ShapeRow(name, PlainShape(t, f, d, e))).Some?
    ensures "Field Name" in ReadRow(ShapeRow(name, PlainShape(t, f, d, e))).value && RowKey(ReadRow(ShapeRow(name, PlainShape(t, f, d, e))).value) == name
    ensures DecodeField(ReadRow(ShapeRow(name, PlainShape(t, f, d, e))).value) == ShapeJson(PlainShape(t, f, d, e))
  {
    NaFacts();
    KeptTextReads(name);
    var r := ShapeRow(name, PlainShape(t, f, d, e));
    EntryOfOpt("format", f);
    EntryOfOpt("description", d);
    EntryOfOpt("example", e);
    assert Writable(r);
    ReadRowCells(r);
    KeptReadsAsItself(t);
    PlainField(ReadRow(r).value);
  }

  /** How an optional cell reads back: a kept value as itself, and a value
      read back empty (NaN, null, a blank or missing-value text, a formula,
      an error code) as nothing. */
  predicate ReadsAs(v: Option<Json>, w: Option<Json>) {
    KeptOpt(w) && (v == w || (w == None && v.Some? && ReadBack(v.value) == Some(None)))
  }

  /** A plain field whose format, description or example reads back empty
      loses that key: the decoder skips an empty cell. */
  lemma DecodeDropsEmpty(name: string, t: Json, f: Option<Json>, d: Option<Json>, e: Option<Json>,
                         f': Option<Json>, d': Option<Json>, e': Option<Json>)
    requires KeptText(name) && Kept(t)
    requires ReadsAs(f, f') && ReadsAs(d, d') && ReadsAs(e, e')
    ensures ReadRow(ShapeRow(name, PlainShape(t, f, d, e))).Some?
    ensures DecodeField(ReadRow(ShapeRow(name, PlainShape(t, f, d, e))).value) == ShapeJson(PlainShape(t, f', d', e'))
  {
    NaFacts();
    assert ReadBack(OrBlank(f)) == ReadBack(OrBlank(f'));
    assert ReadBack(OrBlank(d)) == ReadBack(OrBlank(d'));
    assert ReadBack(OrBlank(e)) == ReadBack(OrBlank(e'));
    assert ReadRow(ShapeRow(name, PlainShape(t, f, d, e))) == ReadRow(ShapeRow(name, PlainShape(t, f', d', e')));
    DecodePlainRow(name, t, f', d', e');
  }

  /** A NaN example is written blank, so the field comes back without one. */
  lemma NaNExampleDropped(name: string, t: Json)
    requires KeptText(name) && Kept(t)
    ensures DecodeField(ReadRow(ShapeRow(name, PlainShape(t, None, None, Some(JNum("NaN"))))).value)
      == JObj([("type", t)])
  {
    assert ReadBack(JNum("NaN")) == Some(None);
    assert ShapeJson(PlainShape(t, None, None, None)) == JObj([("type", t)]);
    DecodeDropsEmpty(name, t, None, None, Some(JNum("NaN")), None, None, None);
  }

  /** A field written by the encoder and read back by the decoder is the
      field it was, with its name: the bare reference, the array of
      references and the plain typed field all survive when their texts are
      not read as missing. */
  lemma FieldRoundTrip(name: string, sh: FieldShape)
    requires KeptText(name) && KeptShape(sh)
    ensures ExcelExport.EncodeField(name, ShapeJson(sh)).Ok?
    ensures ReadRow(ExcelExport.EncodeField(name, ShapeJson(sh)).value).Some?
    ensures "Field Name" in ReadRow(ExcelExport.EncodeField(name, ShapeJson(sh)).value).value && RowKey(ReadRow(ExcelExport.EncodeField(name, ShapeJson(sh)).value).value) == name
    ensures DecodeField(ReadRow(ExcelExport.EncodeField(name, ShapeJson(sh)).value).value) == ShapeJson(sh)
  {
    EncodeShape(name, sh);
    DecodeShapeRow(name, sh);
  }

  // ---------------------------------------------------------------------
  // Whole sheets

  /** The rows as the reader returns them, if every row can be written. */
  function ReadRows(rows: seq<ExcelExport.SheetRow>): Option<seq<Row>>
    decreases |rows|
  {
    if rows == [] then Some([])
    else
      match ReadRows(rows[..|rows| - 1])
      case None => None
      case Some(front) =>
        match ReadRow(rows[|rows| - 1])
        case None => None
        case Some(last) => Some(front + [last])
  }

  /** The sheet as the reader returns it. A sheet written without rows has
      no header either, so it comes back without columns. */
  function ReadSheet(name: string, rows: seq<ExcelExport.SheetRow>): Option<Sheet> {
    if rows == [] then Some(Sheet(name, {}, []))
    else
      match ReadRows(rows)
      case None => None
      case Some(read) => Some(Sheet(name, ColumnSet, read))
  }

  /** Properties every field of which fits the columns and survives the
      trip, under distinct names the reader does not take for missing. */
  ghost predicate TabularProps(props: Fields) {
    NoDup(Keys(props)) && forall i :: 0 <= i < |props| ==> TabularField(props[i])
  }

  ghost predicate TabularField(p: (string, Json)) {
    KeptText(p.0) && exists sh :: KeptShape(sh) && ShapeJson(sh) == p.1
  }

  lemma ReadRowsAppend(rows: seq<ExcelExport.SheetRow>, r: ExcelExport.SheetRow)
    requires ReadRows(rows).Some? && ReadRow(r).Some?
    ensures ReadRows(rows + [r]) == Some(ReadRows(rows).value + [ReadRow(r).value])
  {
    assert (rows + [r])[..|rows|] == rows;
  }

  /** `rows` are read back with the seven columns, each with a field name,
      and decode to `props`. */
  predicate ReadsBackAs(rows: seq<ExcelExport.SheetRow>, props: Fields) {
    && ReadRows(rows).Some?
    && (forall r :: r in ReadRows(rows).value ==> r.Keys == ColumnSet)
    && Named(ReadRows(rows).value)
    && PutRows([], ReadRows(rows).value) == props
  }

  /** The rows written for the first `k` properties read back, with the
      seven columns, and decode to those `k` properties, in order. */
  lemma {:induction false} RowsRoundTrip(props: Fields, k: nat)
    requires TabularProps(props) && k <= |props|
    ensures ExcelExport.RowsUpTo(props, k).Ok? && |ExcelExport.RowsUpTo(props, k).value| == k
    ensures ReadsBackAs(ExcelExport.RowsUpTo(props, k).value, props[..k])
  {
    if k == 0 {
      assert ExcelExport.RowsUpTo(props, 0) == Ok([]);
    } else {
      var j: nat := k - 1;
      RowsRoundTrip(props, j);
      RowsRoundTripStep(props, j, k);
    }
  }

  lemma RowsRoundTripStep(props: Fields, j: nat, k: nat)
    requires TabularProps(props) && k == j + 1 <= |props|
    requires ExcelExport.RowsUpTo(props, j).Ok? && |ExcelExport.RowsUpTo(props, j).value| == j
    requires ReadsBackAs(ExcelExport.RowsUpTo(props, j).value, props[..j])
    ensures ExcelExport.RowsUpTo(props, k).Ok? && |ExcelExport.RowsUpTo(props, k).value| == k
    ensures ReadsBackAs(ExcelExport.RowsUpTo(props, k).value, props[..k])
  {
    FieldStep(props, j);
    var rows := ExcelExport.RowsUpTo(props, j).value;
    var row := ExcelExport.EncodeField(props[j].0, props[j].1).value;
    ExcelExport.RowsStep(props, j, k);
    assert ExcelExport.RowsUpTo(props, k) == Ok(rows + [row]);
    ReadRowsAppend(rows, row);
    var read := ReadRows(rows).value;
    var cells := ReadRow(row).value;
    PutRowsSnoc([], read, cells);
    PrefixPut(props, j, k);
  }

  /** Field `j` of tabular properties is written as one row that reads
      back with the seven columns and decodes to the same name and field. */
  lemma FieldStep(props: Fields, j: nat)
    requires TabularProps(props) && j < |props|
    ensures ExcelExport.EncodeField(props[j].0, props[j].1).Ok?
    ensures ReadRow(ExcelExport.EncodeField(props[j].0, props[j].1).value).Some?
    ensures var cells := ReadRow(ExcelExport.EncodeField(props[j].0, props[j].1).value).value;
      && cells.Keys == ColumnSet && "Field Name" in cells
      && RowKey(cells) == props[j].0 && DecodeField(cells) == props[j].1
  {
    assert TabularField(props[j]);
    var sh :| KeptShape(sh) && ShapeJson(sh) == props[j].1;
    FieldRoundTrip(props[j].0, sh);
    ReadRowCells(ExcelExport.EncodeField(props[j].0, props[j].1).value);
  }

  lemma PutRowsSnoc(props: Fields, rows: seq<Row>, last: Row)
    requires Named(rows) && "Field Name" in last
    ensures Named(rows + [last])
    ensures PutRows(props, rows + [last]) == Put(PutRows(props, rows), RowKey(last), DecodeField(last))
  {
    assert Named([last]);
    PutRowsAppend(props, rows, [last]);
    assert [last][1..] == [];
  }

  /** Putting the next field of distinct-named properties after the ones
      before it extends the prefix. */
  lemma PrefixPut(props: Fields, j: nat, k: nat)
    requires NoDup(Keys(props)) && k == j + 1 <= |props|
    ensures Put(props[..j], props[j].0, props[j].1) == props[..k]
  {
    var front, p := props[..j], props[j];
    forall i | 0 <= i < j
      ensures Keys(front)[i] != p.0
    {
      assert Keys(front)[i] == Keys(props)[i];
      assert Keys(props)[j] == p.0;
    }
    assert p.0 !in Keys(front);
    PutKeys(front, p.0, p.1);
    assert front + [p] == props[..k];
  }

  /** The sheet written for an object whose properties all survive the trip
      decodes to exactly those properties; an object without properties
      gives a sheet without a "Field Name" column, which the decoder
      skips. */
  lemma SheetRoundTrip(name: string, props: Fields)
    requires TabularProps(props)
    ensures ExcelExport.RowsUpTo(props, |props|).Ok?
    ensures ReadSheet(name, ExcelExport.RowsUpTo(props, |props|).value).Some?
    ensures Rectangular(ReadSheet(name, ExcelExport.RowsUpTo(props, |props|).value).value)
    ensures props == [] ==> "Field Name" !in ReadSheet(name, ExcelExport.RowsUpTo(props, |props|).value).value.columns
    ensures props != [] ==> "Field Name" in ReadSheet(name, ExcelExport.RowsUpTo(props, |props|).value).value.columns
    ensures props != [] ==> Named(ReadSheet(name, ExcelExport.RowsUpTo(props, |props|).value).value.rows) && PutRows([], ReadSheet(name, ExcelExport.RowsUpTo(props, |props|).value).value.rows) == props
  {
    if props == [] {
      assert ExcelExport.RowsUpTo(props, 0) == Ok([]);
    } else {
      PropsRoundTrip(name, props);
    }
  }

  lemma PropsRoundTrip(name: string, props: Fields)
    requires TabularProps(props) && props != []
    ensures ExcelExport.RowsUpTo(props, |props|).Ok?
    ensures ReadSheet(name, ExcelExport.RowsUpTo(props, |props|).value).Some?
    ensures Rectangular(ReadSheet(name, ExcelExport.RowsUpTo(props, |props|).value).value)
    ensures "Field Name" in ReadSheet(name, ExcelExport.RowsUpTo(props, |props|).value).value.columns
    ensures Named(ReadSheet(name, ExcelExport.RowsUpTo(props, |props|).value).value.rows)
    ensures PutRows([], ReadSheet(name, ExcelExport.RowsUpTo(props, |props|).value).value.rows) == props
  {
    RowsRoundTrip(props, |props|);
    WrittenSheet(name, props);
  }

  lemma WrittenSheet(name: string, props: Fields)
    requires props != [] && ExcelExport.RowsUpTo(props, |props|).Ok?
    requires |ExcelExport.RowsUpTo(props, |props|).value| == |props|
    requires ReadsBackAs(ExcelExport.RowsUpTo(props, |props|).value, props[..|props|])
    ensures ExcelExport.RowsUpTo(props, |props|).Ok?
    ensures ReadSheet(name, ExcelExport.RowsUpTo(props, |props|).value).Some?
    ensures Rectangular(ReadSheet(name, ExcelExport.RowsUpTo(props, |props|).value).value)
    ensures "Field Name" in ReadSheet(name, ExcelExport.RowsUpTo(props, |props|).value).value.columns
    ensures Named(ReadSheet(name, ExcelExport.RowsUpTo(props, |props|).value).value.rows)
    ensures PutRows([], ReadSheet(name, ExcelExport.RowsUpTo(props, |props|).value).value.rows) == props
  {
    var rows := ExcelExport.RowsUpTo(props, |props|).value;
    assert props[..|props|] == props;
    ReadNonEmptySheet(name, rows, props);
  }

  lemma ReadNonEmptySheet(name: string, rows: seq<ExcelExport.SheetRow>, props: Fields)
    requires rows != [] && ReadsBackAs(rows, props)
    ensures ReadSheet(name, rows).Some?
    ensures Rectangular(ReadSheet(name, rows).value)
    ensures "Field Name" in ReadSheet(name, rows).value.columns
    ensures Named(ReadSheet(name, rows).value.rows) && PutRows([], ReadSheet(name, rows).value.rows) == props
  {
    assert "Field Name" in ColumnSet;
  }
}

# JSON-schema-utils, modelled in Dafny

JSON-schema-utils is four command-line scripts. Each wraps one in-memory
transformation in file I/O. This project models the four transformations
and proves properties of them:

- **Example to schema** (`schema_inference.dfy`).
  - `infer_type` and the recursive `generate_schema_from_example` are modelled.
  - The shared `definitions` dict is a `DefinitionsTable` class. The recursive methods write into it in place.
  - Each method is proved equal to a specification function, `Infer`.
  - The root decoration done by `generate_full_schema` is modelled too.
  - The table a call leaves is characterised as the call's writes (`Writes`) applied in order.
- **Schema to example** (`reification.dfy`).
  - `generate_example_from_schema` is a recursive function.
  - A `$ref` is resolved in one step by its last `/` segment.
  - Leaves fall back to placeholders.
  - Python's recursion limit is a `fuel` parameter.
- **Schema to spreadsheet** (`excel_export.dfy`).
  - `process_object` is a method with a loop that appends one seven-column row per property.
  - `generate_excel_from_schema` yields the root's sheet, then one sheet per definition.
  - Both are proved against the functions `EncodeField`, `RowsUpTo`, `ObjectRows` and `Workbook`.
- **Spreadsheet to schema** (`excel_import.dfy`).
  - The sheet loop and the row loop of `generate_schema_from_excel` are methods, proved against `DecodeField`, `PutRows`, `PlaceAll` and `Decode`.
  - A row is a map from column name to `Option<Cell>`. A missing column is a missing key. An empty (NaN) cell is `None`.
- **Round trips**.
  - `round_trip.dfy`: schema to example after example to schema returns the example with every list cut to its first element.
  - `tabular_round_trip.dfy`: a field written by the spreadsheet encoder and read back by the decoder is the field it was.

`json_model.dfy` holds the shared pieces:
- the `Json` value, whose dicts are ordered association lists;
- Python dict assignment (`Put`): an existing key keeps its place, a new key is appended;
- `get`, `in` and indexing, with the exceptions they raise on the wrong operand type;
- `str.capitalize`, `str.strip`, `split("/")[-1]` and `", ".join`.

Malformed input is not excluded by preconditions. The exception Python would raise is modelled as `Err(TypeError | AttributeError | KeyError)` of a `Result`.

Where the code behaves differently from what its branches suggest, the model follows the code:

- Booleans infer as `"integer"`, not `"boolean"`.
  - `isinstance(v, int)` is tested before `isinstance(v, bool)`, and Python's `bool` is a subclass of `int`.
  - `InferType` proves that `"boolean"` is never produced.
- An unresolvable `$ref` reifies to `None`, not `{}`.
  - The missing definition falls back to `{}`, which has no "type" and no "example".
  - A definition that is itself a bare `$ref` also gives `None`.
- Malformed schemas raise exceptions rather than being handled silently. Examples: a non-string `$ref`, a non-dict property schema, an unsearchable "items".
- The description of a non-dict field is `"Description for <key>"`. The field loop overwrites the path-based description set by the leaf branch.
- The example round trip needs two conditions:
  - the hoisted definition names are pairwise distinct;
  - no hoisted name contains a `/`. Resolution keeps only what follows the last `/`, so a key such as `"a/b"` would be looked up as `"b"`.

## Model

| member | source | states |
|---|---|---|
| JsonModel.Put | example_to_schema/generate_schema_from_example.py:41 | after `d[k] = v` looking up `k` gives `v` |
| JsonModel.PutKeys | example_to_schema/generate_schema_from_example.py:41-42 | assigning an existing key keeps the key list unchanged; assigning a new key appends `(k, v)` at the end |
| JsonModel.PutNoDup | example_to_schema/generate_schema_from_example.py:41-42 | dict assignment keeps the keys distinct |
| JsonModel.LookupPutOther | example_to_schema/generate_schema_from_example.py:41 | assigning one key leaves the value of every other key unchanged |
| JsonModel.Get | schema_to_example/generate_example_from_schema.py:9 | `d.get(k, default)` succeeds exactly on a dict, and gives the stored value when `k` is present and `default` otherwise |
| JsonModel.Contains | schema_to_excel/generate_excel_from_schema.py:42 | `k in x` is key membership on a dict, element membership on a list and substring search on a string; it raises TypeError, and only TypeError, exactly when `x` is none of these |
| JsonModel.Index | schema_to_excel/generate_excel_from_schema.py:43 | `x[k]` succeeds exactly when `x` is a dict holding `k`, and then gives the stored value |
| JsonModel.Capitalize | example_to_schema/generate_schema_from_example.py:40 | same length; the first character is upper-cased and every other character lower-cased |
| JsonModel.CapitalizeKeepsSlashes | example_to_schema/generate_schema_from_example.py:40 | capitalizing neither adds nor removes a '/' |
| JsonModel.LastSegment | schema_to_example/generate_example_from_schema.py:13 | `s.split("/")[-1]` is a suffix of `s` without '/', preceded by a '/' when it is shorter than `s` |
| JsonModel.LastSegmentAfterSlash | schema_to_example/generate_example_from_schema.py:13 | a reference `prefix + "/" + name` with no '/' in `name` resolves to `name` |
| JsonModel.Strip | excel_to_schema/generate_schema_from_excel.py:42 | the result has no surrounding whitespace; it is empty exactly when the text is all whitespace; already-stripped text is unchanged |
| JsonModel.StripBetween | excel_to_schema/generate_schema_from_excel.py:42 | the stripped text is the slice of the input that starts right after its leading whitespace and that only whitespace follows |
| SchemaInference.InferType | example_to_schema/generate_schema_from_example.py:4-23 | dict gives "object", list "array", str "string", float "number" and None "null", each if and only if; int and bool both give "integer"; "boolean" is never returned |
| SchemaInference.Infer | example_to_schema/generate_schema_from_example.py:32-57 | a call's node is a dict whose "type" is `infer_type(example)`; its keys are exactly type+properties for a dict, type+items for a list, and type+description+example otherwise, in that order |
| SchemaInference.InferIsWrites | example_to_schema/generate_schema_from_example.py:25-59 | the node a call returns does not depend on the table passed in; the table it leaves is the given table with the call's writes applied in order |
| SchemaInference.FieldStepIsWrites | example_to_schema/generate_schema_from_example.py:36-46 | the same for one iteration of the field loop |
| SchemaInference.PutAllWritten | example_to_schema/generate_schema_from_example.py:41 | a write to the table that no later write overrides survives to the end (last write wins) |
| SchemaInference.PutAllKeys | example_to_schema/generate_schema_from_example.py:41 | writes never remove a table name, and existing names keep their places |
| SchemaInference.PropsKeys | example_to_schema/generate_schema_from_example.py:35-46 | after `k` iterations the "properties" dict has the example's first `k` keys, in order |
| SchemaInference.PropsAt | example_to_schema/generate_schema_from_example.py:36-46 | entry `i` of "properties" is field `i`'s key with its field node |
| SchemaInference.ObjectProperties | example_to_schema/generate_schema_from_example.py:35-46 | "properties" has exactly the example's keys in order; a dict field is `{"$ref": "#/definitions/" + key.capitalize()}`; any other field has type `infer_type(value)`, description "Description for <key>" and example = value |
| SchemaInference.DictFieldHoisted | example_to_schema/generate_schema_from_example.py:38-42 | after a dict field's iteration, `definitions[key.capitalize()]` is the schema inferred for the nested dict at `path.key`, even when the nested call wrote the same name |
| SchemaInference.DefinitionsOnlyGrow | example_to_schema/generate_schema_from_example.py:38-42 | a call never removes a definition, and a name it does not write keeps its entry |
| SchemaInference.ArrayUsesFirstElementOnly | example_to_schema/generate_schema_from_example.py:48-52 | "items" is the node of element 0 at `path[]`, and elements after the first change neither the node nor the table; a dict element stays inline; an empty list gets `{"type": "string"}` |
| SchemaInference.DecorateKeys | example_to_schema/generate_schema_from_example.py:76-79 | decoration adds "$schema", "title" and "definitions" after the node's keys; "type" keeps its place |
| SchemaInference.FullSchemaKeys | example_to_schema/generate_schema_from_example.py:74-79 | for any root kind, the root's keys are the node's keys followed by "$schema", "title" and "definitions" |
| SchemaInference.FullSchemaEntries | example_to_schema/generate_schema_from_example.py:74-79 | for any root kind: "$schema" is the draft-07 URI, the title is "Generated Schema", the type is "object", and "definitions" is the table the call left |
| SchemaInference.DefinitionsTable.constructor | example_to_schema/generate_schema_from_example.py:74 | the table starts empty |
| SchemaInference.GenerateSchema | example_to_schema/generate_schema_from_example.py:25-59 | the returned node, and the table's new state, are those `Infer` gives for the table's old state |
| SchemaInference.GenerateProperties | example_to_schema/generate_schema_from_example.py:35-46 | the field loop builds the "properties" dict and updates the table as `InferPropsUpTo` says |
| SchemaInference.GenerateField | example_to_schema/generate_schema_from_example.py:37-46 | one loop iteration updates "properties" and the table as `FieldStep` says |
| SchemaInference.GenerateFullSchema | example_to_schema/generate_schema_from_example.py:74-79 | returns the decorated root `FullSchema(example)` |
| Reification.Resolve | schema_to_example/generate_example_from_schema.py:12-14 | a `$ref` is looked up by its last segment, with `{}` when the name is missing; a non-dict node, a missing key, a non-string ref or a non-dict table is the matching exception |
| Reification.Leaf | schema_to_example/generate_example_from_schema.py:29-42 | a leaf gives its "example" verbatim if present; otherwise "string_example", 123, 123.45 or True by type, and None for any other or missing type |
| Reification.ReifyPropsUnfold | schema_to_example/generate_example_from_schema.py:20-21 | each iteration assigns the reified field value under its name |
| Reification.DefinitionsFromRoot | schema_to_example/generate_example_from_schema.py:8-9 | the first call takes the root's "definitions", or `{}` when it has none |
| Reification.RefReplacesNode | schema_to_example/generate_example_from_schema.py:12-14 | a node with a string "$ref" is replaced wholesale by the definition named by the ref's last segment; its sibling keys are ignored |
| Reification.ReifyRef | schema_to_example/generate_example_from_schema.py:12-14 | a node with "$ref" reifies as its resolved target, one level down |
| Reification.MissingDefinitionIsNull | schema_to_example/generate_example_from_schema.py:14-42 | a reference to a missing definition reifies to None |
| Reification.RefToBareRefIsNull | schema_to_example/generate_example_from_schema.py:12-42 | references are followed once: a definition that is itself only a `$ref` reifies to None |
| Reification.UntypedIsNull | schema_to_example/generate_example_from_schema.py:29-42 | a node with neither "type" nor "example" reifies to None |
| Reification.ArrayYieldsOneElement | schema_to_example/generate_example_from_schema.py:24-27 | an array node yields a one-element list of the reified "items"; without "items" it yields `[None]` |
| Reification.LeafNode | schema_to_example/generate_example_from_schema.py:29-42 | a node whose type is neither "object" nor "array" reifies to its leaf value |
| Reification.ObjectYieldsProperties | schema_to_example/generate_example_from_schema.py:16-22 | an object node yields a dict with exactly the property names in declaration order, each reified with the same table; without "properties" it yields `{}` |
| Reification.PropsReified | schema_to_example/generate_example_from_schema.py:19-21 | after `k` iterations the dict has the first `k` property names, each holding its reified value |
| RoundTrip.ObjectSchemaReads | example_to_schema/generate_schema_from_example.py:34-46 | an inferred object node reifies through its "properties", which has one entry per example field |
| RoundTrip.ArraySchemaReads | example_to_schema/generate_schema_from_example.py:48-52 | an inferred array node reifies to a one-element list of its items' value |
| RoundTrip.ScalarSchemaReads | example_to_schema/generate_schema_from_example.py:54-57 | a scalar's inferred node reifies to the scalar itself |
| RoundTrip.StringNodeReads | example_to_schema/generate_schema_from_example.py:52 | an empty list's items node reifies to "string_example" |
| RoundTrip.RefFieldReads | schema_to_example/generate_example_from_schema.py:12-14 | `{"$ref": "#/definitions/" + name}` with no '/' in `name` reifies as the table's entry for `name` |
| RoundTrip.FieldNodeReads | example_to_schema/generate_schema_from_example.py:43-46 | overwriting description and example does not change what a non-dict field's node reifies to |
| RoundTrip.DictFieldReads | example_to_schema/generate_schema_from_example.py:38-42 | a dict field's `$ref` reifies as the hoisted node does |
| RoundTrip.NodeRoundTrip | schema_to_example/generate_example_from_schema.py:12-42 | given a table that resolves every write and enough fuel, an inferred node reifies to the collapsed example |
| RoundTrip.FieldRoundTrip | example_to_schema/generate_schema_from_example.py:37-46 | the same for a field, through its entry in "properties" |
| RoundTrip.PropsRoundTrip | schema_to_example/generate_example_from_schema.py:19-21 | the properties loop rebuilds the first `k` collapsed fields, in order |
| RoundTrip.TableResolves | example_to_schema/generate_schema_from_example.py:41 | when no name is written twice and none holds '/', the final table resolves every write |
| RoundTrip.RootNoRef | example_to_schema/generate_schema_from_example.py:74-79 | the decorated root has no "$ref" key |
| RoundTrip.RootReads | schema_to_example/generate_example_from_schema.py:8-14 | the first call reads the decorated root's table and reifies the root node as the inferred node |
| RoundTrip.ExampleRoundTrip | schema_to_example/generate_example_from_schema.py:4-42 | reifying the full schema of a dict example gives back the example with each list cut to its first element and empty lists as `["string_example"]`; this needs distinct hoisted names without '/' and fuel beyond the nesting depth |
| RoundTrip.NonDictRootIsEmpty | example_to_schema/generate_schema_from_example.py:74-79 | a root that is not a dict is typed "object" without "properties", so it reifies to `{}` |
| RoundTrip.EmptyObjectNode | schema_to_example/generate_example_from_schema.py:16-22 | an object node without "properties" reifies to `{}` |
| ExcelExport.RowDict | schema_to_excel/generate_excel_from_schema.py:25-33 | a row has exactly the columns Field Name, Type, Format, Description, Example, Enum and $ref:, in that order |
| ExcelExport.EnumText | schema_to_excel/generate_excel_from_schema.py:31 | the join succeeds exactly for a string, a dict or a list of strings; a list gives its items joined and a dict its keys joined |
| ExcelExport.OwnRef | schema_to_excel/generate_excel_from_schema.py:36-37 | the rule for the field's own "$ref" changes only the $ref: cell |
| ExcelExport.ArrayRef | schema_to_excel/generate_excel_from_schema.py:40-43 | the array "items" rule changes only the $ref: cell |
| ExcelExport.ItemsRef | schema_to_excel/generate_excel_from_schema.py:42-43 | `if "$ref" in items` changes only the $ref: cell |
| ExcelExport.BuildRow | schema_to_excel/generate_excel_from_schema.py:25-45 | the loop body builds the row, or raises the exception, that `EncodeField` gives |
| ExcelExport.ProcessObject | schema_to_excel/generate_excel_from_schema.py:19-46 | `process_object` returns the rows, or the first exception, that `ObjectRows` gives |
| ExcelExport.GenerateWorkbook | schema_to_excel/generate_excel_from_schema.py:48-57 | the sheets written are those, or the exception raised is the one, that `Workbook` gives |
| ExcelExport.ProcessDefinitions | schema_to_excel/generate_excel_from_schema.py:54-57 | the definitions loop writes the sheets `DefinitionSheets` gives, stopping at the first exception |
| ExcelExport.AddDefinitionSheet | schema_to_excel/generate_excel_from_schema.py:56-57 | one pass of that loop appends the sheet for definition `i` |
| ExcelExport.RowsErrPersists | schema_to_excel/generate_excel_from_schema.py:24-45 | the first exception raised for a property is the call's result; later properties are not looked at |
| ExcelExport.RowsNext | schema_to_excel/generate_excel_from_schema.py:24-45 | one pass appends property `i`'s row, or its exception becomes the call's result |
| ExcelExport.SheetsErrPersists | schema_to_excel/generate_excel_from_schema.py:55-57 | the first definition that raises decides the result |
| ExcelExport.RowsOnePerProperty | schema_to_excel/generate_excel_from_schema.py:24-45 | rows exist if and only if every property's row can be built; there is then one row per property, in declaration order |
| ExcelExport.NoPropertiesNoRows | schema_to_excel/generate_excel_from_schema.py:21-24 | missing or empty "properties" gives zero rows |
| ExcelExport.NonDictFieldFails | schema_to_excel/generate_excel_from_schema.py:27 | a property schema that is not a dict raises AttributeError |
| ExcelExport.FieldCells | schema_to_excel/generate_excel_from_schema.py:25-31 | Field Name is the property name; Type, Format, Description and Example are copied when present and "" otherwise; Enum is the joined "enum" when present and "" otherwise |
| ExcelExport.RefCell | schema_to_excel/generate_excel_from_schema.py:36-43 | $ref: holds the field's own "$ref" only when the field has no "type"; a field typed other than "array", or an array without "items", gets a blank $ref: |
| ExcelExport.ArrayRefCell | schema_to_excel/generate_excel_from_schema.py:40-43 | a field typed "array" with dict "items" gets `items["$ref"]`, or a blank cell when items has no "$ref" |
| ExcelExport.ArraySearchableItems | schema_to_excel/generate_excel_from_schema.py:40-43 | a field typed "array" whose "items" is a list holding "$ref" or a string containing "$ref" raises TypeError at `items["$ref"]`; any other list or string leaves the `$ref:` cell blank |
| ExcelExport.ArrayItemsNotSearchable | schema_to_excel/generate_excel_from_schema.py:42 | a field typed "array" whose "items" is a number, boolean or null raises TypeError |
| ExcelExport.DefinitionSheetsInOrder | schema_to_excel/generate_excel_from_schema.py:55-57 | one sheet per definition, in table order, each named by the definition and holding its rows |
| ExcelExport.WorkbookOrder | schema_to_excel/generate_excel_from_schema.py:50-57 | the root's sheet comes first, named by its "title" or "Main", followed by one sheet per definition in table order |
| ExcelImport.FieldKey | excel_to_schema/generate_schema_from_excel.py:59 | a text "Field Name" cell is the property name as written |
| ExcelImport.BuildField | excel_to_schema/generate_schema_from_excel.py:34-57 | builds, key by key, the field schema that `DecodeField` gives |
| ExcelImport.SheetProperties | excel_to_schema/generate_schema_from_excel.py:32-59 | the row loop builds the properties `PutRows` gives |
| ExcelImport.GenerateSchemaFromExcel | excel_to_schema/generate_schema_from_excel.py:16-66 | the sheet loop and the final assembly give the schema `Decode` gives |
| ExcelImport.PlainField | excel_to_schema/generate_schema_from_excel.py:50-57 | without a non-blank $ref: cell the field is its type, then the non-empty format, description and example, in that order; a missing Type column gives "string" and a missing Description column gives "" |
| ExcelImport.RefField | excel_to_schema/generate_schema_from_excel.py:41-49 | a non-blank $ref: cell gives `{"$ref": stripped}`, or `{"type": "array", "items": {"$ref": stripped}}` when Type is "array" |
| ExcelImport.RefFieldIgnoresOtherCells | excel_to_schema/generate_schema_from_excel.py:41-49 | with a non-blank $ref: cell, format, description and example are dropped |
| ExcelImport.UnreadColumn | excel_to_schema/generate_schema_from_excel.py:34-39 | only the Type, Format, Description, Example and $ref: cells affect the field |
| ExcelImport.EnumNeverRead | excel_to_schema/generate_schema_from_excel.py:34-39 | the Enum column is never read back |
| ExcelImport.PutRowsAppend | excel_to_schema/generate_schema_from_excel.py:33-59 | reading more rows continues from the properties built so far |
| ExcelImport.UntouchedName | excel_to_schema/generate_schema_from_excel.py:59 | a property name that no row carries keeps its entry |
| ExcelImport.LastRowWins | excel_to_schema/generate_schema_from_excel.py:59 | with a repeated Field Name, the last such row decides that property |
| ExcelImport.OutputShape | excel_to_schema/generate_schema_from_excel.py:16-22 | for any workbook the schema has "$schema" (draft-07), title "Generated Schema", type "object", "properties" and "definitions", in that order |
| ExcelImport.PlaceAllAppend | excel_to_schema/generate_schema_from_excel.py:25-66 | sheets are read in workbook order, each continuing from the output so far |
| ExcelImport.SkippedSheet | excel_to_schema/generate_schema_from_excel.py:25-29 | a sheet without a "Field Name" column contributes nothing, and later sheets are read as if it were absent |
| ExcelImport.TitleSheetPlaced | excel_to_schema/generate_schema_from_excel.py:62-63 | the sheet named "Generated Schema" replaces the root properties wholesale and leaves the definitions alone |
| ExcelImport.DefinitionSheetPlaced | excel_to_schema/generate_schema_from_excel.py:64-66 | any other sheet S sets `definitions[S]` to an object schema with its properties and `properties[S]` to `{"$ref": "#/definitions/S"}`; all other entries are unchanged |
| ExcelImport.DefinitionsOnlyGrow | excel_to_schema/generate_schema_from_excel.py:64-65 | definitions are added or overwritten, never removed |
| TabularRoundTrip.ReadBackNumber | schema_to_excel/generate_excel_from_schema.py:51 | a floating-point number is read back as itself exactly when it is finite; NaN is written blank and reads back empty, and an infinity reads back as the text "inf" or "-inf" |
| TabularRoundTrip.KeptReadsAsItself | excel_to_schema/generate_schema_from_excel.py:26 | a value is read back as itself exactly when it is kept: a boolean, an integer, a finite floating-point number, or a text of at most 32767 characters, without the control characters the writer refuses, that is not a formula (two or more characters starting with '='), not an Excel error code and not a missing-value text |
| TabularRoundTrip.KeptTextReads | excel_to_schema/generate_schema_from_excel.py:26 | a kept text is stored and read back unchanged |
| TabularRoundTrip.ReadRowCells | schema_to_excel/generate_excel_from_schema.py:25-33 | a written row reads back with the seven columns, each holding its cell |
| TabularRoundTrip.ReadRowOfRowDict | schema_to_excel/generate_excel_from_schema.py:25-33 | the row read back is keyed by exactly the columns of the dict the writer built, and each cell is what that dict's entry reads back as |
| TabularRoundTrip.EncodeShape | schema_to_excel/generate_excel_from_schema.py:25-43 | the encoder's row for a bare reference, an array of references, or a plain typed field |
| TabularRoundTrip.DecodeShapeRow | excel_to_schema/generate_schema_from_excel.py:34-57 | the row of a field whose every part is kept (so no NaN, infinity or empty-reading text), read back, decodes to the same name and field schema |
| TabularRoundTrip.DecodeRefCells | excel_to_schema/generate_schema_from_excel.py:41-49 | a row whose $ref: cell holds R decodes to `{"$ref": R}`, or to an array of such references when Type is "array" |
| TabularRoundTrip.FieldRoundTrip | excel_to_schema/generate_schema_from_excel.py:34-57 | encoding a field and decoding the row read back gives the field and its name: `{"$ref": R}`, `{"type": "array", "items": {"$ref": R}}` and plain typed fields all survive when every part is kept (no NaN or infinite number, no text read back empty or changed) |
| TabularRoundTrip.DecodeDropsEmpty | excel_to_schema/generate_schema_from_excel.py:50-57 | a plain field whose format, description or example reads back empty (NaN, null, a blank or missing-value text, a formula, an error code) decodes without that key, the others kept |
| TabularRoundTrip.NaNExampleDropped | excel_to_schema/generate_schema_from_excel.py:56-57 | a NaN example is lost: the field decodes to its type alone |
| TabularRoundTrip.PrefixPut | excel_to_schema/generate_schema_from_excel.py:59 | with distinct names, assigning the next field extends the properties built so far |
| TabularRoundTrip.RowsRoundTrip | schema_to_excel/generate_excel_from_schema.py:24-45 | the rows written for the first `k` properties read back with the seven columns and decode to those `k` properties, in order, when every property is tabular (all parts kept, so no NaN format, description or example) |
| TabularRoundTrip.SheetRoundTrip | excel_to_schema/generate_schema_from_excel.py:25-59 | the sheet written for tabular properties (distinct kept names, every part kept, so no NaN format, description or example) decodes to exactly those properties; an object without properties gives a sheet without a "Field Name" column |
| TabularRoundTrip.PropsRoundTrip | excel_to_schema/generate_schema_from_excel.py:32-59 | the same for a non-empty list of tabular properties, whose parts are all kept (no NaN values) |

## Left out

- File loading and saving, `print` messages, `sys.exit` and the command-line entry points. They are I/O with no logic of their own. This includes the "No properties found" warning at schema_to_excel/generate_excel_from_schema.py:22-23.
- The `try`/`except` around the workbook code. Any exception is modelled as the `Err` the model returns, which is where the script prints and exits.
- pandas and openpyxl.
  - The spreadsheet is a list of sheets of rows. Writing then reading a cell is the function `ReadBack`, which follows the writer's rules for text:
    - a text longer than 32767 characters is cut to that length;
    - a text with a control character other than tab, line feed and carriage return makes the writer raise;
    - a text of two or more characters starting with '=' is stored as a formula, which reads back empty because nothing computes it;
    - an Excel error code ("#NULL!", "#DIV/0!", "#VALUE!", "#REF!", "#NAME?", "#NUM!", "#N/A") is stored as an error cell, which reads back empty;
    - a NaN number is written as a blank cell, which reads back empty, and an infinity as the text "inf" or "-inf" (`ReadBackNumber`).
  - `ReadBack` assumes the reader's default missing-value texts (`NaTexts`), so a blank cell reads back empty.
- TabularRoundTrip.KeptReadsAsItself: the reader's type coercion is not modelled. A finite floating-point number is taken to read back as itself, but the reader returns an integral float such as 1.0 as the integer 1. A column whose texts all look like numbers (such as "1", "2.5" or "inf") is read back as numbers, so such a text is taken to survive when it does not; an integer column with a blank cell is read back as floats.
- Floating-point numbers are opaque text (`JNum`). No arithmetic is done on them, and the 123.45 placeholder is the text "123.45".
- `str.capitalize` and `str.strip` are modelled on ASCII only; Unicode case mapping is not.
- Reification: Python's recursion limit is a `fuel` count. Running out gives `Err(RecursionError)`. The actual stack depth of the interpreter is not modelled.
- ExcelImport.FieldKey: a non-text "Field Name" cell is keyed by its JSON text. Python keeps it as a number or boolean key, so 1, 1.0 and True already collide at the assignment at excel_to_schema/generate_schema_from_excel.py:59, which the model does not reproduce. The model also merges the number 1 with the text "1", which Python keeps apart as two keys and then writes out as the key "1" twice. Every empty "Field Name" cell is keyed "NaN", so several rows without a name merge into one property; Python's NaN values from `iterrows` are distinct objects and stay separate keys.
- Sheet names.
  - Excel's 31-character limit and its rule against duplicate sheet names are not modelled.
  - A non-string "title" used as a sheet name is carried as a `Json` value.
  - ExcelExport.Workbook: the spreadsheet writer refuses an empty, null or non-string sheet title (a "title" such as `""`, `null` or `5`, or a definition named `""`), so the script exits there, while `Workbook` returns `Ok` with that sheet name.
  - The spreadsheet writer refuses a sheet title containing any of `\ * ? : / [ ]`, so the script exits there, while `Workbook` returns `Ok`.
- RoundTrip.ExampleRoundTrip: the round trip is stated only for a dict root with distinct hoisted names that contain no '/'. Other inputs can lose definitions to collisions or to `split("/")`.
- TabularRoundTrip.FieldRoundTrip: the tabular round trip is stated only for the three field shapes that fit the seven columns. A field name or text that is not kept (one read as missing, a formula, an error code, one cut for length or one the writer refuses), a non-scalar cell and an "enum" are excluded. A `$ref` target must already be stripped of surrounding whitespace, because the reader strips the cell (excel_to_schema/generate_schema_from_excel.py:42).

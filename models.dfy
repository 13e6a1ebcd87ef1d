/**
 * The record types of `models.py` (ProcedureException, SimpleErrorModel,
 * ErrorModel) and the Qt table adapter: `OutputRecordModel`, which shows a
 * list of records as rows and the schema's property keys as columns, and
 * `OutputRecordView`, which owns one such model and rebuilds it on update.
 * The lookups are stated as functions over the model's fields; the classes
 * hold the fields the source updates in place.
 */
module Models {
  import opened Py
  import opened Externals

  // ---------------------------------------------------------------------------
  // ProcedureException.dict

  datatype ProcedureException = ProcedureException(source: string, message: string, data: string)

  /**
   * `ProcedureException.dict()`: its three attributes under their own names,
   * so the exception can be rebuilt from it.
   */
  function ExceptionDict(e: ProcedureException): (d: map<string, string>)
    ensures d.Keys == {"source", "message", "data"}
    ensures ExceptionFromDict(d) == Some(e)
  {
    map["source" := e.source, "message" := e.message, "data" := e.data]
  }

  /** Rebuilding an exception from such a dictionary; None when a key is missing. */
  function ExceptionFromDict(d: map<string, string>): Option<ProcedureException>
  {
    if "source" in d && "message" in d && "data" in d
    then Some(ProcedureException(d["source"], d["message"], d["data"]))
    else None
  }

  // ---------------------------------------------------------------------------
  // The error records

  /** The `_api` shared by SimpleErrorModel and ErrorModel. */
  const ValidationApi: string := "VALIDATION"

  /** `SimpleErrorModel(message=m)`. */
  function SimpleErrorRecord(message: string): (r: Record)
    ensures r.api == ValidationApi
    ensures AttrOr(r, "message", Null) == Text(message)
  {
    Record(ValidationApi, map["message" := Text(message)])
  }

  /** `ErrorModel(source=s, field=f, message=m)`; `row`, `error` and `data` default to None. */
  function ErrorRecord(source: string, field: string, message: string): (r: Record)
    ensures r.api == ValidationApi
    ensures r.fields.Keys == {"source", "row", "field", "message", "error", "data"}
    ensures r.fields["source"] == Text(source) && r.fields["field"] == Text(field)
    ensures r.fields["message"] == Text(message)
  {
    Record(ValidationApi, map["source" := Text(source), "row" := Null, "field" := Text(field),
                              "message" := Text(message), "error" := Null, "data" := Null])
  }

  // ---------------------------------------------------------------------------
  // Qt vocabulary

  /** `Qt.DisplayRole`. */
  const DisplayRole: int := 0

  datatype Orientation = Horizontal | Vertical

  /** A `QModelIndex`: valid when it has a non-negative row and column. */
  datatype ModelIndex = ModelIndex(row: int, column: int)
  {
    predicate IsValid() { row >= 0 && column >= 0 }
  }

  const ItemIsSelectable: bv32 := 1
  const ItemIsEditable: bv32 := 2
  const ItemIsEnabled: bv32 := 32

  /** `OutputRecordModel.flags`: enabled and selectable, and editable exactly when the model is. */
  function ItemFlags(editable: bool): (f: bv32)
    ensures f & ItemIsEnabled == ItemIsEnabled && f & ItemIsSelectable == ItemIsSelectable
    ensures (f & ItemIsEditable == ItemIsEditable) <==> editable
  {
    if editable then ItemIsEnabled | ItemIsSelectable | ItemIsEditable
    else ItemIsEnabled | ItemIsSelectable
  }

  // ---------------------------------------------------------------------------
  // OutputRecordModel as functions of its fields

  /** `{'properties': {'': None}}`: one column with an empty name. */
  const FallbackSchema: Schema := Schema([""])

  /**
   * The schema the model adopts: the one supplied; else the first record's;
   * else, when there is no record or its `schema()` raises, the fallback.
   */
  function ChooseSchema(given: Option<Schema>, data: seq<Record>, schemaOf: Record -> Option<Schema>): (s: Schema)
    ensures given.Some? ==> s == given.value
    ensures given.None? && |data| > 0 && schemaOf(data[0]).Some? ==> s == schemaOf(data[0]).value
    ensures given.None? && (|data| == 0 || schemaOf(data[0]).None?) ==> s == FallbackSchema && s.properties == [""]
  {
    if given.Some? then given.value
    else if |data| > 0 && schemaOf(data[0]).Some? then schemaOf(data[0]).value
    else FallbackSchema
  }

  /**
   * `data(index, role)`: None for another role or an invalid index; the
   * record's attribute named by the column-th key, or None when the record
   * lacks it; IndexError when the row or column is past the end.
   */
  function CellValue(rows: seq<Record>, keys: seq<string>, index: ModelIndex, role: int): (r: Answer<Value>)
    ensures role != DisplayRole || !index.IsValid() ==> r == Returns(Null)
    ensures role == DisplayRole && index.IsValid() ==>
      (r.Raises? <==> index.row >= |rows| || index.column >= |keys|)
    ensures role == DisplayRole && index.IsValid() && r.Returns? ==>
      index.row < |rows| && index.column < |keys| &&
      r.value == AttrOr(rows[index.row], keys[index.column], Null)
  {
    if role != DisplayRole || !index.IsValid() then Returns(Null)
    else if index.row >= |rows| || index.column >= |keys| then Raises(IndexError)
    else
      var rec := rows[index.row];
      var name := keys[index.column];
      if name in rec.fields then Returns(rec.fields[name]) else Returns(Null)
  }

  /** What `headerData` returns: None, a property key, or a row number. */
  datatype Header = NoHeader | Key(name: string) | Section(n: int)

  /**
   * `headerData(section, orientation, role)`: the section-th key across the
   * top (Python positions, so a negative section counts from the end), the
   * section number itself down the side.
   */
  function HeaderOf(keys: seq<string>, section: int, orientation: Orientation, role: int): (h: Header)
    ensures role != DisplayRole ==> h == NoHeader
    ensures role == DisplayRole && orientation == Vertical ==> h == Section(section)
    ensures role == DisplayRole && orientation == Horizontal ==>
      (h == NoHeader <==> !(-|keys| <= section < |keys|))
    ensures role == DisplayRole && orientation == Horizontal && 0 <= section < |keys| ==> h == Key(keys[section])
    ensures role == DisplayRole && orientation == Horizontal && -|keys| <= section < 0 ==> h == Key(keys[|keys| + section])
    ensures h.Key? ==> h.name in keys
  {
    if role != DisplayRole then NoHeader
    else if orientation == Vertical then Section(section)
    else
      match Position(|keys|, section)
      case None => NoHeader
      case Some(i) => Key(keys[i])
  }

  /** `setData` stores an empty string as None. */
  function Stored(value: Value): (v: Value)
    ensures value == Text("") ==> v == Null
    ensures value != Text("") ==> v == value
  {
    if value == Text("") then Null else value
  }

  /**
   * The rows after `setData(index, value)`: the record at `index.row()` gets
   * the attribute named by the column's header set to the stored value and is
   * rebuilt (validated, or constructed unvalidated); the row number is read as
   * a Python position, so it raises IndexError out of range; a column with no
   * header makes `setattr` raise TypeError.  No other row changes.
   */
  function EditedRows(rows: seq<Record>, keys: seq<string>, index: ModelIndex, value: Value, env: Env): (r: Answer<seq<Record>>)
    ensures r.Raises? <==> !(-|rows| <= index.row < |rows|) || !(-|keys| <= index.column < |keys|)
    ensures r.Raises? ==> r.error == (if Position(|rows|, index.row).None? then IndexError else TypeError)
    ensures r.Returns? ==> |r.value| == |rows|
    ensures r.Returns? ==> forall j :: 0 <= j < |rows| && Position(|rows|, index.row) != Some(j) ==> r.value[j] == rows[j]
    ensures r.Returns? ==>
      var i, c := Position(|rows|, index.row).value, Position(|keys|, index.column).value;
      r.value[i] == Revalidated(env, SetAttr(rows[i], keys[c], Stored(value)))
  {
    match Position(|rows|, index.row)
    case None => Raises(IndexError)
    case Some(i) =>
      match HeaderOf(keys, index.column, Horizontal, DisplayRole)
      case Key(name) => Returns(rows[i := Revalidated(env, SetAttr(rows[i], name, Stored(value)))])
      case _ => Raises(TypeError)
  }

  /**
   * Reading a cell back after editing it: when the edited record fails
   * validation it is kept as edited, so the cell shows the stored value, and
   * an empty string reads back as None.
   */
  lemma EditThenRead(rows: seq<Record>, keys: seq<string>, index: ModelIndex, value: Value, env: Env)
    requires 0 <= index.row < |rows| && 0 <= index.column < |keys|
    requires env.validate(SetAttr(rows[index.row], keys[index.column], Stored(value))).Invalid?
    ensures EditedRows(rows, keys, index, value, env).Returns?
    ensures CellValue(EditedRows(rows, keys, index, value, env).value, keys, index, DisplayRole) == Returns(Stored(value))
    ensures value == Text("") ==> CellValue(EditedRows(rows, keys, index, value, env).value, keys, index, DisplayRole) == Returns(Null)
  {
  }

  // ---------------------------------------------------------------------------
  // The classes

  /** `OutputRecordModel`: a schema, a copy of the records, and the editable flag. */
  class TableModel {
    var schema: Schema
    var rows: seq<Record>
    var editable: bool

    /** `OutputRecordModel(data, schema, editable)`; the list is copied, so it is held as a value. */
    constructor (data: seq<Record>, given: Option<Schema>, editable: bool, env: Env)
      ensures schema == ChooseSchema(given, data, env.schemaOf)
      ensures rows == data && this.editable == editable
    {
      schema := ChooseSchema(given, data, env.schemaOf);
      rows := data;
      this.editable := editable;
    }

    function Flags(index: ModelIndex): (f: bv32)
      reads this
      ensures (f & ItemIsEditable == ItemIsEditable) <==> editable
      ensures f & ItemIsEnabled == ItemIsEnabled
    {
      ItemFlags(editable)
    }

    /** `rowCount`: one row per record. */
    function RowCount(): (n: nat)
      reads this
      ensures n == |rows|
    {
      |rows|
    }

    /** `columnCount`: one column per schema property key. */
    function ColumnCount(): (n: nat)
      reads this
      ensures n == |schema.properties|
    {
      |schema.properties|
    }

    /** `data(index, role)`: the attribute the cell shows, as `CellValue` gives it. */
    function Data(index: ModelIndex, role: int): (r: Answer<Value>)
      reads this
      ensures role != DisplayRole || !index.IsValid() ==> r == Returns(Null)
      ensures role == DisplayRole && index.IsValid() ==>
        (r.Raises? <==> index.row >= |rows| || index.column >= |schema.properties|)
      ensures role == DisplayRole && index.IsValid() && index.row < |rows| && index.column < |schema.properties| ==>
        r == Returns(AttrOr(rows[index.row], schema.properties[index.column], Null))
    {
      CellValue(rows, schema.properties, index, role)
    }

    /** `headerData(section, orientation, role)`: a property key across the top, the section down the side. */
    function HeaderData(section: int, orientation: Orientation, role: int): (h: Header)
      reads this
      ensures role != DisplayRole ==> h == NoHeader
      ensures role == DisplayRole && orientation == Vertical ==> h == Section(section)
      ensures role == DisplayRole && orientation == Horizontal ==>
        (h == NoHeader <==> !(-|schema.properties| <= section < |schema.properties|))
      ensures role == DisplayRole && orientation == Horizontal && 0 <= section < |schema.properties| ==>
        h == Key(schema.properties[section])
      ensures role == DisplayRole && orientation == Horizontal && -|schema.properties| <= section < 0 ==>
        h == Key(schema.properties[|schema.properties| + section])
      ensures h.Key? ==> h.name in schema.properties
    {
      HeaderOf(schema.properties, section, orientation, role)
    }

    /**
     * `setData(index, value, role)`: replaces the one edited row and answers
     * True; the role is ignored, as in the source.
     */
    method SetData(index: ModelIndex, value: Value, role: int, env: Env) returns (r: Answer<bool>)
      modifies this
      ensures schema == old(schema) && editable == old(editable)
      ensures match EditedRows(old(rows), schema.properties, index, value, env)
              case Returns(t) => r == Returns(true) && rows == t
              case Raises(e) => r == Raises(e) && rows == old(rows)
      ensures |rows| == |old(rows)|
    {
      var edited := EditedRows(rows, schema.properties, index, value, env);
      match edited
      case Returns(t) =>
        rows := t;
        r := Returns(true);
      case Raises(e) =>
        r := Raises(e);
    }
  }

  /** `OutputRecordView`: a table widget that owns one model and its own editable flag. */
  class RecordView {
    var editable: bool
    var model: TableModel

    constructor (data: seq<Record>, editable: bool, env: Env)
      ensures this.editable == editable
      ensures model.rows == data && model.editable == editable
      ensures model.schema == ChooseSchema(None, data, env.schemaOf)
    {
      this.editable := editable;
      model := new TableModel(data, None, editable, env);
    }

    /** `update(data)`: a fresh model over `data`, with the view's own editable flag. */
    method Update(data: seq<Record>, env: Env)
      modifies this
      ensures fresh(model) && editable == old(editable)
      ensures model.rows == data && model.editable == editable
      ensures model.schema == ChooseSchema(None, data, env.schemaOf)
    {
      model := new TableModel(data, None, editable, env);
    }

    /** `clear()`: a fresh model with no rows that keeps the previous schema. */
    method Clear(env: Env)
      modifies this
      ensures fresh(model) && editable == old(editable)
      ensures model.rows == [] && model.schema == old(model.schema) && model.editable == editable
    {
      model := new TableModel([], Some(model.schema), editable, env);
    }

    /** `get()`: the model's record list. */
    function Get(): (rs: seq<Record>)
      reads this, model
      ensures rs == model.rows && |rs| == model.RowCount()
    {
      model.rows
    }

    /** `toggle_editable()`: flips the model's flag; the view's own flag is left as it was. */
    method ToggleEditable()
      modifies model
      ensures model.editable == !old(model.editable)
      ensures model.rows == old(model.rows) && model.schema == old(model.schema)
    {
      model.editable := !model.editable;
    }
  }

  /**
   * A toggle does not survive an update: `update` and `clear` build the new
   * model from the view's flag, which `toggle_editable` never changes.
   */
  method ToggleThenUpdate(v: RecordView, data: seq<Record>, env: Env)
    modifies v, v.model
    ensures v.model.editable == old(v.editable) && v.Get() == data
  {
    v.ToggleEditable();
    v.Update(data, env);
  }
}

/**
 * The form renderer (src/components/formMaker/CustomForm.jsx) with the
 * rendering itself stripped away: what it does with the schema it is given,
 * how it pairs fields with grid cells, which value each field shows, and what
 * a change or a submit does to its state and to the callbacks it was given.
 */
module FormMaker {
  import opened Wrappers
  import opened SchemaLayout

  /**
   * A value held for a field. The widgets are not part of this model; they are
   * assumed to hand back strings and string lists, and the external data an
   * integrator passes may hold any of these. Numbers are integers here.
   */
  datatype Value =
    | Undefined
    | Null
    | Bool(b: bool)
    | Num(n: int)
    | Str(s: string)
    | List(items: seq<string>)

  /** JavaScript truthiness: an array is truthy even when empty. */
  predicate Truthy(v: Value)
  {
    match v
    case Undefined => false
    case Null => false
    case Bool(b) => b
    case Num(n) => n != 0
    case Str(s) => s != ""
    case List(_) => true
  }

  /**
   * The `schema` prop: an array of fields; any other truthy value, whose
   * `schema` and `widths` properties are arrays or not (`None`); or a falsy
   * value such as `null` or `undefined`.
   */
  datatype SchemaProp =
    | ArrayProp(items: seq<Field>)
    | ObjectProp(schema: Option<seq<Field>>, widths: Option<seq<seq<string>>>)
    | FalsyProp

  /**
   * The key a property name becomes in an object (`{ [name]: value }`,
   * `obj[name]`): a string is itself, `undefined` and `null` become
   * "undefined" and "null".
   */
  function PropertyKey(name: Name): string
  {
    match name
    case Named(text) => text
    case UndefinedName => "undefined"
    case NullName => "null"
  }

  // ---------------------------------------------------------------------------
  // Schema normalisation
  // ---------------------------------------------------------------------------

  /**
   * A flat array is packed by the layout packer; an object carrying array
   * `schema` and `widths` is taken as it is; anything else gives no schema.
   */
  function Normalize(prop: SchemaProp): (r: Option<SchemaObj>)
    ensures r.Some? <==> prop.ArrayProp? || (prop.ObjectProp? && prop.schema.Some? && prop.widths.Some?)
    ensures prop.ArrayProp? ==> r.value.schema == prop.items
  {
    match prop
    case ArrayProp(items) => Some(Layout(items))
    case ObjectProp(schema, widths) =>
      if schema.Some? && widths.Some? then Some(SchemaObj(schema.value, widths.value)) else None
    case FalsyProp => None
  }

  /** The three outcomes of normalisation. */
  lemma NormalizeOutcomes(prop: SchemaProp)
    ensures Normalize(prop).Some? <==>
      prop.ArrayProp? || (prop.ObjectProp? && prop.schema.Some? && prop.widths.Some?)
    ensures prop.ArrayProp? ==>
      && Normalize(prop).value.schema == prop.items
      && IsGreedyLayout(prop.items, Normalize(prop).value.widths)
    ensures prop.ObjectProp? && Normalize(prop).Some? ==>
      Normalize(prop).value == SchemaObj(prop.schema.value, prop.widths.value)
  {
    if prop.ArrayProp? {
      PackedWidths(prop.items);
    }
  }

  // ---------------------------------------------------------------------------
  // Pairing fields with grid cells
  // ---------------------------------------------------------------------------

  /** `schema[k]`: the field at position `k`, `undefined` past the end. */
  function At(schema: seq<Field>, k: nat): (f: Option<Field>)
    ensures f.Some? <==> k < |schema|
    ensures f.Some? ==> f.value == schema[k]
  {
    if k < |schema| then Some(schema[k]) else None
  }

  /** `{ ...field, width }`: the field with its width replaced by a row's label. */
  function WithWidth(field: Option<Field>, width: string): (cell: Field)
    ensures cell.width == Some(width)
    ensures field.Some? ==>
      cell.name == field.value.name && cell.kind == field.value.kind && cell.caption == field.value.caption
    ensures field.None? ==> cell.name == UndefinedName && cell.kind == None && cell.caption == None
  {
    match field
    case Some(f) => f.(width := Some(width))
    case None => Field(UndefinedName, None, None, Some(width))
  }

  /** The cells of one row of labels whose first cell takes the field at `start`. */
  function RowAt(schema: seq<Field>, start: nat, labels: seq<string>): (row: seq<Field>)
    ensures |row| == |labels|
  {
    seq(|labels|, j requires 0 <= j < |labels| => WithWidth(At(schema, start + j), labels[j]))
  }

  /** Number of cells in the rows before row `i`. */
  function Offset(widths: seq<seq<string>>, i: nat): nat
    requires i <= |widths|
  {
    |Flatten(widths[..i])|
  }

  /**
   * The rows the form lays out: row `i`, column `j` holds the field at
   * position "cells in earlier rows + j", with its width set to `widths[i][j]`.
   */
  function Reconstructed(schema: seq<Field>, widths: seq<seq<string>>): (rows: seq<seq<Field>>)
    ensures |rows| == |widths|
    ensures forall i :: 0 <= i < |rows| ==> |rows[i]| == |widths[i]|
  {
    seq(|widths|, i requires 0 <= i < |widths| => RowAt(schema, Offset(widths, i), widths[i]))
  }

  /**
   * The nested `widths.map(rowWidths => rowWidths.map(...))` of the source,
   * with one `fieldIdx` cursor shared by every row.
   */
  method BuildRows(schema: seq<Field>, widths: seq<seq<string>>) returns (rows: seq<seq<Field>>)
    ensures rows == Reconstructed(schema, widths)
  {
    rows := [];
    var fieldIdx := 0;
    for i := 0 to |widths|
      invariant fieldIdx == Offset(widths, i)
      invariant rows == Reconstructed(schema, widths)[..i]
    {
      var rowWidths := widths[i];
      var rowFields := [];
      for j := 0 to |rowWidths|
        invariant fieldIdx == Offset(widths, i) + j
        invariant rowFields == RowAt(schema, Offset(widths, i), rowWidths)[..j]
      {
        var field := At(schema, fieldIdx);
        fieldIdx := fieldIdx + 1;
        rowFields := rowFields + [WithWidth(field, rowWidths[j])];
      }
      assert rowFields == Reconstructed(schema, widths)[i];
      assert Reconstructed(schema, widths)[..i + 1] == Reconstructed(schema, widths)[..i] + [rowFields];
      assert widths[..i + 1] == widths[..i] + [rowWidths];
      FlattenAppend(widths[..i], rowWidths);
      rows := rows + [rowFields];
    }
  }

  lemma RowAtConcat(schema: seq<Field>, start: nat, a: seq<string>, b: seq<string>)
    ensures RowAt(schema, start, a + b) == RowAt(schema, start, a) + RowAt(schema, start + |a|, b)
  {
  }

  /**
   * Read row by row, the cells pair the k-th field of the schema with the k-th
   * label of the flattened widths: the shared cursor is the row-major index.
   */
  lemma {:induction false} ReconstructedFlatten(schema: seq<Field>, widths: seq<seq<string>>)
    ensures Flatten(Reconstructed(schema, widths)) == RowAt(schema, 0, Flatten(widths))
    decreases |widths|
  {
    if widths != [] {
      var n := |widths| - 1;
      var init, last := widths[..n], widths[n];
      assert widths == init + [last];
      var rows := Reconstructed(schema, widths);
      forall i | 0 <= i < n ensures rows[i] == Reconstructed(schema, init)[i] {
        assert widths[..i] == init[..i];
      }
      assert rows == Reconstructed(schema, init) + [rows[n]];
      assert Offset(widths, n) == |Flatten(init)|;
      FlattenAppend(Reconstructed(schema, init), rows[n]);
      FlattenAppend(init, last);
      ReconstructedFlatten(schema, init);
      RowAtConcat(schema, 0, Flatten(init), last);
    }
  }

  /**
   * For a flat array the cells are the fields in their own order, each with
   * its width label filled in, and packing those cells again gives back the
   * same widths.
   */
  lemma FlatSchemaRoundTrip(fields: seq<Field>)
    ensures var obj := Normalize(ArrayProp(fields)).value;
      Flatten(Reconstructed(obj.schema, obj.widths)) == WithLabels(fields)
    ensures var obj := Normalize(ArrayProp(fields)).value;
      Layout(Flatten(Reconstructed(obj.schema, obj.widths))).widths == obj.widths
  {
    var obj := Layout(fields);
    PackedWidths(fields);
    ReconstructedFlatten(obj.schema, obj.widths);
    assert RowAt(fields, 0, Labels(fields)) == WithLabels(fields);
    RepackLabelled(fields);
  }

  // ---------------------------------------------------------------------------
  // Widgets and grid classes
  // ---------------------------------------------------------------------------

  /** The input components a field can be rendered with. */
  datatype Widget =
    | TitleBar | TextInput | NumberInput | DateInput
    | SelectInput | MultipleInput | SpaceBar | TextArea

  /** The component for a field type; an unknown type renders nothing. */
  function WidgetFor(kind: Option<string>): (w: Option<Widget>)
    ensures w.Some? <==> kind.Some? && kind.value in FieldTypes
  {
    if kind == Some("title") then Some(TitleBar)
    else if kind == Some("text") then Some(TextInput)
    else if kind == Some("number") then Some(NumberInput)
    else if kind == Some("date") then Some(DateInput)
    else if kind == Some("select") then Some(SelectInput)
    else if kind == Some("multiple") then Some(MultipleInput)
    else if kind == Some("spacer") then Some(SpaceBar)
    else if kind == Some("textarea") then Some(TextArea)
    else None
  }

  /** The field types the form knows. */
  const FieldTypes: set<string> :=
    {"title", "text", "number", "date", "select", "multiple", "spacer", "textarea"}

  /** Each known type has its own component, and only known types have one. */
  lemma WidgetDispatch(kind: Option<string>, other: Option<string>)
    ensures WidgetFor(kind).Some? <==> kind.Some? && kind.value in FieldTypes
    ensures WidgetFor(kind).Some? && WidgetFor(kind) == WidgetFor(other) ==> kind == other
  {
  }

  /** The grid class of a cell, from its width label (the form's own `getColSpan`). */
  function ColSpanClass(width: Option<string>): (cls: string)
    ensures cls == "col-span-" + ["1234"[ColSpan(width) - 1]]
  {
    if width == Some("fourth") then "col-span-1"
    else if width == Some("half") then "col-span-2"
    else if width == Some("three-fourths") then "col-span-3"
    else "col-span-4"
  }

  // ---------------------------------------------------------------------------
  // Values, changes and submission
  // ---------------------------------------------------------------------------

  /** What a field shows before it has a value: `[]` for `multiple`, "" otherwise. */
  function DefaultValue(kind: Option<string>): Value
  {
    if kind == Some("multiple") then List([]) else Str("")
  }

  /**
   * `getCurrentValue`: the external data's own property if it has one, else
   * the stored value if truthy, else the default for the type.
   */
  function ResolveValue(externalData: Option<map<string, Value>>, formData: map<string, Value>,
                        name: Name, kind: Option<string>): (v: Value)
    ensures Controlled(externalData, name) ==> v == externalData.value[PropertyKey(name)]
    ensures !Controlled(externalData, name) ==> Truthy(v) || v == DefaultValue(kind)
  {
    var key := PropertyKey(name);
    if Controlled(externalData, name) then externalData.value[key]
    else if key in formData && Truthy(formData[key]) then formData[key]
    else DefaultValue(kind)
  }

  /** Whether the external data decides the value shown for a name. */
  predicate Controlled(externalData: Option<map<string, Value>>, name: Name)
  {
    externalData.Some? && PropertyKey(name) in externalData.value
  }

  /** External data that has the name wins, whatever the form itself holds. */
  lemma ControlledPrecedence(externalData: Option<map<string, Value>>, a: map<string, Value>,
                             b: map<string, Value>, name: Name, kind: Option<string>)
    requires Controlled(externalData, name)
    ensures ResolveValue(externalData, a, name, kind) == externalData.value[PropertyKey(name)]
    ensures ResolveValue(externalData, a, name, kind) == ResolveValue(externalData, b, name, kind)
  {
  }

  /**
   * Without an external value a field shows something truthy or the empty
   * string: a stored truthy value is shown as it is, a stored falsy value such
   * as `0` or `""` shows the type's default, and a shown value other than the
   * default is the stored one.
   */
  lemma UncontrolledValue(externalData: Option<map<string, Value>>, formData: map<string, Value>,
                          name: Name, kind: Option<string>)
    requires !Controlled(externalData, name)
    ensures var v := ResolveValue(externalData, formData, name, kind);
      && (Truthy(v) || v == Str(""))
      && (PropertyKey(name) in formData && Truthy(formData[PropertyKey(name)]) ==> v == formData[PropertyKey(name)])
      && (PropertyKey(name) in formData && !Truthy(formData[PropertyKey(name)]) ==> v == DefaultValue(kind))
      && (v != DefaultValue(kind) ==> PropertyKey(name) in formData && formData[PropertyKey(name)] == v)
  {
  }

  /** `setFormData(prev => ({ ...prev, [name]: value }))`. */
  function SetField(formData: map<string, Value>, name: Name, value: Value): (updated: map<string, Value>)
    ensures PropertyKey(name) in updated && updated[PropertyKey(name)] == value
    ensures forall key :: key != PropertyKey(name) ==> (key in updated <==> key in formData)
    ensures forall key :: key in formData && key != PropertyKey(name) ==> updated[key] == formData[key]
  {
    formData[PropertyKey(name) := value]
  }

  /** A change is shown back by the field unless the external data decides it. */
  lemma ChangeThenResolve(externalData: Option<map<string, Value>>, formData: map<string, Value>,
                          name: Name, kind: Option<string>, value: Value)
    requires !Controlled(externalData, name)
    ensures ResolveValue(externalData, SetField(formData, name, value), name, kind)
         == if Truthy(value) then value else DefaultValue(kind)
  {
  }

  /** The state after a run of changes, applied in order. */
  function ApplyChanges(formData: map<string, Value>, changes: seq<(Name, Value)>): map<string, Value>
    decreases |changes|
  {
    if changes == [] then formData
    else
      var last := changes[|changes| - 1];
      SetField(ApplyChanges(formData, changes[..|changes| - 1]), last.0, last.1)
  }

  /** A key changed at position `i` and never again. */
  predicate LastChangeOf(changes: seq<(Name, Value)>, key: string, i: int)
  {
    0 <= i < |changes| && PropertyKey(changes[i].0) == key &&
    forall j :: i < j < |changes| ==> PropertyKey(changes[j].0) != key
  }

  /**
   * After a run of changes, a key holds the value of its last change; a key
   * no change named keeps what it had.
   */
  lemma {:induction false} ApplyChangesLookup(formData: map<string, Value>,
                                              changes: seq<(Name, Value)>, key: string)
    ensures forall i :: LastChangeOf(changes, key, i) ==>
      key in ApplyChanges(formData, changes) && ApplyChanges(formData, changes)[key] == changes[i].1
    ensures (forall i :: 0 <= i < |changes| ==> PropertyKey(changes[i].0) != key) ==>
      (key in ApplyChanges(formData, changes) <==> key in formData) &&
      (key in formData ==> ApplyChanges(formData, changes)[key] == formData[key])
    decreases |changes|
  {
    if changes != [] {
      var n := |changes| - 1;
      var init := changes[..n];
      var before := ApplyChanges(formData, init);
      var lastKey := PropertyKey(changes[n].0);
      assert ApplyChanges(formData, changes) == before[lastKey := changes[n].1];
      ApplyChangesLookup(formData, init, key);
      forall i | LastChangeOf(changes, key, i)
        ensures key in ApplyChanges(formData, changes) && ApplyChanges(formData, changes)[key] == changes[i].1
      {
        if i < n {
          assert LastChangeOf(init, key, i);
        }
      }
      if forall i :: 0 <= i < |changes| ==> PropertyKey(changes[i].0) != key {
        assert forall i :: 0 <= i < |init| ==> PropertyKey(init[i].0) != key by {
          forall i | 0 <= i < |init| ensures PropertyKey(init[i].0) != key {
            assert init[i] == changes[i];
          }
        }
      }
    }
  }

  /** `externalData || formData`: what a submit hands to `onSubmit`. */
  function SubmitData(externalData: Option<map<string, Value>>, formData: map<string, Value>): (data: map<string, Value>)
    ensures externalData.Some? ==> data == externalData.value
    ensures externalData.None? ==> data == formData
  {
    if externalData.Some? then externalData.value else formData
  }

  /** A key that some change names has a last change. */
  lemma {:induction false} LastChangeExists(changes: seq<(Name, Value)>, key: string, i: int)
    requires 0 <= i < |changes| && PropertyKey(changes[i].0) == key
    ensures exists l :: LastChangeOf(changes, key, l)
    decreases |changes|
  {
    var n := |changes| - 1;
    if PropertyKey(changes[n].0) == key {
      assert LastChangeOf(changes, key, n);
    } else {
      var init := changes[..n];
      assert init[i] == changes[i];
      LastChangeExists(init, key, i);
      var l :| LastChangeOf(init, key, l);
      assert forall j :: 0 <= j < n ==> init[j] == changes[j];
      assert LastChangeOf(changes, key, l);
    }
  }

  /**
   * Without external data, a submit after a run of changes hands over exactly
   * the keys that were changed, each with its last value.
   */
  lemma SubmitAfterChanges(changes: seq<(Name, Value)>, key: string)
    ensures key in SubmitData(None, ApplyChanges(map[], changes)) <==>
      exists i :: 0 <= i < |changes| && PropertyKey(changes[i].0) == key
    ensures forall i :: LastChangeOf(changes, key, i) ==>
      SubmitData(None, ApplyChanges(map[], changes))[key] == changes[i].1
  {
    ApplyChangesLookup(map[], changes, key);
    if i :| 0 <= i < |changes| && PropertyKey(changes[i].0) == key {
      LastChangeExists(changes, key, i);
    }
  }

  // ---------------------------------------------------------------------------
  // The component
  // ---------------------------------------------------------------------------

  /** One grid cell: its component (none for an unknown type), grid class and shown value. */
  datatype Cell = Cell(widget: Option<Widget>, colSpan: string, value: Value)

  /** What the component renders: the placeholder, or the rows of cells and maybe a submit button. */
  datatype View = Placeholder | FormView(rows: seq<seq<Cell>>, submitButton: bool)

  /** The caption as a value: what a title bar shows. */
  function CaptionValue(caption: Option<string>): Value
  {
    if caption.Some? then Str(caption.value) else Undefined
  }

  /**
   * The form component. The props are constants; `formData` is the state the
   * component keeps; the calls made to `onExternalChange` and `onSubmit` are
   * recorded in `externalChanges` and `submissions`.
   */
  class CustomForm {
    const schemaProp: SchemaProp
    const hasOnSubmit: bool
    const externalData: Option<map<string, Value>>
    const hasOnExternalChange: bool
    var formData: map<string, Value>
    var externalChanges: seq<(Name, Value)>
    var submissions: seq<map<string, Value>>

    /** Mounting: the state starts empty and no callback has been called. */
    constructor (schemaProp: SchemaProp, hasOnSubmit: bool,
                 externalData: Option<map<string, Value>>, hasOnExternalChange: bool)
      ensures this.schemaProp == schemaProp && this.hasOnSubmit == hasOnSubmit
      ensures this.externalData == externalData && this.hasOnExternalChange == hasOnExternalChange
      ensures formData == map[] && externalChanges == [] && submissions == []
    {
      this.schemaProp := schemaProp;
      this.hasOnSubmit := hasOnSubmit;
      this.externalData := externalData;
      this.hasOnExternalChange := hasOnExternalChange;
      formData := map[];
      externalChanges := [];
      submissions := [];
    }

    /**
     * `handleChange`: store the value under the name and, when a callback was
     * given, call it once with the name and the value.
     */
    method HandleChange(name: Name, value: Value)
      modifies this
      ensures formData == SetField(old(formData), name, value)
      ensures externalChanges ==
        if hasOnExternalChange then old(externalChanges) + [(name, value)] else old(externalChanges)
      ensures submissions == old(submissions)
    {
      formData := SetField(formData, name, value);
      if hasOnExternalChange {
        externalChanges := externalChanges + [(name, value)];
      }
    }

    /** `handleSubmit`: hand the external data, or else the state, to `onSubmit` if given. */
    method HandleSubmit()
      modifies this
      ensures submissions ==
        if hasOnSubmit then old(submissions) + [SubmitData(externalData, formData)] else old(submissions)
      ensures formData == old(formData) && externalChanges == old(externalChanges)
    {
      var dataToSubmit := SubmitData(externalData, formData);
      if hasOnSubmit {
        submissions := submissions + [dataToSubmit];
      }
    }

    /** The cell a field is rendered in. */
    function CellOf(field: Field): (cell: Cell)
      reads this
      ensures cell.widget == WidgetFor(field.kind) && cell.colSpan == ColSpanClass(field.width)
      ensures cell.widget == Some(TitleBar) ==> cell.value == CaptionValue(field.caption)
      ensures cell.widget != Some(TitleBar) ==> cell.value == ResolveValue(externalData, formData, field.name, field.kind)
    {
      var widget := WidgetFor(field.kind);
      var value :=
        if widget == Some(TitleBar) then CaptionValue(field.caption)
        else ResolveValue(externalData, formData, field.name, field.kind);
      Cell(widget, ColSpanClass(field.width), value)
    }

    function Cells(rows: seq<seq<Field>>): (cells: seq<seq<Cell>>)
      reads this
      ensures |cells| == |rows|
      ensures forall i :: 0 <= i < |rows| ==> |cells[i]| == |rows[i]|
    {
      seq(|rows|, i requires 0 <= i < |rows| reads this =>
        seq(|rows[i]|, j requires 0 <= j < |rows[i]| reads this => CellOf(rows[i][j])))
    }

    /**
     * Rendering: the placeholder when there is no schema; otherwise one grid
     * row per row of widths, a cell per label, and a submit button exactly
     * when the schema has fields.
     */
    method Render() returns (view: View)
      ensures view.Placeholder? <==> Normalize(schemaProp).None?
      ensures view.FormView? ==>
        var obj := Normalize(schemaProp).value;
        && (view.submitButton <==> |obj.schema| > 0)
        && |view.rows| == |obj.widths|
        && (forall i :: 0 <= i < |obj.widths| ==> |view.rows[i]| == |obj.widths[i]|)
        && view.rows == Cells(Reconstructed(obj.schema, obj.widths))
    {
      var schemaObj := Normalize(schemaProp);
      if schemaObj.None? {
        return Placeholder;
      }
      var schema := schemaObj.value.schema;
      var widths := schemaObj.value.widths;
      var rows := BuildRows(schema, widths);
      view := FormView(Cells(rows), |schema| > 0);
    }
  }

  /**
   * A form with one number field: a submit before any change hands over `{}`,
   * a submit after setting "age" to "30" hands over `{ age: "30" }`.
   */
  method AgeFormScenario()
  {
    var age := Field(Named("age"), Some("number"), None, None);
    var form := new CustomForm(ArrayProp([age]), true, None, false);
    form.HandleSubmit();
    assert form.submissions == [map[]];
    form.HandleChange(Named("age"), Str("30"));
    form.HandleSubmit();
    assert form.submissions == [map[], map["age" := Str("30")]];
    assert form.externalChanges == [];
    var view := form.Render();
    assert view.FormView? && view.submitButton;
  }

  /**
   * A field whose `name` is `null` keeps its value under the key "null",
   * apart from a field whose `name` is missing, kept under "undefined".
   */
  method NullNameScenario()
  {
    var form := new CustomForm(ArrayProp([]), true, None, true);
    form.HandleChange(NullName, Str("x"));
    form.HandleChange(UndefinedName, Str("y"));
    form.HandleSubmit();
    assert form.submissions == [map["null" := Str("x"), "undefined" := Str("y")]];
    assert form.externalChanges == [(NullName, Str("x")), (UndefinedName, Str("y"))];
  }
}

# Form maker: layout packer and form state, in Dafny

This project models the core of a drag-and-drop form builder.

The first part is the **layout packer** `makeSchemaWithWidths`. It takes an
ordered list of fields, each with an optional width label (`fourth`, `half`,
`three-fourths`, `full`). It cuts the list into rows of a four-column grid in
one greedy left-to-right pass. It returns the list unchanged as `schema`, and
the fields' width labels row by row as `widths`.

The second part is the **form component** `CustomForm`, without its markup:

- it normalises the `schema` prop;
- it pairs the fields with the grid cells through one running cursor;
- it resolves the value each field shows, preferring external data;
- it updates its state on a change and notifies the change callback;
- it chooses what a submit hands to the submit callback;
- it shows the submit button only when there are fields.

Files:

- `wrappers.dfy`: the `Option` type.
- `schema_layout.dfy` (module `SchemaLayout`): the packer. `MakeSchemaWithWidths`
  is the source's loop, with `rows`, `currentRow` and `currentSpan`. It is proved
  equal to `Pack`, a recursive definition that takes the longest prefix that fits
  as the first row. `IsGreedyPacking` states what a packing must be:
  - reading the rows in order gives back the fields;
  - no row is empty;
  - no row spans more than 4 columns;
  - no row could also have taken the first field of the next row.

  `GreedyPackingUnique` proves that only one packing has these properties. The
  loop's invariant is that the rows so far are a greedy packing of the fields
  seen so far, so uniqueness ties the loop to `Pack`.
- `custom_form.dfy` (module `FormMaker`): the component. The class `CustomForm`
  keeps the props as constants and `formData` as its state. The calls made to
  `onExternalChange` and `onSubmit` are recorded in `externalChanges` and
  `submissions`.

`CustomForm.jsx` imports its packer from `./formUtils`. That module is not
part of this model. The comment on `schemaLayout.js` says only that it
"matches the logic in SchemaPreview and FormMaker handleSave"
(`main/src/utils/schemaLayout.js:9`). This model assumes that `./formUtils`
exports the same `makeSchemaWithWidths`, so normalisation here calls the
`SchemaLayout` packer.

## Model

| member | source | states |
|---|---|---|
| `SchemaLayout.ColSpan` | main/src/utils/schemaLayout.js:16-28 | every label spans at least 1 and at most 4 columns, so any field fits into an empty row and no row is ever closed empty |
| `SchemaLayout.LabelKeepsSpan` | main/src/utils/schemaLayout.js:24-26 | the `"full"` put in place of a missing or empty label spans what the missing label spans |
| `SchemaLayout.Labels` | main/src/utils/schemaLayout.js:40 | a row's labels are one per field, in order, and none is empty; `LabelSpanOfLabels` shows they span what the fields span |
| `SchemaLayout.WidthsOf` | main/src/utils/schemaLayout.js:40 | the `widths` have one row of labels per row of fields, each as long as its row; `GreedyWidths` and `PackedWidths` carry the packing properties over to them |
| `SchemaLayout.LabelSpanOfLabels` | main/src/utils/schemaLayout.js:40 | a row of recorded labels spans as many columns as the row of fields it came from |
| `SchemaLayout.WidthLabel` | main/src/utils/schemaLayout.js:40 | the label recorded for a field is never empty: its own truthy label, else `"full"` |
| `SchemaLayout.Fit` | main/src/utils/schemaLayout.js:31-35 | the fields taken into a row fit the budget, and the first field left out would not have fit |
| `SchemaLayout.MakeSchemaWithWidths` | main/src/utils/schemaLayout.js:11-42 | the returned schema is the input itself; the widths equal those of the recursive definition `Pack` and form a greedy layout of the fields |
| `SchemaLayout.GreedyBreak` | main/src/utils/schemaLayout.js:31-37 | closing the open row when the next field does not fit, then starting a new row, keeps a greedy packing |
| `SchemaLayout.GreedyExtend` | main/src/utils/schemaLayout.js:36-37 | adding a field that fits to the open row keeps a greedy packing |
| `SchemaLayout.FirstRowNotShorter` | main/src/utils/schemaLayout.js:31-35 | the first row of a greedy packing cannot be shorter than that of another greedy packing of the same fields |
| `SchemaLayout.GreedyPackingUnique` | main/src/utils/schemaLayout.js:29-39 | two packings of the same fields that preserve order, have no empty or over-full row and close rows only when forced are equal |
| `SchemaLayout.PackIsGreedy` | main/src/utils/schemaLayout.js:29-39 | the packing preserves field order, has no empty row, no row over 4 columns, and each row plus the next row's first field exceeds 4 |
| `SchemaLayout.GreedyWidths` | main/src/utils/schemaLayout.js:40 | the greedy properties of the rows of fields carry over to their rows of labels |
| `SchemaLayout.PackedWidths` | main/src/utils/schemaLayout.js:13-40 | the widths are a greedy layout; they hold one label per field, in field order, each the field's own label or `"full"`; empty input gives `[]` and only empty input does |
| `SchemaLayout.RepackFlattened` | main/src/utils/schemaLayout.js:11-42 | packing the rows read back in row-major order gives the same rows and the same `{ schema, widths }` |
| `SchemaLayout.FitWithLabels` | main/src/utils/schemaLayout.js:40 | replacing each width by its recorded label does not change how many fields fit into a row |
| `SchemaLayout.RepackLabelled` | main/src/utils/schemaLayout.js:40 | fields whose widths were replaced by their recorded labels pack into the same widths |
| `SchemaLayout.WorkedExample` | main/src/utils/schemaLayout.js:29-40 | `[full, fourth, fourth, half, fourth]` packs to `[[full], [fourth, fourth, half], [fourth]]` |
| `FormMaker.Normalize` | main/src/components/formMaker/CustomForm.jsx:75-86 | there is a schema exactly when the prop is an array, or an object whose `schema` and `widths` are both arrays; an array becomes the schema itself; `NormalizeOutcomes` adds that its widths are a greedy layout |
| `FormMaker.NormalizeOutcomes` | main/src/components/formMaker/CustomForm.jsx:75-90 | a schema exists iff the prop is an array, or an object whose `schema` and `widths` are both arrays; an array is packed greedily with itself as schema; such an object is used unchanged |
| `FormMaker.At` | main/src/components/formMaker/CustomForm.jsx:178 | `schema[fieldIdx]` is a field exactly while the cursor is inside the schema, and then it is the field at that position; past the end it is `undefined` |
| `FormMaker.WithWidth` | main/src/components/formMaker/CustomForm.jsx:180 | the cell takes the row's label as its width and keeps the field's name, type and label; spreading `undefined` leaves only the width |
| `FormMaker.BuildRows` | main/src/components/formMaker/CustomForm.jsx:174-183 | the running `fieldIdx` cursor puts at row i, column j the field `schema[cells in earlier rows + j]` with its width set to `widths[i][j]`, and `{ width }` alone past the end of the schema; the rows have the shape of `widths` |
| `FormMaker.ReconstructedFlatten` | main/src/components/formMaker/CustomForm.jsx:174-183 | read row by row, the cells pair the k-th field with the k-th label of the flattened widths |
| `FormMaker.FlatSchemaRoundTrip` | main/src/components/formMaker/CustomForm.jsx:76-77 | for a flat array the cells are the fields in their own order, each with its width label, and packing those cells again gives the same widths |
| `FormMaker.WidgetFor` | main/src/components/formMaker/CustomForm.jsx:125-144 | a field type gets a component exactly when it is one of the eight known types; `WidgetDispatch` adds that different types get different components |
| `FormMaker.WidgetDispatch` | main/src/components/formMaker/CustomForm.jsx:125-144 | a field gets a component iff its type is one of the eight known types, and different known types get different components |
| `FormMaker.ColSpanClass` | main/src/components/formMaker/CustomForm.jsx:95-107 | the form's grid class is `col-span-n`, where n is the span the packer counts for the label (default 4) |
| `FormMaker.ResolveValue` | main/src/components/formMaker/CustomForm.jsx:163-171 | a field the external data has as an own property shows that value; any other field shows a truthy value or its type's default; `ControlledPrecedence` and `UncontrolledValue` state the two cases in full |
| `FormMaker.ControlledPrecedence` | main/src/components/formMaker/CustomForm.jsx:164-168 | when the external data has the field's own key, the shown value is that value, whatever the internal state |
| `FormMaker.UncontrolledValue` | main/src/components/formMaker/CustomForm.jsx:170 | otherwise the shown value is truthy or `""`; a stored truthy value is shown as it is; a stored falsy value such as `0` shows the default (`[]` for `multiple`, `""` otherwise); a value other than the default is the stored one |
| `FormMaker.SetField` | main/src/components/formMaker/CustomForm.jsx:148 | the update sets the changed key to the new value and leaves every other key, and the set of other keys, unchanged |
| `FormMaker.ChangeThenResolve` | main/src/components/formMaker/CustomForm.jsx:147-171 | without an external value, a field shows what was just stored in it when that is truthy, else its default |
| `FormMaker.ApplyChangesLookup` | main/src/components/formMaker/CustomForm.jsx:147-153 | after a run of changes each key holds the value of its last change; keys no change named keep their value |
| `FormMaker.LastChangeExists` | main/src/components/formMaker/CustomForm.jsx:147-153 | a key named by some change has a last change |
| `FormMaker.SubmitData` | main/src/components/formMaker/CustomForm.jsx:158 | external data, when there is any, is handed over whole; otherwise the form's own state is; `SubmitAfterChanges` says what that state holds after a run of changes |
| `FormMaker.SubmitAfterChanges` | main/src/components/formMaker/CustomForm.jsx:155-160 | without external data, a submit hands over exactly the keys that were changed, each with its last value; with no change it hands over `{}` |
| `FormMaker.CustomForm.constructor` | main/src/components/formMaker/CustomForm.jsx:22-28 | the state starts as `{}` and no callback has been called |
| `FormMaker.CustomForm.HandleChange` | main/src/components/formMaker/CustomForm.jsx:147-153 | the state becomes the old state with the one key set; the change callback is called exactly once with `(name, value)` when given, and never otherwise |
| `FormMaker.CustomForm.HandleSubmit` | main/src/components/formMaker/CustomForm.jsx:155-160 | `onSubmit`, when given, is called once with the external data if there is any, else with the state; the state is unchanged |
| `FormMaker.CustomForm.CellOf` | main/src/components/formMaker/CustomForm.jsx:110-144 | a cell's component comes from the field's type and its grid class from its width; a field that is not a title shows the value resolved for its name |
| `FormMaker.CustomForm.Render` | main/src/components/formMaker/CustomForm.jsx:88-225 | the placeholder appears iff normalisation gives no schema; otherwise there is one grid row per row of widths and one cell per label, built by the cursor pairing, and the submit button appears iff the schema has fields |

## Left out

- The scrollbar style effect (`CustomForm.jsx:32-72`). It injects and removes a style element with a random id, which is presentation with nothing to state.
- The markup and the widgets. Each cell records its component as a tag, its grid class and the value passed to it. Widget internals, the React `key` and all other Tailwind classes are not modelled.
- The display-only field properties (`placeholder`, `helperText`, `options`, `min`, `max`, `step`, `required`, `disabled`). The component only passes them through to widgets. A field here has `name`, `type` (`kind`), `label` (`caption`) and `width`.
- React hook semantics. `setFormData` is a plain state update, with no batching and no re-render. `preventDefault` is left out.
- The page around the form (`App.jsx`) and the drag preview (`DragPreview.jsx`). Both are UI wiring and presentation.
- The `./formUtils` module. It is assumed to behave like `schemaLayout.js`.
- Non-string width labels. A `width` is a string or missing. The labels in a pre-packed `widths` are strings.
- Floating-point numbers and `NaN`. Numeric values are integers, and `0` is the only falsy number.
- Schema entries that are not objects and `widths` rows that are not arrays. The `Field` type and the `seq<seq<string>>` of `SchemaObj` exclude them, so "an array" in `Normalize` means an array of fields, and for `widths` an array of arrays of labels. In the code:
  - a flat array with a `null` or `undefined` entry, such as `[null]`, passes `Array.isArray` (`CustomForm.jsx:76`) and then throws a `TypeError` at `field.width` (`schemaLayout.js:30`);
  - a pre-packed `{ schema, widths }` whose `widths` is flat, such as `{ schema: [f], widths: ["full"] }`, passes the array checks (`CustomForm.jsx:80-81`) and then throws at `rowWidths.map` (`CustomForm.jsx:177`);
  - a `null` or `undefined` entry inside a pre-packed `schema` is spread as nothing, and its cell is `{ width }` alone (`CustomForm.jsx:180`). The model gives that cell only past the end of the schema (`At`, `WithWidth`).
- External data that is truthy but not an object. External data is either missing or a map of own properties (`hasOwnProperty`).
- ResolveValue, UncontrolledValue: `formData` is read as a map of its own properties. `formData[fieldName]` at `CustomForm.jsx:170` also finds the members every object inherits from `Object.prototype`. So a never-set field named `constructor`, `toString` or `__proto__` shows that inherited, truthy member in the code, and `""` or `[]` in the model. Names of `Object.prototype` members are left out.
- Field names other than strings, `undefined` and `null`. A number or an object as `name` would become the key of its string form; `Name` keeps only these three cases, on the assumption that the form builder, which is not part of this model, gives every field a string name or none.
- Four behaviours of the code that a reader might not expect. The model follows the code in each, or, for the last, names what it leaves out:
  - A field without a `name` is not dropped. Its value is stored and looked up under the key `"undefined"`, and a `null` name under `"null"`, because JavaScript turns a computed property name into a string (`PropertyKey`).
  - No field can span more than 4 columns. `getColSpan` gives every label, known or not, at most 4, so no row the packer builds, not even one holding a single field, is wider than the grid. A pre-packed `{ schema, widths }` prop is used unchanged, so its rows may be wider (`["full", "full"]` spans 8 columns); `Render` lays them out as given.
  - A missing schema renders only the placeholder, with no form element, so nothing can be submitted. `HandleSubmit` itself has no guard; `Render` states the absence of the form.
  - The component does not render every malformed schema without error: the first two inputs of the line on non-object entries above throw a `TypeError` while the form is rendered. The model's types exclude those inputs.

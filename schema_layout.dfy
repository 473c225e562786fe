/**
 * The layout packer of the form builder (src/utils/schemaLayout.js).
 *
 * A flat, ordered list of fields is cut into rows of a four-column grid by one
 * greedy left-to-right pass. The result pairs the untouched field list with the
 * width labels of the fields, row by row.
 *
 * The packer is modelled three times, from three angles:
 *  - `MakeSchemaWithWidths`, the loop of the source with its `rows`,
 *    `currentRow` and `currentSpan` variables;
 *  - `Pack`, a recursive definition that takes the longest fitting prefix as
 *    the first row and packs the rest;
 *  - `IsGreedyPacking`, the properties a packing must have (it reproduces the
 *    field order, no row is empty or over-full, and no row could have taken
 *    the first field of the next one).
 * `GreedyPackingUnique` shows the properties admit one packing only, so the
 * loop and the recursive definition agree.
 */
module SchemaLayout {
  import opened Wrappers

  /** Number of grid columns in one row. */
  const Columns: nat := 4

  /**
   * A field's `name` as JavaScript may hold it: a string, missing
   * (`undefined`) or `null`. The two non-strings become different property
   * keys, so they are kept apart.
   */
  datatype Name = Named(text: string) | UndefinedName | NullName

  /**
   * A form field as far as layout and form state look at it. `kind` is the
   * field's `type` and `caption` its `label`; every member is optional, as a
   * property of a JavaScript object is. The display-only properties
   * (placeholder, helper text, options, bounds, flags) are not modelled.
   */
  datatype Field = Field(
    name: Name,
    kind: Option<string>,
    caption: Option<string>,
    width: Option<string>)

  /** The `{ schema, widths }` object: the fields and their width labels per row. */
  datatype SchemaObj = SchemaObj(schema: seq<Field>, widths: seq<seq<string>>)

  // ---------------------------------------------------------------------------
  // Spans and labels
  // ---------------------------------------------------------------------------

  /**
   * `getColSpan`: the number of columns a width label occupies. `full`,
   * a missing label and every unknown label take the whole row.
   */
  function ColSpan(width: Option<string>): (n: nat)
    ensures 1 <= n <= Columns
  {
    if width == Some("fourth") then 1
    else if width == Some("half") then 2
    else if width == Some("three-fourths") then 3
    else 4
  }

  /** JavaScript truthiness of an optional string: missing and "" are falsy. */
  predicate IsTruthyLabel(width: Option<string>)
  {
    width.Some? && width.value != ""
  }

  /** `f.width || "full"`: the label recorded for a field in `widths`. */
  function WidthLabel(width: Option<string>): (text: string)
    ensures text != ""
  {
    if IsTruthyLabel(width) then width.value else "full"
  }

  /** The labels of a row of fields, in order (`row.map(f => f.width || "full")`). */
  function Labels(row: seq<Field>): (labels: seq<string>)
    ensures |labels| == |row|
    ensures forall k :: 0 <= k < |labels| ==> labels[k] != ""
  {
    seq(|row|, k requires 0 <= k < |row| => WidthLabel(row[k].width))
  }

  /** The `widths` array built from rows of fields. */
  function WidthsOf(rows: seq<seq<Field>>): (widths: seq<seq<string>>)
    ensures |widths| == |rows|
    ensures forall k :: 0 <= k < |widths| ==> |widths[k]| == |rows[k]|
  {
    seq(|rows|, k requires 0 <= k < |rows| => Labels(rows[k]))
  }

  /** Total columns taken by a row of fields. */
  function RowSpan(row: seq<Field>): nat
  {
    if row == [] then 0 else ColSpan(row[0].width) + RowSpan(row[1..])
  }

  /** Total columns taken by a row of width labels. */
  function LabelSpan(labels: seq<string>): nat
  {
    if labels == [] then 0 else ColSpan(Some(labels[0])) + LabelSpan(labels[1..])
  }

  /** The elements of all rows, row after row. */
  function Flatten<T>(rows: seq<seq<T>>): seq<T>
  {
    if rows == [] then [] else rows[0] + Flatten(rows[1..])
  }

  // ---------------------------------------------------------------------------
  // What a greedy packing is
  // ---------------------------------------------------------------------------

  /** Reading the rows in order gives back the fields. */
  ghost predicate Partitions(fields: seq<Field>, rows: seq<seq<Field>>)
  {
    Flatten(rows) == fields
  }

  /** No row is empty and no row takes more than the grid's columns. */
  ghost predicate RowsFit(rows: seq<seq<Field>>)
  {
    forall k :: 0 <= k < |rows| ==> rows[k] != [] && RowSpan(rows[k]) <= Columns
  }

  /** A row is closed only when the first field of the next one would not fit. */
  ghost predicate RowsMaximal(rows: seq<seq<Field>>)
    requires RowsFit(rows)
  {
    forall k :: 0 <= k < |rows| - 1 ==> RowSpan(rows[k]) + ColSpan(rows[k + 1][0].width) > Columns
  }

  ghost predicate IsGreedyPacking(fields: seq<Field>, rows: seq<seq<Field>>)
  {
    Partitions(fields, rows) && RowsFit(rows) && RowsMaximal(rows)
  }

  /**
   * The same properties, stated on the `widths` the packer returns: the labels
   * read in order are the fields' labels, every row is non-empty and fits, and
   * every row was closed only because the next label would not fit.
   */
  ghost predicate IsGreedyLayout(fields: seq<Field>, widths: seq<seq<string>>)
  {
    && Flatten(widths) == Labels(fields)
    && (forall k :: 0 <= k < |widths| ==> widths[k] != [] && LabelSpan(widths[k]) <= Columns)
    && (forall k :: 0 <= k < |widths| - 1 ==>
          LabelSpan(widths[k]) + ColSpan(Some(widths[k + 1][0])) > Columns)
  }

  // ---------------------------------------------------------------------------
  // The recursive definition
  // ---------------------------------------------------------------------------

  /**
   * How many leading fields fit into `budget` columns when taken one by one;
   * the first field that does not fit ends the row.
   */
  function Fit(fields: seq<Field>, budget: nat): (n: nat)
    ensures n <= |fields|
    ensures RowSpan(fields[..n]) <= budget
    ensures n < |fields| ==> RowSpan(fields[..n]) + ColSpan(fields[n].width) > budget
    decreases |fields|
  {
    if fields == [] || ColSpan(fields[0].width) > budget then 0
    else
      var m := Fit(fields[1..], budget - ColSpan(fields[0].width));
      assert fields[..1 + m][1..] == fields[1..][..m];
      1 + m
  }

  /** The rows of the packing: the longest prefix that fits, then the rest packed. */
  function Pack(fields: seq<Field>): seq<seq<Field>>
    decreases |fields|
  {
    if fields == [] then []
    else
      var n := Fit(fields, Columns);
      assert fields[..0] == [];
      [fields[..n]] + Pack(fields[n..])
  }

  /** What `makeSchemaWithWidths` returns, as a value. */
  function Layout(fields: seq<Field>): SchemaObj
  {
    SchemaObj(fields, WidthsOf(Pack(fields)))
  }

  // ---------------------------------------------------------------------------
  // The loop of the source
  // ---------------------------------------------------------------------------

  /** `rows` after the final `if (currentRow.length > 0) rows.push(currentRow)`. */
  function Close<T>(rows: seq<seq<T>>, currentRow: seq<T>): seq<seq<T>>
  {
    if currentRow == [] then rows else rows + [currentRow]
  }

  /**
   * `makeSchemaWithWidths`: one pass over the fields keeping the open row and
   * its span; a row is pushed when the next field would take it past four
   * columns. The returned schema is the input itself and the widths are those
   * of the recursive definition, hence a greedy layout of the fields.
   */
  method MakeSchemaWithWidths(fields: seq<Field>) returns (obj: SchemaObj)
    ensures obj.schema == fields
    ensures obj.widths == WidthsOf(Pack(fields))
    ensures IsGreedyLayout(fields, obj.widths)
  {
    var rows: seq<seq<Field>> := [];
    var currentRow: seq<Field> := [];
    var currentSpan: nat := 0;
    for i := 0 to |fields|
      invariant currentSpan == RowSpan(currentRow)
      invariant currentRow == [] ==> rows == []
      invariant IsGreedyPacking(fields[..i], Close(rows, currentRow))
    {
      var field := fields[i];
      var span := ColSpan(field.width);
      assert fields[..i + 1] == fields[..i] + [field];
      assert [] + [field] == [field];
      ghost var next: seq<seq<Field>>;
      if currentRow == [] {
        assert fields[..i] == [] by { FlattenEmpty(fields[..i], rows); }
        assert Flatten([[field]]) == [field] by { assert [[field]][1..] == []; }
        RowSpanAppend([], field);
        next := [[field]];
      } else if currentSpan + span > Columns {
        GreedyBreak(fields[..i], rows, currentRow, field);
        next := rows + [currentRow] + [[field]];
      } else {
        GreedyExtend(fields[..i], rows, currentRow, field);
        next := rows + [currentRow + [field]];
      }
      if currentSpan + span > Columns {
        rows := rows + [currentRow];
        currentRow := [];
        currentSpan := 0;
      }
      RowSpanAppend(currentRow, field);
      currentRow := currentRow + [field];
      currentSpan := currentSpan + span;
      assert Close(rows, currentRow) == next;
    }
    assert fields[..|fields|] == fields;
    rows := Close(rows, currentRow);
    PackIsGreedy(fields);
    GreedyPackingUnique(fields, rows, Pack(fields));
    PackedWidths(fields);
    obj := SchemaObj(fields, WidthsOf(rows));
  }

  // ---------------------------------------------------------------------------
  // Lemmas about spans and flattening
  // ---------------------------------------------------------------------------

  lemma {:induction false} RowSpanConcat(a: seq<Field>, b: seq<Field>)
    ensures RowSpan(a + b) == RowSpan(a) + RowSpan(b)
    decreases |a|
  {
    if a == [] {
      assert a + b == b;
    } else {
      assert (a + b)[0] == a[0] && (a + b)[1..] == a[1..] + b;
      RowSpanConcat(a[1..], b);
    }
  }

  lemma RowSpanAppend(row: seq<Field>, f: Field)
    ensures RowSpan(row + [f]) == RowSpan(row) + ColSpan(f.width)
  {
    RowSpanConcat(row, [f]);
  }

  /** A prefix of a row never takes more columns than the row. */
  lemma RowSpanPrefix(row: seq<Field>, n: nat)
    requires n <= |row|
    ensures RowSpan(row[..n]) <= RowSpan(row)
  {
    assert row == row[..n] + row[n..];
    RowSpanConcat(row[..n], row[n..]);
  }

  lemma {:induction false} FlattenConcat<T>(a: seq<seq<T>>, b: seq<seq<T>>)
    ensures Flatten(a + b) == Flatten(a) + Flatten(b)
    decreases |a|
  {
    if a == [] {
      assert a + b == b;
    } else {
      assert (a + b)[0] == a[0] && (a + b)[1..] == a[1..] + b;
      FlattenConcat(a[1..], b);
    }
  }

  lemma FlattenAppend<T>(rows: seq<seq<T>>, row: seq<T>)
    ensures Flatten(rows + [row]) == Flatten(rows) + row
  {
    FlattenConcat(rows, [row]);
  }

  /** With no empty row, nothing flattens to the empty sequence but no rows. */
  lemma FlattenEmpty(fields: seq<Field>, rows: seq<seq<Field>>)
    requires IsGreedyPacking(fields, rows)
    ensures fields == [] <==> rows == []
  {
    if rows != [] {
      assert rows[0] != [];
    }
  }

  /** The label of a field keeps its span: `"full"` spans what a missing label spans. */
  lemma LabelKeepsSpan(width: Option<string>)
    ensures ColSpan(Some(WidthLabel(width))) == ColSpan(width)
  {
  }

  lemma {:induction false} LabelSpanOfLabels(row: seq<Field>)
    ensures LabelSpan(Labels(row)) == RowSpan(row)
    decreases |row|
  {
    if row != [] {
      assert Labels(row)[1..] == Labels(row[1..]);
      LabelKeepsSpan(row[0].width);
      LabelSpanOfLabels(row[1..]);
    }
  }

  lemma {:induction false} LabelsConcat(a: seq<Field>, b: seq<Field>)
    ensures Labels(a + b) == Labels(a) + Labels(b)
  {
  }

  /** Flattening commutes with taking labels. */
  lemma {:induction false} FlattenWidths(rows: seq<seq<Field>>)
    ensures Flatten(WidthsOf(rows)) == Labels(Flatten(rows))
    decreases |rows|
  {
    if rows != [] {
      assert WidthsOf(rows)[1..] == WidthsOf(rows[1..]);
      FlattenWidths(rows[1..]);
      LabelsConcat(rows[0], Flatten(rows[1..]));
    }
  }

  // ---------------------------------------------------------------------------
  // The recursive definition is a greedy packing, and the only one
  // ---------------------------------------------------------------------------

  /** The loop step that closes the open row and starts a new one with `f`. */
  lemma GreedyBreak(fields: seq<Field>, rows: seq<seq<Field>>, cur: seq<Field>, f: Field)
    requires IsGreedyPacking(fields, rows + [cur])
    requires RowSpan(cur) + ColSpan(f.width) > Columns
    ensures IsGreedyPacking(fields + [f], rows + [cur] + [[f]])
  {
    var old_rows: seq<seq<Field>> := rows + [cur];
    var new_rows: seq<seq<Field>> := old_rows + [[f]];
    FlattenAppend(old_rows, [f]);
    assert RowSpan([f]) == ColSpan(f.width) by { assert [f][1..] == []; }
    forall k | 0 <= k < |new_rows|
      ensures new_rows[k] != [] && RowSpan(new_rows[k]) <= Columns
    {
      if k < |old_rows| { assert new_rows[k] == old_rows[k]; }
    }
    forall k | 0 <= k < |new_rows| - 1
      ensures RowSpan(new_rows[k]) + ColSpan(new_rows[k + 1][0].width) > Columns
    {
      if k < |old_rows| - 1 {
        assert new_rows[k] == old_rows[k] && new_rows[k + 1] == old_rows[k + 1];
      }
    }
  }

  /** The loop step that adds `f` to the open row. */
  lemma GreedyExtend(fields: seq<Field>, rows: seq<seq<Field>>, cur: seq<Field>, f: Field)
    requires IsGreedyPacking(fields, rows + [cur])
    requires RowSpan(cur) + ColSpan(f.width) <= Columns
    ensures IsGreedyPacking(fields + [f], rows + [cur + [f]])
  {
    var old_rows: seq<seq<Field>> := rows + [cur];
    var new_rows: seq<seq<Field>> := rows + [cur + [f]];
    FlattenAppend(rows, cur);
    FlattenAppend(rows, cur + [f]);
    RowSpanAppend(cur, f);
    assert old_rows[|rows|] == cur;
    assert cur != [];
    forall k | 0 <= k < |new_rows|
      ensures new_rows[k] != [] && RowSpan(new_rows[k]) <= Columns
    {
      if k < |rows| { assert new_rows[k] == old_rows[k]; }
    }
    forall k | 0 <= k < |new_rows| - 1
      ensures RowSpan(new_rows[k]) + ColSpan(new_rows[k + 1][0].width) > Columns
    {
      assert new_rows[k] == old_rows[k];
      assert new_rows[k + 1][0] == old_rows[k + 1][0];
    }
  }

  /** The first row of a greedy packing is a prefix; the other rows pack the rest. */
  lemma GreedyTail(fields: seq<Field>, rows: seq<seq<Field>>)
    requires IsGreedyPacking(fields, rows)
    requires rows != []
    ensures |rows[0]| <= |fields| && fields[..|rows[0]|] == rows[0]
    ensures IsGreedyPacking(fields[|rows[0]|..], rows[1..])
  {
    var rest := rows[1..];
    assert fields == rows[0] + Flatten(rest);
    assert fields[|rows[0]|..] == Flatten(rest);
    forall k | 0 <= k < |rest| ensures rest[k] != [] && RowSpan(rest[k]) <= Columns {
      assert rest[k] == rows[k + 1];
    }
    forall k | 0 <= k < |rest| - 1
      ensures RowSpan(rest[k]) + ColSpan(rest[k + 1][0].width) > Columns
    {
      assert rest[k] == rows[k + 1] && rest[k + 1] == rows[k + 2];
    }
  }

  /** In two greedy packings of the same fields, neither first row is shorter. */
  lemma FirstRowNotShorter(fields: seq<Field>, a: seq<seq<Field>>, b: seq<seq<Field>>)
    requires IsGreedyPacking(fields, a) && IsGreedyPacking(fields, b)
    requires a != [] && b != []
    ensures |a[0]| >= |b[0]|
  {
    GreedyTail(fields, a);
    GreedyTail(fields, b);
    var n := |a[0]|;
    if n < |b[0]| {
      // The field after a's first row still lies inside b's first row.
      var rest := a[1..];
      assert Flatten(rest) == fields[n..];
      assert |a| >= 2;
      assert rest[0] != [];
      assert Flatten(rest)[0] == rest[0][0];
      assert a[1][0] == fields[n] == b[0][n];
      var prefix := b[0][..n + 1];
      assert prefix == a[0] + [a[1][0]];
      RowSpanAppend(a[0], a[1][0]);
      RowSpanPrefix(b[0], n + 1);
      assert false;
    }
  }

  /** Greedy maximality pins the packing down: there is only one. */
  lemma {:induction false} GreedyPackingUnique(fields: seq<Field>, a: seq<seq<Field>>, b: seq<seq<Field>>)
    requires IsGreedyPacking(fields, a) && IsGreedyPacking(fields, b)
    ensures a == b
    decreases |fields|
  {
    FlattenEmpty(fields, a);
    FlattenEmpty(fields, b);
    if a != [] {
      FirstRowNotShorter(fields, a, b);
      FirstRowNotShorter(fields, b, a);
      GreedyTail(fields, a);
      GreedyTail(fields, b);
      assert a[0] == b[0];
      assert a[0] != [];
      GreedyPackingUnique(fields[|a[0]|..], a[1..], b[1..]);
      assert a == [a[0]] + a[1..] && b == [b[0]] + b[1..];
    }
  }

  /** The recursive definition meets every property of a greedy packing. */
  lemma {:induction false} PackIsGreedy(fields: seq<Field>)
    ensures IsGreedyPacking(fields, Pack(fields))
    decreases |fields|
  {
    if fields != [] {
      var n := Fit(fields, Columns);
      assert fields[..0] == [];
      var first := fields[..n];
      var rest := Pack(fields[n..]);
      var rows := Pack(fields);
      assert rows == [first] + rest;
      PackIsGreedy(fields[n..]);
      assert rows[1..] == rest;
      assert fields == first + fields[n..];
      forall k | 0 <= k < |rows| ensures rows[k] != [] && RowSpan(rows[k]) <= Columns {
        if k > 0 { assert rows[k] == rest[k - 1]; }
      }
      forall k | 0 <= k < |rows| - 1
        ensures RowSpan(rows[k]) + ColSpan(rows[k + 1][0].width) > Columns
      {
        if k == 0 {
          assert rest[0] != [];
          assert Flatten(rest)[0] == rest[0][0];
          assert fields[n..][0] == fields[n];
        } else {
          assert rows[k] == rest[k - 1] && rows[k + 1] == rest[k];
        }
      }
    }
  }

  /** The greedy properties carried over from rows of fields to their width labels. */
  lemma GreedyWidths(fields: seq<Field>, rows: seq<seq<Field>>)
    requires IsGreedyPacking(fields, rows)
    ensures IsGreedyLayout(fields, WidthsOf(rows))
  {
    var widths := WidthsOf(rows);
    FlattenWidths(rows);
    forall k | 0 <= k < |widths| ensures widths[k] != [] && LabelSpan(widths[k]) <= Columns {
      LabelSpanOfLabels(rows[k]);
    }
    forall k | 0 <= k < |widths| - 1
      ensures LabelSpan(widths[k]) + ColSpan(Some(widths[k + 1][0])) > Columns
    {
      LabelSpanOfLabels(rows[k]);
      LabelKeepsSpan(rows[k + 1][0].width);
    }
  }

  // ---------------------------------------------------------------------------
  // Properties of the packer's output
  // ---------------------------------------------------------------------------

  /**
   * The widths returned for any field list: a greedy layout with one label per
   * field, each the field's own label or "full", and no rows at all exactly
   * when there are no fields.
   */
  lemma PackedWidths(fields: seq<Field>)
    ensures IsGreedyLayout(fields, WidthsOf(Pack(fields)))
    ensures |Flatten(WidthsOf(Pack(fields)))| == |fields|
    ensures WidthsOf(Pack(fields)) == [] <==> fields == []
    ensures forall k :: 0 <= k < |fields| ==>
      Flatten(WidthsOf(Pack(fields)))[k] == WidthLabel(fields[k].width)
  {
    PackIsGreedy(fields);
    GreedyWidths(fields, Pack(fields));
    FlattenEmpty(fields, Pack(fields));
  }

  /**
   * Packing the fields read back from the rows, in row-major order, gives the
   * same rows again.
   */
  lemma RepackFlattened(fields: seq<Field>)
    ensures Pack(Flatten(Pack(fields))) == Pack(fields)
    ensures Layout(Flatten(Pack(fields))) == Layout(fields)
  {
    PackIsGreedy(fields);
  }

  /** Every field with its width replaced by its recorded label. */
  function WithLabels(fields: seq<Field>): (labelled: seq<Field>)
    ensures |labelled| == |fields|
  {
    seq(|fields|, k requires 0 <= k < |fields| => fields[k].(width := Some(WidthLabel(fields[k].width))))
  }

  lemma {:induction false} FitWithLabels(fields: seq<Field>, budget: nat)
    ensures Fit(WithLabels(fields), budget) == Fit(fields, budget)
    decreases |fields|
  {
    if fields != [] {
      LabelKeepsSpan(fields[0].width);
      assert WithLabels(fields)[1..] == WithLabels(fields[1..]);
      if ColSpan(fields[0].width) <= budget {
        FitWithLabels(fields[1..], budget - ColSpan(fields[0].width));
      }
    }
  }

  lemma WidthsOfCons(row: seq<Field>, rows: seq<seq<Field>>)
    ensures WidthsOf([row] + rows) == [Labels(row)] + WidthsOf(rows)
  {
    var lhs, rhs := WidthsOf([row] + rows), [Labels(row)] + WidthsOf(rows);
    forall k | 0 <= k < |lhs| ensures lhs[k] == rhs[k] {
      if k > 0 { assert ([row] + rows)[k] == rows[k - 1]; }
    }
  }

  lemma LabelsWithLabels(row: seq<Field>)
    ensures Labels(WithLabels(row)) == Labels(row)
  {
    forall k | 0 <= k < |row| ensures Labels(WithLabels(row))[k] == Labels(row)[k] {
      LabelKeepsSpan(row[k].width);
    }
  }

  /**
   * Fields whose widths were replaced by their labels pack into the same
   * widths: the labels of a packing are a fixed point of packing.
   */
  lemma {:induction false} RepackLabelled(fields: seq<Field>)
    ensures WidthsOf(Pack(WithLabels(fields))) == WidthsOf(Pack(fields))
    decreases |fields|
  {
    if fields != [] {
      var labelled := WithLabels(fields);
      var n := Fit(fields, Columns);
      FitWithLabels(fields, Columns);
      assert labelled[..n] == WithLabels(fields[..n]);
      assert labelled[n..] == WithLabels(fields[n..]);
      RepackLabelled(fields[n..]);
      LabelsWithLabels(fields[..n]);
      WidthsOfCons(labelled[..n], Pack(labelled[n..]));
      WidthsOfCons(fields[..n], Pack(fields[n..]));
    }
  }

  /** Five fields: one full row, then 1+1+2 filling a row exactly, then one more. */
  lemma WorkedExample()
    ensures var full, fourth, half :=
      Field(UndefinedName, None, None, Some("full")), Field(UndefinedName, None, None, Some("fourth")), Field(UndefinedName, None, None, Some("half"));
      WidthsOf(Pack([full, fourth, fourth, half, fourth])) == [["full"], ["fourth", "fourth", "half"], ["fourth"]]
  {
    var full, fourth, half :=
      Field(UndefinedName, None, None, Some("full")), Field(UndefinedName, None, None, Some("fourth")), Field(UndefinedName, None, None, Some("half"));
    var fields := [full, fourth, fourth, half, fourth];
    var rows := [[full], [fourth, fourth, half], [fourth]];
    assert Flatten(rows) == fields by {
      assert Flatten(rows[2..]) == [fourth];
      assert Flatten(rows[1..]) == [fourth, fourth, half] + [fourth];
    }
    assert RowSpan([fourth, fourth, half]) == 4 by {
      assert RowSpan([half]) == 2;
      assert RowSpan([fourth, half]) == 3;
    }
    assert IsGreedyPacking(fields, rows);
    PackIsGreedy(fields);
    GreedyPackingUnique(fields, rows, Pack(fields));
    assert Labels([full]) == ["full"];
    assert Labels([fourth]) == ["fourth"];
    assert Labels([fourth, fourth, half]) == ["fourth", "fourth", "half"];
  }
}

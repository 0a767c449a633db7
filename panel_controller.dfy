/** One panel of the window: the grid of rows it shows, the form inputs under it, and the
    handlers behind its "Add" and "Delete" buttons and its initial data. */
module PanelController {
  import opened Results
  import opened FieldSchema
  import opened ValueCodec
  import opened Form

  /** Python truthiness of a value handed to `__getInputFieldByType` (`if val:`). */
  predicate Truthy(v: Value)
  {
    match v
    case BoolVal(b) => b
    case NumVal(x) => x != 0.0
    case TextVal(s) => s != ""
  }

  /** A disabled cell widget: its kind, and the value its setter was given, if it was called. */
  datatype Cell = Cell(widget: Widget, shown: Option<Value>)

  /** A grid row: one entry per column, `None` where no cell widget was set. */
  type Row = seq<Option<Cell>>

  /** The widget `__getInputFieldByType(tag, val, True)` builds for a cell. */
  function MakeCell(tag: string, val: Value): Cell
  {
    Cell(WidgetFor(tag), if Truthy(val) then Some(val) else None)
  }

  /** The row `__addRowWithDataToGrid` appends: `zip` pairs the columns with the values and
      stops at the shorter of the two. */
  function RowOf(fields: Schema, vals: seq<Value>): (row: Row)
    ensures |row| == |fields|
  {
    seq(|fields|, c requires 0 <= c < |fields| =>
      if c < |vals| then Some(MakeCell(fields[c].tag, vals[c])) else None)
  }

  /** Column `c` of the appended row holds a cell exactly when there was a value for it, and
      the cell is of the column's kind and shows that value when the value is truthy. Values
      beyond the last column are dropped. */
  lemma RowOfSpec(fields: Schema, vals: seq<Value>)
    ensures forall c :: 0 <= c < |fields| ==> (RowOf(fields, vals)[c].Some? <==> c < |vals|)
    ensures forall c :: 0 <= c < |fields| && c < |vals| ==>
              RowOf(fields, vals)[c].value.widget == WidgetFor(fields[c].tag) &&
              (RowOf(fields, vals)[c].value.shown == Some(vals[c]) <==> Truthy(vals[c])) &&
              (RowOf(fields, vals)[c].value.shown.None? <==> !Truthy(vals[c]))
    ensures |vals| >= |fields| ==> RowOf(fields, vals) == RowOf(fields, vals[..|fields|])
  {
  }

  const OkMark: string := "~OK"

  /** Whether "Add" gets past its first check: the built-in empty check when there is no
      validator, else the validator's verdict. */
  predicate Admitted(inputs: seq<Input>, fields: Schema, validator: Option<(seq<Input>, Schema) -> string>)
  {
    match validator
    case None => FirstBlank(inputs, fields).None?
    case Some(v) => v(inputs, fields) == OkMark
  }

  datatype AddOutcome =
    | Added
      /** The built-in check found this column blank ("Please enter <title>"). */
    | MissingField(column: nat)
      /** The validator rejected the form; reporting it raises TypeError. */
    | NoticeFailed(message: string)
      /** `__getValsFromInput` raised. */
    | ExtractionFailed(error: Error)

  /** The button the user pressed in the confirmation box. */
  datatype Answer = Yes | No | Dismissed

  datatype DeleteOutcome =
    | Prohibited
    | NoSelection
    | Kept(row: int)
    | Removed(row: int)

  /** `grid.removeRow(i)`: the row at `i` goes and later rows move up; an index outside the grid
      changes nothing. */
  function RemoveAt(rows: seq<Row>, i: int): seq<Row>
  {
    if 0 <= i < |rows| then rows[..i] + rows[i + 1..] else rows
  }

  lemma RemoveAtSpec(rows: seq<Row>, i: int)
    ensures 0 <= i < |rows| ==> |RemoveAt(rows, i)| == |rows| - 1
    ensures 0 <= i < |rows| ==> forall j :: 0 <= j < i ==> RemoveAt(rows, i)[j] == rows[j]
    ensures 0 <= i < |rows| ==> forall j :: i <= j < |rows| - 1 ==> RemoveAt(rows, i)[j] == rows[j + 1]
    ensures 0 <= i < |rows| ==> multiset(RemoveAt(rows, i)) + multiset{rows[i]} == multiset(rows)
    ensures !(0 <= i < |rows|) ==> RemoveAt(rows, i) == rows
  {
    if 0 <= i < |rows| {
      assert rows == rows[..i] + [rows[i]] + rows[i + 1..];
    }
  }

  lemma {:induction false} MulLe(a: int, b: int, w: nat)
    requires a <= b
    ensures a * w <= b * w
    decreases b - a
  {
    if a < b {
      MulLe(a, b - 1, w);
      assert b * w == (b - 1) * w + w;
    }
  }

  lemma LessFromMul(a: int, b: int, w: nat)
    requires a * w < b * w
    ensures a < b
  {
    if a >= b {
      MulLe(b, a, w);
    }
  }

  /** The number of whole slices of width `w` in `n` values is `n / w`. */
  lemma DivUnique(k: nat, w: nat, n: nat)
    requires w > 0 && k * w <= n < k * w + w
    ensures n / w == k
  {
    var q, r := n / w, n % w;
    assert n == q * w + r && 0 <= r < w;
    assert (k + 1) * w == k * w + w && (q + 1) * w == q * w + w;
    LessFromMul(q, k + 1, w);
    LessFromMul(k, q + 1, w);
  }

  /** The first `n` rows `__populateGrid` builds: row `k` is made of `vals[k*w:k*w+w]`. */
  function ChunkRows(fields: Schema, vals: seq<Value>, n: nat): (rows: seq<Row>)
    requires n * |fields| <= |vals|
    ensures |rows| == n
    decreases n
  {
    if n == 0 then []
    else
      assert (n - 1) * |fields| + |fields| == n * |fields|;
      ChunkRows(fields, vals, n - 1) + [RowOf(fields, vals[(n - 1) * |fields|..n * |fields|])]
  }

  /** `zip(range(0, L+1, w), range(w, L+1, w))` yields `L / w` slices. */
  function Chunks(fields: Schema, vals: seq<Value>): seq<Row>
    requires |fields| > 0
  {
    var w := |fields|;
    assert (|vals| / w) * w <= |vals| by { assert |vals| == (|vals| / w) * w + |vals| % w; }
    ChunkRows(fields, vals, |vals| / w)
  }

  lemma {:induction false} ChunkRowsAt(fields: Schema, vals: seq<Value>, n: nat, k: nat)
    requires n * |fields| <= |vals| && k < n
    ensures k * |fields| + |fields| <= |vals|
    ensures ChunkRows(fields, vals, n)[k] == RowOf(fields, vals[k * |fields|..k * |fields| + |fields|])
    ensures forall c :: 0 <= c < |fields| ==> ChunkRows(fields, vals, n)[k][c].Some?
    decreases n
  {
    assert (n - 1) * |fields| + |fields| == n * |fields|;
    if k < n - 1 {
      ChunkRowsAt(fields, vals, n - 1, k);
    }
  }

  /** Populating a grid of width `w` with `L` values makes `L / w` rows, so the fewer than `w`
      values left over are dropped. */
  lemma ChunksCount(fields: Schema, vals: seq<Value>)
    requires |fields| > 0
    ensures |Chunks(fields, vals)| == |vals| / |fields|
    ensures |Chunks(fields, vals)| * |fields| <= |vals| < |Chunks(fields, vals)| * |fields| + |fields|
  {
    var w, n := |fields|, |vals| / |fields|;
    assert |vals| == n * w + |vals| % w;
    assert n * w + w == (n + 1) * w;
  }

  /** Row `k` of the populated grid is built from `vals[k*w..k*w+w]`, and every one of its
      columns has a cell. */
  lemma ChunksRows(fields: Schema, vals: seq<Value>)
    requires |fields| > 0
    ensures forall k :: 0 <= k < |Chunks(fields, vals)| ==>
              k * |fields| + |fields| <= |vals| &&
              Chunks(fields, vals)[k] == RowOf(fields, vals[k * |fields|..k * |fields| + |fields|]) &&
              forall c :: 0 <= c < |fields| ==> Chunks(fields, vals)[k][c].Some?
  {
    var w, n := |fields|, |vals| / |fields|;
    assert n * w <= |vals| by { assert |vals| == n * w + |vals| % w; }
    var rows := ChunkRows(fields, vals, n);
    assert Chunks(fields, vals) == rows;
    forall k | 0 <= k < n
      ensures k * w + w <= |vals| && rows[k] == RowOf(fields, vals[k * w..k * w + w]) &&
              forall c :: 0 <= c < w ==> rows[k][c].Some?
    {
      ChunkRowsAt(fields, vals, n, k);
    }
  }

  /** Deleting the row just appended gives back the grid as it was. */
  lemma RemoveLastUndoesAdd(rows: seq<Row>, row: Row)
    ensures RemoveAt(rows + [row], |rows|) == rows
  {
    assert (rows + [row])[..|rows|] == rows;
  }

  /** With no bool field and `on_add` left as the identity, column `c` of the added row is of
      field `c`'s kind and shows the value of input `c` when that value is truthy. */
  lemma AddedRowFollowsInputs(inputs: seq<Input>, fields: Schema)
    requires InputsFit(inputs, fields)
    requires forall i :: 0 <= i < |fields| ==> !Contains(fields[i].tag, "bool")
    ensures InputVals(inputs, fields).Ok?
    ensures forall c :: 0 <= c < |fields| ==>
              RowOf(fields, InputVals(inputs, fields).value)[c] ==
                Some(MakeCell(fields[c].tag, SingleValue(inputs[c], fields[c].tag)))
  {
    NoBoolAligned(inputs, fields);
  }

  /** With a bool field first and `on_add` left as the identity, the second column of the added
      row is given the check box's empty text instead of its own input's value, and so shows
      nothing, whatever was typed there. */
  lemma BoolFirstLosesSecondColumn(inputs: seq<Input>, fields: Schema)
    requires InputsFit(inputs, fields) && |fields| >= 2
    requires Contains(fields[0].tag, "bool") && !IsNumericTag(fields[0].tag)
    requires InputVals(inputs, fields).Ok?
    ensures RowOf(fields, InputVals(inputs, fields).value)[1] == Some(Cell(WidgetFor(fields[1].tag), None))
  {
    BoolFirstShifts(inputs, fields);
    var vals := InputVals(inputs, fields).value;
    assert vals[1] == vals[..2][1];
  }

  /** The grid the "Notes" demo panel starts with: two rows, the unchecked box of the second
      showing nothing. */
  lemma NotesGrid(fields: Schema, vals: seq<Value>)
    requires fields == [Field("Name", ""), Field("Checked", "bool")]
    requires vals == [TextVal("1"), BoolVal(true), TextVal("3"), BoolVal(false)]
    ensures Chunks(fields, vals) ==
              [[Some(Cell(LineEditWidget, Some(TextVal("1")))), Some(Cell(CheckBoxWidget, Some(BoolVal(true))))],
               [Some(Cell(LineEditWidget, Some(TextVal("3")))), Some(Cell(CheckBoxWidget, None))]]
  {
    BoolAndTextDispatch();
    ChunksCount(fields, vals);
    ChunksRows(fields, vals);
    var rows := Chunks(fields, vals);
    assert |rows| == 2;
    var first, second := RowOf(fields, vals[0..2]), RowOf(fields, vals[2..4]);
    assert rows[0] == first && rows[1] == second by {
      assert 0 * |fields| == 0 && 1 * |fields| == 2;
    }
    assert first[0] == Some(Cell(LineEditWidget, Some(TextVal("1"))));
    assert first[1] == Some(Cell(CheckBoxWidget, Some(BoolVal(true))));
    assert second[0] == Some(Cell(LineEditWidget, Some(TextVal("3"))));
    assert second[1] == Some(Cell(CheckBoxWidget, None));
    assert first == [first[0], first[1]] && second == [second[0], second[1]];
    assert rows == [first, second];
  }

  /** One panel (an entry of the window's `internals`): its schema, the grid rows and the form
      inputs. */
  class Panel {
    const fields: Schema
    var rows: seq<Row>
    var inputs: seq<Input>

    /** Every input has the kind its field's tag selects, and every row has one entry per
        column. */
    ghost predicate Valid()
      reads this
    {
      InputsFit(inputs, fields) && forall i :: 0 <= i < |rows| ==> |rows[i]| == |fields|
    }

    /** An empty grid with a fresh input per field. */
    constructor(fields: Schema)
      ensures Valid()
      ensures this.fields == fields && rows == [] && inputs == FreshInputs(fields)
    {
      this.fields := fields;
      rows := [];
      inputs := FreshInputs(fields);
    }

    /** `__clearInputs`: unchecks the check boxes and clears the text of the other inputs. */
    method ClearInputs()
      requires Valid()
      modifies this
      ensures Valid()
      ensures inputs == Cleared(old(inputs)) && rows == old(rows)
    {
      WidgetMatchesAll(inputs, fields);
      ghost var before := inputs;
      var i := 0;
      while i < |inputs| && i < |fields|
        invariant 0 <= i <= |before| && |inputs| == |before| && rows == old(rows)
        invariant forall j :: 0 <= j < i ==> inputs[j] == ClearOne(before[j])
        invariant forall j :: i <= j < |before| ==> inputs[j] == before[j]
      {
        if Contains(fields[i].tag, "bool") {
          inputs := inputs[i := CheckBox(false)];
        } else {
          var cleared := if inputs[i].SpinBox? then inputs[i].(text := "") else LineEdit("");
          inputs := inputs[i := cleared];
        }
        i := i + 1;
      }
      ClearedKeepsKinds(before, fields);
    }

    /** `__addRowWithDataToGrid`: inserts an empty row at the end, then sets the cells of the
        columns that have a value. */
    method AddRowWithData(vals: seq<Value>)
      requires Valid()
      modifies this
      ensures Valid()
      ensures rows == old(rows) + [RowOf(fields, vals)] && inputs == old(inputs)
    {
      var row := |rows|;
      rows := rows + [RowOf(fields, [])];
      var col := 0;
      while col < |fields| && col < |vals|
        invariant 0 <= col <= |fields| && col <= |vals|
        invariant |rows| == row + 1 && rows[..row] == old(rows) && inputs == old(inputs)
        invariant rows[row] == RowOf(fields, vals[..col])
      {
        var cells := rows[row][col := Some(MakeCell(fields[col].tag, vals[col]))];
        assert cells == RowOf(fields, vals[..col + 1]);
        rows := rows[row := cells];
        col := col + 1;
      }
      assert RowOf(fields, vals[..col]) == RowOf(fields, vals);
      assert rows == old(rows) + [RowOf(fields, vals)];
    }

    /** `__populateGrid`: decodes the initial data and appends one row per full slice of
        `len(fields)` values. It raises, adding nothing, when decoding fails or the schema is
        empty (`range` refuses a step of 0). */
    method PopulateGrid(data: seq<string>, parse: string -> Option<real>) returns (error: Option<Error>)
      requires Valid()
      modifies this
      ensures Valid() && inputs == old(inputs)
      ensures error.None? <==> |fields| > 0 && Decodable(data, fields, parse)
      ensures error.None? ==> rows == old(rows) + Chunks(fields, Decoded(data, fields, parse))
      ensures error.Some? ==> rows == old(rows)
      ensures error.Some? && |fields| == 0 ==> error == Some(if |data| == 0 then ZeroStep else NoColumns)
      ensures error.Some? && |fields| > 0 ==>
        exists k :: 0 <= k < |data| && DecodeCell(ColumnTag(fields, k), data[k], parse) == Err(error.value) &&
          forall j :: 0 <= j < k ==> DecodeCell(ColumnTag(fields, j), data[j], parse).Ok?
    {
      var converted := ConvertToVals(data, fields, parse);
      if converted.Err? {
        return Some(converted.error);
      }
      var vals := converted.value;
      var step := |fields|;
      if step == 0 {
        return Some(ZeroStep);
      }
      var start, stop := 0, step;
      ghost var k := 0;
      while stop < |vals| + 1
        invariant Valid() && inputs == old(inputs)
        invariant k * step <= |vals| && start == k * step && stop == start + step
        invariant rows == old(rows) + ChunkRows(fields, vals, k)
        decreases |vals| + 1 - stop
      {
        AddRowWithData(vals[start..stop]);
        assert (k + 1) * step == stop;
        start, stop, k := start + step, stop + step, k + 1;
      }
      DivUnique(k, step, |vals|);
      return None;
    }

    /** `__addDataFromInputsToGrid`. Without a validator a blank field ends it; with one, any
        verdict other than "~OK" ends it, because the notice it then shows is handed
        `self.window` (a bound method) as its parent and raises TypeError. Otherwise the values
        read from the form go through `on_add`, become a new row, and the form is cleared. */
    method AddDataFromInputs(onAdd: seq<Value> -> seq<Value>, validator: Option<(seq<Input>, Schema) -> string>)
      returns (outcome: AddOutcome)
      requires Valid()
      modifies this
      ensures Valid()
      ensures outcome.Added? <==> Admitted(old(inputs), fields, validator) && InputVals(old(inputs), fields).Ok?
      ensures outcome.Added? ==>
                rows == old(rows) + [RowOf(fields, onAdd(InputVals(old(inputs), fields).value))] &&
                inputs == Cleared(old(inputs))
      ensures !outcome.Added? ==> rows == old(rows) && inputs == old(inputs)
      ensures validator.None? && FirstBlank(old(inputs), fields).Some? ==>
                outcome == MissingField(FirstBlank(old(inputs), fields).value)
      ensures validator.Some? && validator.value(old(inputs), fields) != OkMark ==>
                outcome == NoticeFailed(validator.value(old(inputs), fields))
      ensures Admitted(old(inputs), fields, validator) && InputVals(old(inputs), fields).Err? ==>
                outcome == ExtractionFailed(InputVals(old(inputs), fields).error)
    {
      if validator.None? {
        var ok, blank := InputsNotEmpty(inputs, fields);
        if !ok {
          return MissingField(blank);
        }
      } else {
        var message := validator.value(inputs, fields);
        if message != OkMark {
          return NoticeFailed(message);
        }
      }
      var extracted := ValsFromInputs(inputs, fields);
      if extracted.Err? {
        return ExtractionFailed(extracted.error);
      }
      AddRowWithData(onAdd(extracted.value));
      ClearInputs();
      return Added;
    }

    /** `__deleteRowFromGrid`: `on_del` (given the inputs) may veto; then a selection is needed;
        then only a "Yes" in the confirmation box removes the selected row. */
    method DeleteRow(currentRow: int, onDel: seq<Input> -> bool, answer: Answer) returns (outcome: DeleteOutcome)
      requires Valid()
      modifies this
      ensures Valid() && inputs == old(inputs)
      ensures !onDel(old(inputs)) ==> outcome == Prohibited
      ensures onDel(old(inputs)) && currentRow < 0 ==> outcome == NoSelection
      ensures onDel(old(inputs)) && currentRow >= 0 ==>
                outcome == (if answer == Yes && currentRow < |old(rows)| then Removed(currentRow) else Kept(currentRow))
      ensures outcome.Removed? ==> rows == RemoveAt(old(rows), currentRow)
      ensures !outcome.Removed? ==> rows == old(rows)
    {
      if !onDel(inputs) {
        return Prohibited;
      }
      if currentRow < 0 {
        return NoSelection;
      }
      if answer == Yes && currentRow < |rows| {
        rows := rows[..currentRow] + rows[currentRow + 1..];
        return Removed(currentRow);
      }
      return Kept(currentRow);
    }
  }

  /** Every input of a form that fits its schema is of its field's widget kind. */
  lemma WidgetMatchesAll(inputs: seq<Input>, fields: Schema)
    requires InputsFit(inputs, fields)
    ensures forall i :: 0 <= i < |inputs| ==>
              (inputs[i].CheckBox? <==> Contains(fields[i].tag, "bool"))
  {
    forall i | 0 <= i < |inputs| ensures inputs[i].CheckBox? <==> Contains(fields[i].tag, "bool") {
      WidgetMatchesValueTest(fields[i].tag);
    }
  }

  /** `NewPanel`: a panel for the schema, populated only when the initial data is non-empty. */
  method NewPanel(fields: Schema, initialData: seq<string>, parse: string -> Option<real>)
    returns (panel: Panel, error: Option<Error>)
    ensures fresh(panel) && panel.Valid() && panel.fields == fields && panel.inputs == FreshInputs(fields)
    ensures |initialData| == 0 ==> error.None? && panel.rows == []
    ensures error.None? <==> |initialData| == 0 || (|fields| > 0 && Decodable(initialData, fields, parse))
    ensures error.None? && |initialData| > 0 ==>
              |fields| > 0 && Decodable(initialData, fields, parse) &&
              panel.rows == Chunks(fields, Decoded(initialData, fields, parse))
  {
    panel := new Panel(fields);
    error := None;
    if |initialData| > 0 {
      error := panel.PopulateGrid(initialData, parse);
    }
  }
}

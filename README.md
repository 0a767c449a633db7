# MiniDbHelper panel logic in Dafny

MiniDbHelper is a small PySide6 window made of a row of "panels". The caller builds a panel
from a `Layout`:

- a schema that maps field titles to type tags such as `"int"`, `"unsigned"`, `"bool"` or `""`;
- optional initial data, a flat list of strings;
- optional `on_add`, `on_del` and `validator` callbacks.

Each panel shows a grid of rows, one form input per field, and an "Add" and a "Delete" button.
This project models what a panel does with its data and proves properties of that model:

- which widget a type tag selects;
- how the initial strings are decoded and cut into rows;
- the built-in empty check;
- which values "Add" reads from the form and how they land in the new row;
- clearing the form;
- the order of the checks behind "Delete".

Modules:

- `Results` (`results.dfy`): `Option`, `Result` and the exceptions the code can raise, as error values.
- `FieldSchema` (`field_schema.dfy`):
  - fields and schemas;
  - Python's substring test `sub in s`;
  - the `if`/`elif` chain on the type tag that picks the widget kind and the spin-box range.
- `ValueCodec` (`value_codec.dfy`):
  - `str.capitalize`;
  - the `BoolFalseStr` denylist;
  - decoding one initial string by its column's tag;
  - `__convertToVals` as a loop, proved against a specification function.
- `Form` (`form.dfy`):
  - the state of the form inputs;
  - `str.strip`;
  - the built-in empty check `__inputsNotEmpty`;
  - the values `__getValsFromInput` reads;
  - what `__clearInputs` does to each input.
- `PanelController` (`panel_controller.dfy`): the class `Panel`. It holds the schema, the grid rows and
  the form inputs. It is updated in place by:
  - `ClearInputs`;
  - `AddRowWithData`;
  - `PopulateGrid`;
  - `AddDataFromInputs`;
  - `DeleteRow`.

The `float()` conversion is a parameter `parse: string -> Option<real>`; `None` stands for its
ValueError. The user's grid selection and the button pressed in the confirmation box are parameters
of `DeleteRow`. The callbacks are function-valued parameters.

Where the documented behaviour and the code differ, the model follows the code:

- **Validator branch** (`MiniDbHelper/MiniDbHelper.py:173-175`). When the validator returns anything
  other than `"~OK"`, there is no `return` before the append. However, the notice is raised with
  `QMessageBox.critical(self.window, ...)`. That passes the bound method `window`, not a widget, as
  the parent, so PySide6 raises TypeError before anything is appended. The model therefore ends
  the add with `NoticeFailed`, leaving the rows and inputs unchanged.
- **Bool decoding** (`MiniDbHelper/MiniDbHelper.py:241`). It compares `value.capitalize()` (first
  letter upper case, the rest lower case) with an all-upper-case list. Only the one-character tokens
  `0`, `N`, `n`, `Н`, `н` decode as false; `"false"`, `"FALSE"` and `"no"` decode as true
  (`ValueCodec.FalseTokenExactly`).
- **Empty check** (`MiniDbHelper/MiniDbHelper.py:157`). The check skips a field only when its tag is
  exactly `"bool"`, while the widget choice tests for the substring `"bool"`. A tag like
  `"boolean"` gets a check box whose text is empty, so the built-in check never passes such a form
  (`Form.BoolVariantNeverFilled`).
- **Bool fields on "Add"** (`MiniDbHelper/MiniDbHelper.py:223-228`). Extraction tests with
  `if`/`if`/`else`, so a bool field contributes two values: `isChecked()`, then the check box's empty
  text. Every later value moves one column to the right (`Form.BoolFirstShifts`,
  `PanelController.BoolFirstLosesSecondColumn`).
- **A tag with both "bool" and "int" or "unsigned"** (`MiniDbHelper/MiniDbHelper.py:225-226`).
  Extraction calls `value()` on a check box, which raises AttributeError. This is
  `ExtractionFailed(NoValueMethod(column))`.
- **The `i <= len(data)` guard** (`MiniDbHelper/MiniDbHelper.py:250-253`). The guard in
  `__convertToVals` never reaches its `break`; the loop keeps it.

## Model

| member | source | states |
|---|---|---|
| FieldSchema.ContainsAt | MiniDbHelper/MiniDbHelper.py:121 | Python's `sub in s` holds exactly when `sub` occurs at some index of `s` |
| FieldSchema.WidgetFor | MiniDbHelper/MiniDbHelper.py:118-144 | the widget a tag selects; any spin box it selects contains 0 and tops out at 9223372036854775807 |
| FieldSchema.WidgetMatchesValueTest | MiniDbHelper/MiniDbHelper.py:121-140 | the widget choice agrees with the tests the value code uses: a check box exactly when the tag contains "bool", otherwise a spin box exactly when it contains "int" or "unsigned", otherwise a line edit |
| FieldSchema.BoolAndTextDispatch | MiniDbHelper/MiniDbHelper.py:121-140 | "bool" and "boolint" get a check box ("bool" is tested first); "" and "text" get a line edit |
| FieldSchema.NumericDispatch | MiniDbHelper/MiniDbHelper.py:125-130 | "int" gets a spin box over [-2^63, 2^63-1] |
| FieldSchema.UnsignedDispatch | MiniDbHelper/MiniDbHelper.py:131-136 | "unsigned" (which contains neither "bool" nor "int") gets a spin box over [0, 2^63-1] |
| FieldSchema.IntTestedFirst | MiniDbHelper/MiniDbHelper.py:125-131 | "int" is tested before "unsigned", so "uint" and "point" get the signed range |
| ValueCodec.Capitalize | MiniDbHelper/MiniDbHelper.py:241 | `str.capitalize`: same length, first character upper case, all others lower case |
| ValueCodec.LongTokensNeverFalse | MiniDbHelper/MiniDbHelper.py:13 | no string of two or more characters matches the denylist after capitalisation, so its multi-letter entries are unreachable |
| ValueCodec.FalseTokenExactly | MiniDbHelper/MiniDbHelper.py:241-244 | a bool cell decodes as false exactly for "0", "N", "n", "Н", "н" |
| ValueCodec.FalseTokenExamples | MiniDbHelper/MiniDbHelper.py:241-242 | "0", "n" and "N" decode as false |
| ValueCodec.TrueTokenExamples | MiniDbHelper/MiniDbHelper.py:241-244 | "no", "FALSE", "" and "2" decode as true |
| ValueCodec.DecodeByKind | MiniDbHelper/MiniDbHelper.py:240-248 | a bool column gives true unless the string is a false token; a numeric column gives the parsed number or raises; any other column keeps the string |
| ValueCodec.ConvertToVals | MiniDbHelper/MiniDbHelper.py:233-255 | succeeds exactly when every element decodes with the tag of field `k % len(fields)`, and then yields one value per element; otherwise raises at the first failing element, or raises ZeroDivisionError for an empty schema with data |
| ValueCodec.NumericColumns | MiniDbHelper/MiniDbHelper.py:245-246 | with only numeric columns and strings that parse, every value is the parsed number |
| ValueCodec.PrimaryExample | MiniDbHelper/MiniDbHelper.py:274-276 | the "Primary" demo data decode to the numbers 1 to 6 |
| ValueCodec.TextThenBoolColumns | MiniDbHelper/MiniDbHelper.py:239-248 | with a text column and then a bool column, even elements stay strings and odd ones go through the false-token test |
| ValueCodec.NotesExample | MiniDbHelper/MiniDbHelper.py:277-280 | the "Notes" demo data decode to "1", true, "3", false |
| Form.FreshInput | MiniDbHelper/MiniDbHelper.py:96-99 | the input created for a field is of the widget kind its tag selects |
| Form.FreshInputs | MiniDbHelper/MiniDbHelper.py:94-100 | the created form has one input per field, each of its field's kind |
| Form.StripEmptyIffBlank | MiniDbHelper/MiniDbHelper.py:160 | `text.strip()` is empty exactly when the text is all Python white space |
| Form.FirstBlankSpec | MiniDbHelper/MiniDbHelper.py:155-165 | the reported field is the first that is not skipped and whose text is blank; there is none exactly when every field passes |
| Form.InputsNotEmpty | MiniDbHelper/MiniDbHelper.py:155-165 | true exactly when every field is tagged exactly "bool" or has non-blank text; otherwise names the first field that fails |
| Form.BoolVariantNeverFilled | MiniDbHelper/MiniDbHelper.py:157-163 | a field whose tag contains "bool" but is not "bool" always fails the empty check |
| Form.ContributionShape | MiniDbHelper/MiniDbHelper.py:223-228 | a bool field gives [checked, ""]; a numeric field gives the spin box's value; another field gives its text; a bool-and-numeric field raises |
| Form.InputValsShape | MiniDbHelper/MiniDbHelper.py:219-230 | extraction raises exactly when some tag contains both "bool" and "int"/"unsigned"; otherwise it yields `len(fields)` values plus one more per bool field |
| Form.InputValsErrPersists | MiniDbHelper/MiniDbHelper.py:225-226 | once a field raises, the whole extraction raises with that error |
| Form.InputValsPrefix | MiniDbHelper/MiniDbHelper.py:222-228 | the values of the first fields are a prefix of the values of all fields |
| Form.NoBoolAligned | MiniDbHelper/MiniDbHelper.py:219-230 | without bool fields, value `c` is read from input `c` |
| Form.NoBoolStep | MiniDbHelper/MiniDbHelper.py:225-228 | a field without "bool" appends exactly one value, its spin box's value or its text |
| Form.BoolFirstShifts | MiniDbHelper/MiniDbHelper.py:223-228 | a bool field first yields its checked state and then an empty string |
| Form.ValsFromInputs | MiniDbHelper/MiniDbHelper.py:219-230 | the loop builds exactly the extraction its specification defines |
| Form.ClearedKeepsKinds | MiniDbHelper/MiniDbHelper.py:147-152 | clearing keeps every input of its field's kind, and clearing twice is clearing once |
| Form.ClearedFormIsBlank | MiniDbHelper/MiniDbHelper.py:147-165 | after clearing, exactly the fields tagged "bool" pass the empty check, so a second "Add" is refused unless every tag is "bool" |
| PanelController.RowOfSpec | MiniDbHelper/MiniDbHelper.py:212-216 | column `c` of a new row has a cell exactly when there is a value `c`; the cell is of the column's kind; it shows the value exactly when the value is truthy; values past the last column are dropped |
| PanelController.RemoveAtSpec | MiniDbHelper/MiniDbHelper.py:198-199 | removing a row in range takes out that row only: earlier rows keep their place, later ones move up, the multiset of rows loses just it; an index out of range changes nothing |
| PanelController.RemoveLastUndoesAdd | MiniDbHelper/MiniDbHelper.py:198-199 | deleting the row just appended restores the grid |
| PanelController.ChunksCount | MiniDbHelper/MiniDbHelper.py:202-209 | populating with `L` values makes `L / len(fields)` rows, so fewer than `len(fields)` values are left over and dropped |
| PanelController.ChunksRows | MiniDbHelper/MiniDbHelper.py:208-209 | row `k` is built from values `k*w` to `k*w+w-1`, and every column of it has a cell |
| PanelController.AddedRowFollowsInputs | MiniDbHelper/MiniDbHelper.py:178 | without bool fields and with the default `on_add`, column `c` of the added row shows input `c`'s value |
| PanelController.BoolFirstLosesSecondColumn | MiniDbHelper/MiniDbHelper.py:178 | with a bool field first, the second column of the added row shows nothing, whatever its input held |
| PanelController.NotesGrid | MiniDbHelper/MiniDbHelper.py:277-280 | the "Notes" panel starts with two rows: "1" with a checked box, and "3" with an unchecked box |
| PanelController.Panel.constructor | MiniDbHelper/MiniDbHelper.py:94-100 | an empty grid and a fresh input per field |
| PanelController.Panel.ClearInputs | MiniDbHelper/MiniDbHelper.py:147-152 | check boxes are unchecked and the other inputs have their text cleared; the rows are unchanged |
| PanelController.Panel.AddRowWithData | MiniDbHelper/MiniDbHelper.py:212-216 | exactly one row is appended, the row the values make; the inputs are unchanged |
| PanelController.Panel.PopulateGrid | MiniDbHelper/MiniDbHelper.py:202-209 | it succeeds exactly when the schema is non-empty and the data decode; then it appends the decoded values' full slices as rows; otherwise nothing changes, and the error is the first failing decode, ZeroDivisionError, or a zero `range` step for an empty schema without data |
| PanelController.Panel.AddDataFromInputs | MiniDbHelper/MiniDbHelper.py:168-179 | the row is added exactly when the form passes its check (no blank field without a validator, "~OK" with one) and extraction succeeds; the added row is the one `on_add` of the values makes, and the form is then cleared; otherwise nothing changes and the outcome names the first check that failed |
| PanelController.Panel.DeleteRow | MiniDbHelper/MiniDbHelper.py:182-199 | the `on_del` veto is checked first, then the selection, then the answer; only "Yes" on a row of the grid removes that row; the inputs never change |
| PanelController.NewPanel | MiniDbHelper/MiniDbHelper.py:77-100 | a new panel has fresh inputs, and is populated from its initial data only when that data is non-empty |

## Left out

- Qt layout and widgets are not modelled: group boxes, column widths, header labels, buttons, signals, the window icon and geometry. Those decide nothing about the data.
- The `MiniDbHelper` window constructor and its `internals`/`dbs` bookkeeping are not modelled; a panel stands alone. An exception while a panel is populated aborts the whole window, while `NewPanel` here returns the error beside the panel.
- Message boxes are reduced to their outcome (`MissingField`, `NoticeFailed`, `Prohibited`, `NoSelection`, `Kept`). Their texts, and moving focus to the blank input, are not modelled.
- `float()` is the `parse` parameter and its result is an unbounded real. IEEE rounding, the spin boxes' clamping and their rounding to 0 decimals are not modelled. The range bounds are kept as the exact integers the source writes, although a double cannot hold 2^63-1.
- A cell widget is not tied to the type of the value passed to its setter. A setter that PySide6 would reject for a value of the wrong type (for example `setText(True)` after the columns shifted) is recorded as the value given. It is not modelled as a TypeError.
- The text a spin box shows is kept as given. It is not re-rendered from its value.
- ValueCodec.Capitalize: case mapping covers ASCII and the Cyrillic block U+0400–U+045F only, which is every letter of the denylist; other scripts are left unchanged.
- Schema titles are not required to be distinct, although a Python dict's keys are. The titles play no part in any computation here.
- `grid.currentRow()` is the `currentRow` parameter of `DeleteRow`. How Qt updates the selection is not modelled.
- The `on_add`, `on_del` and `validator` callbacks are total functions. A callback that raises, or that changes the widgets, is not modelled; the built-in defaults are the identity, always-true and absent.
- The demo's commented-out `truefalse` hook and the application event loop are not modelled.

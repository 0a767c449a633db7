/** The form of a panel: one input widget per field, the built-in empty check, the values read
    from the inputs on "Add", and clearing the inputs afterwards. */
module Form {
  import opened Results
  import opened FieldSchema
  import opened ValueCodec

  /** The state of one form input. A check box is created without a label, so its `text()` is
      empty. A spin box's value and the text its line edit shows are kept apart, because
      `clear()` empties the text and leaves the value. */
  datatype Input =
    | CheckBox(checked: bool)
    | SpinBox(min: int, max: int, value: real, text: string)
    | LineEdit(text: string)

  function WidgetOf(input: Input): Widget
  {
    match input
    case CheckBox(_) => CheckBoxWidget
    case SpinBox(lo, hi, _, _) => SpinBoxWidget(lo, hi)
    case LineEdit(_) => LineEditWidget
  }

  /** The input `__getInputFieldByType(_type, None, False)` creates: unchecked, 0 or empty. */
  function FreshInput(tag: string): (input: Input)
    ensures WidgetOf(input) == WidgetFor(tag)
  {
    match WidgetFor(tag)
    case CheckBoxWidget => CheckBox(false)
    case SpinBoxWidget(lo, hi) => SpinBox(lo, hi, 0.0, "0")
    case LineEditWidget => LineEdit("")
  }

  /** One input per field, of the widget kind the field's tag selects. */
  predicate InputsFit(inputs: seq<Input>, fields: Schema)
  {
    |inputs| == |fields| && forall i :: 0 <= i < |inputs| ==> WidgetOf(inputs[i]) == WidgetFor(fields[i].tag)
  }

  function FreshInputs(fields: Schema): (inputs: seq<Input>)
    ensures InputsFit(inputs, fields)
  {
    seq(|fields|, i requires 0 <= i < |fields| => FreshInput(fields[i].tag))
  }

  /** `input.text()` */
  function TextOf(input: Input): string
  {
    match input
    case CheckBox(_) => ""
    case SpinBox(_, _, _, t) => t
    case LineEdit(t) => t
  }

  /** The characters Python's `str.isspace` accepts. */
  predicate IsSpace(c: char)
  {
    c == ' ' || '\t' <= c <= '\r' || '\U{1C}' <= c <= '\U{1F}' || c == '\U{85}' || c == '\U{A0}' ||
    c == '\U{1680}' || '\U{2000}' <= c <= '\U{200A}' || c == '\U{2028}' || c == '\U{2029}' ||
    c == '\U{202F}' || c == '\U{205F}' || c == '\U{3000}'
  }

  predicate AllSpace(s: string)
  {
    forall i :: 0 <= i < |s| ==> IsSpace(s[i])
  }

  function TrimStart(s: string): string
    decreases |s|
  {
    if |s| > 0 && IsSpace(s[0]) then TrimStart(s[1..]) else s
  }

  function TrimEnd(s: string): string
    decreases |s|
  {
    if |s| > 0 && IsSpace(s[|s| - 1]) then TrimEnd(s[..|s| - 1]) else s
  }

  /** Python's `str.strip()` with no argument. */
  function Strip(s: string): string
  {
    TrimEnd(TrimStart(s))
  }

  lemma {:induction false} TrimStartSpec(s: string)
    ensures TrimStart(s) == "" <==> AllSpace(s)
    ensures TrimStart(s) != "" ==> !IsSpace(TrimStart(s)[0])
    decreases |s|
  {
    if |s| > 0 && IsSpace(s[0]) {
      TrimStartSpec(s[1..]);
      assert AllSpace(s) <==> AllSpace(s[1..]) by {
        if AllSpace(s[1..]) {
          forall i | 0 <= i < |s| ensures IsSpace(s[i]) {
            if i > 0 { assert s[i] == s[1..][i - 1]; }
          }
        }
      }
    }
  }

  lemma {:induction false} TrimEndEmpty(s: string)
    ensures TrimEnd(s) == "" <==> AllSpace(s)
    decreases |s|
  {
    if |s| > 0 && IsSpace(s[|s| - 1]) {
      var t := s[..|s| - 1];
      TrimEndEmpty(t);
      assert AllSpace(s) <==> AllSpace(t) by {
        if AllSpace(t) {
          forall i | 0 <= i < |s| ensures IsSpace(s[i]) {
            if i < |s| - 1 { assert s[i] == t[i]; }
          }
        }
      }
    } else if |s| > 0 {
      assert !IsSpace(s[|s| - 1]);
    }
  }

  /** `not text.strip()` holds exactly when the text is all white space (or empty). */
  lemma StripEmptyIffBlank(s: string)
    ensures Strip(s) == "" <==> AllSpace(s)
  {
    TrimStartSpec(s);
    TrimEndEmpty(TrimStart(s));
    var t := TrimStart(s);
    if t != "" {
      assert !IsSpace(t[0]);
    }
  }

  /** The number of pairs `zip(inputs, fields)` yields. */
  function ZipLen(inputs: seq<Input>, fields: Schema): nat
  {
    if |inputs| < |fields| then |inputs| else |fields|
  }

  /** Field `i` passes the built-in check: its tag is exactly "bool" (an equality test, not the
      substring test used elsewhere), or its input's text is not blank. */
  predicate Filled(inputs: seq<Input>, fields: Schema, i: nat)
    requires i < ZipLen(inputs, fields)
  {
    fields[i].tag == "bool" || Strip(TextOf(inputs[i])) != ""
  }

  function FirstBlankFrom(inputs: seq<Input>, fields: Schema, k: nat): Option<nat>
    requires k <= ZipLen(inputs, fields)
    decreases ZipLen(inputs, fields) - k
  {
    if k == ZipLen(inputs, fields) then None
    else if Filled(inputs, fields, k) then FirstBlankFrom(inputs, fields, k + 1)
    else Some(k)
  }

  /** The field `__inputsNotEmpty` reports, if any. */
  function FirstBlank(inputs: seq<Input>, fields: Schema): Option<nat>
  {
    FirstBlankFrom(inputs, fields, 0)
  }

  lemma {:induction false} FirstBlankFromSpec(inputs: seq<Input>, fields: Schema, k: nat)
    requires k <= ZipLen(inputs, fields)
    requires forall j :: 0 <= j < k ==> Filled(inputs, fields, j)
    ensures FirstBlankFrom(inputs, fields, k).None? <==>
              forall i :: 0 <= i < ZipLen(inputs, fields) ==> Filled(inputs, fields, i)
    ensures FirstBlankFrom(inputs, fields, k).Some? ==>
              var b := FirstBlankFrom(inputs, fields, k).value;
              b < ZipLen(inputs, fields) && !Filled(inputs, fields, b) &&
              forall j :: 0 <= j < b ==> Filled(inputs, fields, j)
    decreases ZipLen(inputs, fields) - k
  {
    if k < ZipLen(inputs, fields) && Filled(inputs, fields, k) {
      FirstBlankFromSpec(inputs, fields, k + 1);
    }
  }

  /** `FirstBlank` is the least field that fails the check, and there is none exactly when every
      field passes. */
  lemma FirstBlankSpec(inputs: seq<Input>, fields: Schema)
    ensures FirstBlank(inputs, fields).None? <==>
              forall i :: 0 <= i < ZipLen(inputs, fields) ==> Filled(inputs, fields, i)
    ensures FirstBlank(inputs, fields).Some? ==>
              var b := FirstBlank(inputs, fields).value;
              b < ZipLen(inputs, fields) && !Filled(inputs, fields, b) &&
              forall j :: 0 <= j < b ==> Filled(inputs, fields, j)
  {
    FirstBlankFromSpec(inputs, fields, 0);
  }

  /** `__inputsNotEmpty`: walks the fields in order, skips those whose tag is exactly "bool", and
      stops at the first input whose stripped text is empty (the one it reports and focuses). */
  method InputsNotEmpty(inputs: seq<Input>, fields: Schema) returns (ok: bool, blank: nat)
    ensures ok <==> forall i :: 0 <= i < ZipLen(inputs, fields) ==> Filled(inputs, fields, i)
    ensures !ok ==> blank < ZipLen(inputs, fields) && !Filled(inputs, fields, blank) &&
                    forall j :: 0 <= j < blank ==> Filled(inputs, fields, j)
    ensures ok == FirstBlank(inputs, fields).None? && (!ok ==> FirstBlank(inputs, fields) == Some(blank))
  {
    FirstBlankSpec(inputs, fields);
    var i := 0;
    while i < |inputs| && i < |fields|
      invariant 0 <= i <= ZipLen(inputs, fields)
      invariant forall j :: 0 <= j < i ==> Filled(inputs, fields, j)
    {
      if fields[i].tag == "bool" {
        i := i + 1;
        continue;
      }
      if Strip(TextOf(inputs[i])) == "" {
        assert !Filled(inputs, fields, i);
        return false, i;
      }
      i := i + 1;
    }
    return true, 0;
  }

  /** A field whose tag contains "bool" without being exactly "bool" has a check box, whose text
      is empty, and is not skipped: the built-in check never passes such a form. */
  lemma BoolVariantNeverFilled(inputs: seq<Input>, fields: Schema, i: nat)
    requires InputsFit(inputs, fields) && i < |fields|
    requires Contains(fields[i].tag, "bool") && fields[i].tag != "bool"
    ensures !Filled(inputs, fields, i)
    ensures FirstBlank(inputs, fields).Some?
  {
    FirstBlankSpec(inputs, fields);
  }

  /** What one input adds to the list `__getValsFromInput` builds. The tests are `if`/`if`/`else`:
      a "bool" field adds `isChecked()` and then falls through to the second test, so it also
      adds its `text()`; a numeric tag calls `value()`, which a check box does not have. */
  function Contribution(input: Input, tag: string, column: nat): Result<seq<Value>>
    requires WidgetOf(input) == WidgetFor(tag)
  {
    var checked := if Contains(tag, "bool") then [BoolVal(input.checked)] else [];
    if IsNumericTag(tag) then
      (if input.SpinBox? then Ok(checked + [NumVal(input.value)]) else Err(NoValueMethod(column)))
    else Ok(checked + [TextVal(TextOf(input))])
  }

  /** The four shapes a contribution takes. */
  lemma ContributionShape(input: Input, tag: string, column: nat)
    requires WidgetOf(input) == WidgetFor(tag)
    ensures Contains(tag, "bool") && !IsNumericTag(tag) ==>
              Contribution(input, tag, column) == Ok([BoolVal(input.checked), TextVal("")])
    ensures Contains(tag, "bool") && IsNumericTag(tag) ==>
              Contribution(input, tag, column) == Err(NoValueMethod(column))
    ensures !Contains(tag, "bool") && IsNumericTag(tag) ==>
              input.SpinBox? && Contribution(input, tag, column) == Ok([NumVal(input.value)])
    ensures !Contains(tag, "bool") && !IsNumericTag(tag) ==>
              input.LineEdit? && Contribution(input, tag, column) == Ok([TextVal(input.text)])
  {
    WidgetMatchesValueTest(tag);
    var checked: seq<Value> := if Contains(tag, "bool") then [BoolVal(input.checked)] else [];
    if Contains(tag, "bool") {
      assert input.CheckBox? && TextOf(input) == "";
      assert checked + [TextVal(TextOf(input))] == [BoolVal(input.checked), TextVal("")];
    } else {
      assert checked == [];
      if IsNumericTag(tag) {
        assert input.SpinBox?;
        assert checked + [NumVal(input.value)] == [NumVal(input.value)];
      } else {
        assert input.LineEdit?;
        assert checked + [TextVal(TextOf(input))] == [TextVal(input.text)];
      }
    }
  }

  /** The list `__getValsFromInput` returns, or the AttributeError it raises. */
  function InputVals(inputs: seq<Input>, fields: Schema): Result<seq<Value>>
    requires InputsFit(inputs, fields)
    decreases |inputs|
  {
    if |inputs| == 0 then Ok([])
    else
      var n := |inputs| - 1;
      match InputVals(inputs[..n], fields[..n])
      case Err(e) => Err(e)
      case Ok(prefix) =>
        match Contribution(inputs[n], fields[n].tag, n)
        case Err(e) => Err(e)
        case Ok(c) => Ok(prefix + c)
  }

  /** The number of fields whose tag contains "bool". */
  function BoolCount(fields: Schema): nat
  {
    if |fields| == 0 then 0
    else BoolCount(fields[..|fields| - 1]) + (if Contains(fields[|fields| - 1].tag, "bool") then 1 else 0)
  }

  /** Extraction raises exactly when some tag contains both "bool" and a numeric word; otherwise
      it yields one value per field plus one more per bool field. */
  lemma {:induction false} InputValsShape(inputs: seq<Input>, fields: Schema)
    requires InputsFit(inputs, fields)
    ensures InputVals(inputs, fields).Ok? <==>
              forall i :: 0 <= i < |fields| ==> !(Contains(fields[i].tag, "bool") && IsNumericTag(fields[i].tag))
    ensures InputVals(inputs, fields).Ok? ==> |InputVals(inputs, fields).value| == |fields| + BoolCount(fields)
    decreases |inputs|
  {
    if |inputs| > 0 {
      var n := |inputs| - 1;
      InputValsShape(inputs[..n], fields[..n]);
      ContributionShape(inputs[n], fields[n].tag, n);
      assert forall i :: 0 <= i < n ==> fields[..n][i] == fields[i];
    }
  }

  /** Once a prefix raises, the whole extraction raises with the same error. */
  lemma {:induction false} InputValsErrPersists(inputs: seq<Input>, fields: Schema, k: nat)
    requires InputsFit(inputs, fields) && k <= |inputs|
    requires InputVals(inputs[..k], fields[..k]).Err?
    ensures InputVals(inputs, fields) == InputVals(inputs[..k], fields[..k])
    decreases |inputs| - k
  {
    if k < |inputs| {
      var n := |inputs| - 1;
      assert inputs[..n][..k] == inputs[..k] && fields[..n][..k] == fields[..k];
      InputValsErrPersists(inputs[..n], fields[..n], k);
    } else {
      assert inputs[..k] == inputs && fields[..k] == fields;
    }
  }

  /** The prefix of the form yields a prefix of the values. */
  lemma {:induction false} InputValsPrefix(inputs: seq<Input>, fields: Schema, k: nat)
    requires InputsFit(inputs, fields) && k <= |inputs|
    requires InputVals(inputs, fields).Ok?
    ensures InputVals(inputs[..k], fields[..k]).Ok?
    ensures |InputVals(inputs[..k], fields[..k]).value| <= |InputVals(inputs, fields).value|
    ensures InputVals(inputs, fields).value[..|InputVals(inputs[..k], fields[..k]).value|] ==
              InputVals(inputs[..k], fields[..k]).value
    decreases |inputs| - k
  {
    if k < |inputs| {
      var n := |inputs| - 1;
      assert inputs[..n][..k] == inputs[..k] && fields[..n][..k] == fields[..k];
      InputValsPrefix(inputs[..n], fields[..n], k);
      var whole, front := InputVals(inputs, fields).value, InputVals(inputs[..n], fields[..n]).value;
      assert whole[..|front|] == front;
    } else {
      assert inputs[..k] == inputs && fields[..k] == fields;
    }
  }

  /** The one value an input of a non-bool field contributes. */
  function SingleValue(input: Input, tag: string): Value
  {
    if IsNumericTag(tag) && input.SpinBox? then NumVal(input.value) else TextVal(TextOf(input))
  }

  /** One more field without "bool" appends its single value. */
  lemma NoBoolStep(inputs: seq<Input>, fields: Schema)
    requires InputsFit(inputs, fields) && |inputs| > 0
    requires !Contains(fields[|inputs| - 1].tag, "bool")
    requires InputVals(inputs[..|inputs| - 1], fields[..|inputs| - 1]).Ok?
    ensures InputVals(inputs, fields) ==
              Ok(InputVals(inputs[..|inputs| - 1], fields[..|inputs| - 1]).value +
                 [SingleValue(inputs[|inputs| - 1], fields[|inputs| - 1].tag)])
  {
    var n := |inputs| - 1;
    ContributionShape(inputs[n], fields[n].tag, n);
  }

  /** Without bool fields the values line up with the fields: value `c` is read from input `c`. */
  lemma {:induction false} NoBoolAligned(inputs: seq<Input>, fields: Schema)
    requires InputsFit(inputs, fields)
    requires forall i :: 0 <= i < |fields| ==> !Contains(fields[i].tag, "bool")
    ensures InputVals(inputs, fields).Ok?
    ensures |InputVals(inputs, fields).value| == |fields|
    ensures forall c :: 0 <= c < |fields| ==> InputVals(inputs, fields).value[c] == SingleValue(inputs[c], fields[c].tag)
    decreases |inputs|
  {
    if |inputs| > 0 {
      var n := |inputs| - 1;
      assert forall i :: 0 <= i < n ==> fields[..n][i] == fields[i] && inputs[..n][i] == inputs[i];
      NoBoolAligned(inputs[..n], fields[..n]);
      NoBoolStep(inputs, fields);
    }
  }

  /** A bool field in front shifts the rest: its check box yields two values, the second being
      the check box's empty text, which lands where the next field's value belongs. */
  lemma {:induction false} BoolFirstShifts(inputs: seq<Input>, fields: Schema)
    requires InputsFit(inputs, fields) && |fields| >= 2
    requires Contains(fields[0].tag, "bool") && !IsNumericTag(fields[0].tag)
    requires InputVals(inputs, fields).Ok?
    ensures |InputVals(inputs, fields).value| >= 2
    ensures InputVals(inputs, fields).value[..2] == [BoolVal(inputs[0].checked), TextVal("")]
  {
    InputValsPrefix(inputs, fields, 1);
    ContributionShape(inputs[0], fields[0].tag, 0);
    var one := InputVals(inputs[..1], fields[..1]);
    var i1, f1 := inputs[..1], fields[..1];
    assert i1[..0] == [] && f1[..0] == [];
    assert InputVals(i1[..0], f1[..0]) == Ok([]);
    assert |i1| == 1 && i1[0] == inputs[0] && f1[0] == fields[0];
    var two := [BoolVal(inputs[0].checked), TextVal("")];
    assert [] + two == two;
    assert Contribution(i1[0], f1[0].tag, 0) == Ok([BoolVal(inputs[0].checked), TextVal("")]);
    assert one == Ok([BoolVal(inputs[0].checked), TextVal("")]);
  }

  /** `__getValsFromInput`: the list it builds by `append`, field by field. */
  method ValsFromInputs(inputs: seq<Input>, fields: Schema) returns (r: Result<seq<Value>>)
    requires InputsFit(inputs, fields)
    ensures r == InputVals(inputs, fields)
  {
    var vals: seq<Value> := [];
    var i := 0;
    while i < |inputs|
      invariant 0 <= i <= |inputs|
      invariant InputVals(inputs[..i], fields[..i]) == Ok(vals)
    {
      var input, tag := inputs[i], fields[i].tag;
      assert inputs[..i + 1][..i] == inputs[..i] && fields[..i + 1][..i] == fields[..i];
      assert inputs[..i + 1][i] == input && fields[..i + 1][i].tag == tag;
      ContributionShape(input, tag, i);
      ghost var prev, c := vals, Contribution(input, tag, i);
      if Contains(tag, "bool") {
        vals := vals + [BoolVal(input.checked)];
      }
      if Contains(tag, "unsigned") || Contains(tag, "int") {
        if !input.SpinBox? {
          InputValsErrPersists(inputs, fields, i + 1);
          return Err(NoValueMethod(i));
        }
        vals := vals + [NumVal(input.value)];
      } else {
        vals := vals + [TextVal(TextOf(input))];
      }
      assert c.Ok? && vals == prev + c.value;
      assert InputVals(inputs[..i + 1], fields[..i + 1]) == Ok(prev + c.value);
      i := i + 1;
    }
    assert inputs[..i] == inputs && fields[..i] == fields;
    r := Ok(vals);
  }

  /** What `__clearInputs` does to one input: a check box is unchecked, any other input has its
      text cleared. */
  function ClearOne(input: Input): Input
  {
    match input
    case CheckBox(_) => CheckBox(false)
    case SpinBox(lo, hi, v, _) => SpinBox(lo, hi, v, "")
    case LineEdit(_) => LineEdit("")
  }

  function Cleared(inputs: seq<Input>): (r: seq<Input>)
    ensures |r| == |inputs|
  {
    seq(|inputs|, i requires 0 <= i < |inputs| => ClearOne(inputs[i]))
  }

  /** Clearing keeps every input's widget kind and is idempotent. */
  lemma ClearedKeepsKinds(inputs: seq<Input>, fields: Schema)
    requires InputsFit(inputs, fields)
    ensures InputsFit(Cleared(inputs), fields)
    ensures Cleared(Cleared(inputs)) == Cleared(inputs)
  {
    assert forall i :: 0 <= i < |inputs| ==> WidgetOf(ClearOne(inputs[i])) == WidgetOf(inputs[i]);
  }

  /** After clearing, only the fields tagged exactly "bool" pass the built-in check, so a second
      "Add" without typing anything is refused unless every tag is exactly "bool". */
  lemma ClearedFormIsBlank(inputs: seq<Input>, fields: Schema)
    requires InputsFit(inputs, fields)
    ensures forall i :: 0 <= i < |fields| ==> (Filled(Cleared(inputs), fields, i) <==> fields[i].tag == "bool")
    ensures FirstBlank(Cleared(inputs), fields).None? <==> forall i :: 0 <= i < |fields| ==> fields[i].tag == "bool"
  {
    var c := Cleared(inputs);
    forall i | 0 <= i < |fields| ensures TextOf(c[i]) == "" {
    }
    assert Strip("") == "";
    FirstBlankSpec(c, fields);
  }
}

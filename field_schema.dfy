/** The field schema (an ordered mapping from field title to a free-form type tag) and the
    dispatch from a tag to the kind of input widget that edits it. */
module FieldSchema {

  /** One entry of the `fields` dictionary, in insertion order. */
  datatype Field = Field(title: string, tag: string)

  type Schema = seq<Field>

  predicate StartsWith(s: string, prefix: string)
  {
    |prefix| <= |s| && s[..|prefix|] == prefix
  }

  /** Python's `sub in s` on strings. */
  predicate Contains(s: string, sub: string)
    decreases |s|
  {
    StartsWith(s, sub) || (|s| > 0 && Contains(s[1..], sub))
  }

  /** `sub` occurs in `s` at position `i`. */
  predicate OccursAt(s: string, sub: string, i: int)
  {
    0 <= i <= |s| - |sub| && s[i..i + |sub|] == sub
  }

  lemma OccursInTail(s: string, sub: string, i: int)
    requires 0 < i && OccursAt(s, sub, i)
    ensures OccursAt(s[1..], sub, i - 1)
  {
    assert 0 < i <= |s| - |sub|;
    assert s[1..][i - 1..i - 1 + |sub|] == s[i..i + |sub|];
  }

  /** `Contains` agrees with the positional definition of a substring. */
  lemma {:induction false} ContainsAt(s: string, sub: string)
    ensures Contains(s, sub) <==> exists i :: OccursAt(s, sub, i)
    decreases |s|
  {
    if StartsWith(s, sub) {
      assert OccursAt(s, sub, 0);
    } else if |s| > 0 {
      ContainsAt(s[1..], sub);
      if Contains(s[1..], sub) {
        var j :| OccursAt(s[1..], sub, j);
        assert s[j + 1..j + 1 + |sub|] == s[1..][j..j + |sub|];
        assert OccursAt(s, sub, j + 1);
      } else {
        forall i | OccursAt(s, sub, i) ensures false {
          if i > 0 {
            OccursInTail(s, sub, i);
          }
        }
      }
    } else {
      assert forall i :: !OccursAt(s, sub, i);
    }
  }

  /** A string that lacks one of the characters of `sub` does not contain `sub`. */
  lemma {:induction false} MissingCharNotContained(s: string, sub: string, k: nat)
    requires k < |sub|
    requires forall i :: 0 <= i < |s| ==> s[i] != sub[k]
    ensures !Contains(s, sub)
    decreases |s|
  {
    if |sub| <= |s| {
      assert s[..|sub|][k] != sub[k];
    }
    if |s| > 0 {
      MissingCharNotContained(s[1..], sub, k);
    }
  }

  /** The closed set of kinds the free-form tags are sorted into. */
  datatype FieldKind = BoolKind | IntKind | UnsignedKind | TextKind

  /** The `if`/`elif` chain of `__getInputFieldByType`: "bool", then "int", then "unsigned". */
  function KindOf(tag: string): FieldKind
  {
    if Contains(tag, "bool") then BoolKind
    else if Contains(tag, "int") then IntKind
    else if Contains(tag, "unsigned") then UnsignedKind
    else TextKind
  }

  /** The numeric test of `__convertToVals` and `__getValsFromInput`. */
  predicate IsNumericTag(tag: string)
  {
    Contains(tag, "unsigned") || Contains(tag, "int")
  }

  const Int64Min: int := -0x8000_0000_0000_0000
  const Int64Max: int := 0x7FFF_FFFF_FFFF_FFFF

  /** The kind of widget, with its range for spin boxes (decimals are always 0). */
  datatype Widget = CheckBoxWidget | SpinBoxWidget(min: int, max: int) | LineEditWidget

  /** The widget `__getInputFieldByType` creates for a tag. An "unsigned" spin box only has its
      maximum set, so its minimum stays at the spin box default of 0. */
  function WidgetFor(tag: string): (w: Widget)
    ensures w.SpinBoxWidget? ==> w.min <= 0 < w.max == Int64Max
  {
    match KindOf(tag)
    case BoolKind => CheckBoxWidget
    case IntKind => SpinBoxWidget(Int64Min, Int64Max)
    case UnsignedKind => SpinBoxWidget(0, Int64Max)
    case TextKind => LineEditWidget
  }

  /** Outside the "bool" case, the widget test and the value test agree: exactly the numeric tags
      get a spin box. A tag with both "bool" and a numeric word gets a check box. */
  lemma WidgetMatchesValueTest(tag: string)
    ensures WidgetFor(tag).CheckBoxWidget? <==> Contains(tag, "bool")
    ensures !Contains(tag, "bool") ==> (WidgetFor(tag).SpinBoxWidget? <==> IsNumericTag(tag))
    ensures WidgetFor(tag).LineEditWidget? <==> !Contains(tag, "bool") && !IsNumericTag(tag)
  {
  }

  /** Precedence on concrete tags: "bool" beats "int", and any other tag, the empty one
      included, falls back to a text field. */
  lemma BoolAndTextDispatch()
    ensures WidgetFor("bool") == CheckBoxWidget
    ensures WidgetFor("boolint") == CheckBoxWidget
    ensures WidgetFor("") == LineEditWidget
    ensures WidgetFor("text") == LineEditWidget
  {
    MissingCharNotContained("text", "bool", 0);
    MissingCharNotContained("text", "int", 1);
    MissingCharNotContained("text", "unsigned", 0);
  }

  /** "int" contains no "bool", so it gets the signed 64-bit range. */
  lemma NumericDispatch()
    ensures WidgetFor("int") == SpinBoxWidget(-0x8000_0000_0000_0000, 0x7FFF_FFFF_FFFF_FFFF)
  {
    MissingCharNotContained("int", "bool", 0);
  }

  /** "unsigned" contains neither "bool" nor "int", so it gets the unsigned range. */
  lemma UnsignedDispatch()
    ensures WidgetFor("unsigned") == SpinBoxWidget(0, 0x7FFF_FFFF_FFFF_FFFF)
  {
    MissingCharNotContained("unsigned", "bool", 0);
    MissingCharNotContained("unsigned", "int", 2);
    assert StartsWith("unsigned", "unsigned");
  }

  /** "int" is tested before "unsigned" and by substring, so "uint" and even "point" get the
      signed range. */
  lemma IntTestedFirst()
    ensures WidgetFor("uint") == SpinBoxWidget(-0x8000_0000_0000_0000, 0x7FFF_FFFF_FFFF_FFFF)
    ensures WidgetFor("point") == SpinBoxWidget(-0x8000_0000_0000_0000, 0x7FFF_FFFF_FFFF_FFFF)
  {
    MissingCharNotContained("uint", "bool", 0);
    MissingCharNotContained("point", "bool", 0);
    assert StartsWith("uint"[1..], "int");
    assert StartsWith("point"[2..], "int");
  }
}

/** Decoding the flat list of initial-data strings into typed cells, column by column. */
module ValueCodec {
  import opened Results
  import opened FieldSchema

  /** A cell value: a Python bool, a float (from `float(value)` or a spin box), or a str. */
  datatype Value = BoolVal(b: bool) | NumVal(x: real) | TextVal(s: string)

  // Case mapping, for ASCII letters and the Cyrillic block U+0400..U+045F.

  predicate IsUpperLetter(c: char)
  {
    'A' <= c <= 'Z' || '\U{0400}' <= c <= '\U{042F}'
  }

  function Upper(c: char): char
  {
    if 'a' <= c <= 'z' || '\U{0430}' <= c <= '\U{044F}' then (c as int - 32) as char
    else if '\U{0450}' <= c <= '\U{045F}' then (c as int - 80) as char
    else c
  }

  function Lower(c: char): (l: char)
    ensures !IsUpperLetter(l)
  {
    if 'A' <= c <= 'Z' || '\U{0410}' <= c <= '\U{042F}' then (c as int + 32) as char
    else if '\U{0400}' <= c <= '\U{040F}' then (c as int + 80) as char
    else c
  }

  /** Python's `str.capitalize`: the first character upper-cased, every other one lower-cased. */
  function Capitalize(s: string): (r: string)
    ensures |r| == |s|
    ensures |s| > 0 ==> r[0] == Upper(s[0])
    ensures forall i :: 1 <= i < |s| ==> r[i] == Lower(s[i])
  {
    if |s| == 0 then s
    else [Upper(s[0])] + seq(|s| - 1, i requires 0 <= i < |s| - 1 => Lower(s[i + 1]))
  }

  /** The strings `__convertToVals` looks `value.capitalize()` up in. */
  const BoolFalseStr: seq<string> :=
    ["0", "FALSE", "NONE", "N", "NO", "NEGATIVE", "NOPE", "NAN", "NINE",
     "\U{041D}\U{0415}\U{0422}", "\U{041D}", "\U{041B}\U{041E}\U{0416}\U{042C}"]

  predicate IsFalseToken(raw: string)
  {
    Capitalize(raw) in BoolFalseStr
  }

  /** Every entry of `BoolFalseStr` longer than one character has an upper-case second letter,
      which no capitalized string has, so those entries never match. */
  lemma LongTokensNeverFalse(raw: string)
    requires |raw| >= 2
    ensures !IsFalseToken(raw)
  {
    var c := Capitalize(raw);
    assert !IsUpperLetter(c[1]);
    forall t | t in BoolFalseStr && |t| >= 2 ensures IsUpperLetter(t[1]) {
    }
  }

  /** The tokens that decode to False are exactly "0", "N", "n", "Н" and "н". */
  lemma FalseTokenExactly(raw: string)
    ensures IsFalseToken(raw) <==> raw in ["0", "N", "n", "\U{041D}", "\U{043D}"]
  {
    if |raw| >= 2 {
      LongTokensNeverFalse(raw);
    } else if |raw| == 1 {
      var u := Upper(raw[0]);
      assert Capitalize(raw) == [u];
      assert [u] in BoolFalseStr <==> u == '0' || u == 'N' || u == '\U{041D}';
      assert u == '0' <==> raw[0] == '0';
      assert u == 'N' <==> raw[0] == 'N' || raw[0] == 'n';
      assert u == '\U{041D}' <==> raw[0] == '\U{041D}' || raw[0] == '\U{043D}';
      assert raw == [raw[0]];
    } else {
      assert Capitalize(raw) == "";
    }
  }

  /** "n" decodes to False, while "no", "FALSE" and the empty string do not. */
  lemma FalseTokenExamples()
    ensures IsFalseToken("0") && IsFalseToken("n") && IsFalseToken("N")
  {
    FalseTokenExactly("0");
    FalseTokenExactly("n");
    FalseTokenExactly("N");
  }

  /** Words of the denylist, in any case, and strings outside it decode as true. */
  lemma TrueTokenExamples()
    ensures !IsFalseToken("no") && !IsFalseToken("FALSE") && !IsFalseToken("") && !IsFalseToken("2")
  {
    LongTokensNeverFalse("no");
    LongTokensNeverFalse("FALSE");
    FalseTokenExactly("");
    FalseTokenExactly("2");
  }

  /** One cell of `__convertToVals`: "bool" tags by the false-token test, "unsigned" and "int"
      tags through `float` (the abstract `parse`, whose `None` is a ValueError), the rest kept. */
  function DecodeCell(tag: string, raw: string, parse: string -> Option<real>): Result<Value>
  {
    if Contains(tag, "bool") then Ok(BoolVal(!IsFalseToken(raw)))
    else if IsNumericTag(tag) then
      match parse(raw)
      case Some(x) => Ok(NumVal(x))
      case None => Err(NotANumber(raw))
    else Ok(TextVal(raw))
  }

  /** The decoded cell follows the field's kind: a bool for the bool kind, a number (or the parse
      error) for the int and unsigned kinds, and the raw string unchanged for text. */
  lemma DecodeByKind(tag: string, raw: string, parse: string -> Option<real>)
    ensures KindOf(tag) == BoolKind ==>
      DecodeCell(tag, raw, parse) == Ok(BoolVal(raw !in ["0", "N", "n", "\U{041D}", "\U{043D}"]))
    ensures (KindOf(tag) == IntKind || KindOf(tag) == UnsignedKind) ==>
      DecodeCell(tag, raw, parse) == (if parse(raw).Some? then Ok(NumVal(parse(raw).value)) else Err(NotANumber(raw)))
    ensures KindOf(tag) == TextKind ==> DecodeCell(tag, raw, parse) == Ok(TextVal(raw))
  {
    FalseTokenExactly(raw);
  }

  /** The type tag of the field that decodes element `k`: `fields[keys[k % len(fields)]]`. */
  function ColumnTag(fields: Schema, k: nat): string
    requires |fields| > 0
  {
    fields[k % |fields|].tag
  }

  /** `__convertToVals` returns instead of raising. */
  predicate Decodable(data: seq<string>, fields: Schema, parse: string -> Option<real>)
  {
    |data| == 0 ||
    (|fields| > 0 && forall k :: 0 <= k < |data| ==> DecodeCell(ColumnTag(fields, k), data[k], parse).Ok?)
  }

  /** What `__convertToVals` returns when it does not raise. */
  function Decoded(data: seq<string>, fields: Schema, parse: string -> Option<real>): (vals: seq<Value>)
    requires Decodable(data, fields, parse)
    ensures |vals| == |data|
  {
    if |data| == 0 then []
    else seq(|data|, k requires 0 <= k < |data| => DecodeCell(ColumnTag(fields, k), data[k], parse).value)
  }

  /** `__convertToVals`: one value per element of `data`, element `k` decoded with the type of
      field `k % len(fields)`. The `i <= len(data)` guard never reaches its `break`. It raises at
      the first element that does not decode, or at once for an empty schema and non-empty data. */
  method ConvertToVals(data: seq<string>, fields: Schema, parse: string -> Option<real>)
    returns (r: Result<seq<Value>>)
    ensures r.Ok? <==> Decodable(data, fields, parse)
    ensures r.Ok? ==> |r.value| == |data| && r.value == Decoded(data, fields, parse)
    ensures r.Ok? ==> forall k :: 0 <= k < |data| ==> DecodeCell(ColumnTag(fields, k), data[k], parse) == Ok(r.value[k])
    ensures r.Err? && |fields| == 0 ==> r.error == NoColumns
    ensures r.Err? && |fields| > 0 ==>
      exists k :: 0 <= k < |data| && DecodeCell(ColumnTag(fields, k), data[k], parse) == Err(r.error) &&
        forall j :: 0 <= j < k ==> DecodeCell(ColumnTag(fields, j), data[j], parse).Ok?
  {
    var vals: seq<Value> := [];
    var i := 0;
    var n := 0;
    while n < |data|
      invariant 0 <= n <= |data| && i == n && |vals| == n
      invariant n > 0 ==> |fields| > 0
      invariant forall k :: 0 <= k < n ==> DecodeCell(ColumnTag(fields, k), data[k], parse) == Ok(vals[k])
    {
      var value := data[n];
      if |fields| == 0 {
        return Err(NoColumns);
      }
      var tag := fields[i % |fields|].tag;
      ghost var prev, cell := vals, DecodeCell(ColumnTag(fields, n), value, parse);
      if Contains(tag, "bool") {
        // `value.capitalize() in BoolFalseStr`
        if IsFalseToken(value) {
          vals := vals + [BoolVal(false)];
        } else {
          vals := vals + [BoolVal(true)];
        }
      } else if Contains(tag, "unsigned") || Contains(tag, "int") {
        var x := parse(value);
        if x.None? {
          assert cell == Err(NotANumber(value));
          return Err(NotANumber(value));
        }
        vals := vals + [NumVal(x.value)];
      } else {
        vals := vals + [TextVal(value)];
      }
      assert cell.Ok? && vals == prev + [cell.value];
      if i <= |data| {
        i := i + 1;
      } else {
        break;
      }
      n := n + 1;
    }
    assert Decodable(data, fields, parse);
    assert vals == Decoded(data, fields, parse) by {
      if |data| > 0 {
        var d := Decoded(data, fields, parse);
        assert forall k :: 0 <= k < |data| ==> d[k] == vals[k];
      }
    }
    r := Ok(vals);
  }

  /** With only numeric columns, every cell goes through `float`, so the data decodes exactly
      when every element parses. */
  lemma NumericColumns(data: seq<string>, fields: Schema, parse: string -> Option<real>)
    requires |fields| > 0 && forall f :: f in fields ==> KindOf(f.tag) == IntKind || KindOf(f.tag) == UnsignedKind
    requires forall k :: 0 <= k < |data| ==> parse(data[k]).Some?
    ensures Decodable(data, fields, parse)
    ensures forall k :: 0 <= k < |data| ==> Decoded(data, fields, parse)[k] == NumVal(parse(data[k]).value)
  {
    forall k | 0 <= k < |data| ensures DecodeCell(ColumnTag(fields, k), data[k], parse) == Ok(NumVal(parse(data[k]).value)) {
      assert fields[k % |fields|] in fields;
      DecodeByKind(ColumnTag(fields, k), data[k], parse);
    }
  }

  /** The first demonstration panel: three numeric columns and six cells, which `float` reads
      as 1.0 to 6.0. */
  lemma PrimaryExample(data: seq<string>, fields: Schema, parse: string -> Option<real>)
    requires fields == [Field("id", "int"), Field("summ", "int"), Field("priority", "unsigned")]
    requires data == ["1", "2", "3", "4", "5", "6"]
    requires parse(data[0]) == Some(1.0) && parse(data[1]) == Some(2.0) && parse(data[2]) == Some(3.0)
    requires parse(data[3]) == Some(4.0) && parse(data[4]) == Some(5.0) && parse(data[5]) == Some(6.0)
    ensures Decodable(data, fields, parse)
    ensures Decoded(data, fields, parse) == [NumVal(1.0), NumVal(2.0), NumVal(3.0), NumVal(4.0), NumVal(5.0), NumVal(6.0)]
  {
    PrimaryCells(data, fields, parse);
    var d := Decoded(data, fields, parse);
    var want := [NumVal(1.0), NumVal(2.0), NumVal(3.0), NumVal(4.0), NumVal(5.0), NumVal(6.0)];
    forall k | 0 <= k < 6 ensures d[k] == want[k] {
      assert k == 0 || k == 1 || k == 2 || k == 3 || k == 4 || k == 5;
    }
    assert d == want;
  }

  lemma PrimaryCells(data: seq<string>, fields: Schema, parse: string -> Option<real>)
    requires fields == [Field("id", "int"), Field("summ", "int"), Field("priority", "unsigned")]
    requires |data| == 6 && forall k :: 0 <= k < 6 ==> parse(data[k]).Some?
    ensures Decodable(data, fields, parse) && |Decoded(data, fields, parse)| == 6
    ensures forall k :: 0 <= k < 6 ==> Decoded(data, fields, parse)[k] == NumVal(parse(data[k]).value)
  {
    NumericDispatch();
    UnsignedDispatch();
    NumericColumns(data, fields, parse);
  }

  /** A text column followed by a bool column: even elements stay strings, odd ones are
      decoded by the false-token test. */
  lemma TextThenBoolColumns(data: seq<string>, fields: Schema, parse: string -> Option<real>)
    requires |fields| == 2 && KindOf(fields[0].tag) == TextKind && KindOf(fields[1].tag) == BoolKind
    ensures Decodable(data, fields, parse)
    ensures forall k :: 0 <= k < |data| ==>
              Decoded(data, fields, parse)[k] ==
                (if k % 2 == 0 then TextVal(data[k]) else BoolVal(!IsFalseToken(data[k])))
  {
    forall k | 0 <= k < |data|
      ensures DecodeCell(ColumnTag(fields, k), data[k], parse) ==
                Ok(if k % 2 == 0 then TextVal(data[k]) else BoolVal(!IsFalseToken(data[k])))
    {
      DecodeByKind(ColumnTag(fields, k), data[k], parse);
    }
  }

  /** The second demonstration panel: a text column and a bool column; "0" decodes to False and
      "2" to True. */
  lemma NotesExample(fields: Schema, data: seq<string>, parse: string -> Option<real>)
    requires fields == [Field("Name", ""), Field("Checked", "bool")]
    requires data == ["1", "2", "3", "0"]
    ensures Decodable(data, fields, parse)
    ensures |Decoded(data, fields, parse)| == 4
    ensures Decoded(data, fields, parse)[0] == TextVal("1") && Decoded(data, fields, parse)[1] == BoolVal(true)
    ensures Decoded(data, fields, parse)[2] == TextVal("3") && Decoded(data, fields, parse)[3] == BoolVal(false)
  {
    NotesKinds(fields);
    NotesTokens(data);
    TextThenBoolColumns(data, fields, parse);
  }

  lemma NotesKinds(fields: Schema)
    requires fields == [Field("Name", ""), Field("Checked", "bool")]
    ensures |fields| == 2 && KindOf(fields[0].tag) == TextKind && KindOf(fields[1].tag) == BoolKind
  {
    BoolAndTextDispatch();
  }

  lemma NotesTokens(data: seq<string>)
    requires data == ["1", "2", "3", "0"]
    ensures |data| == 4 && data[0] == "1" && data[2] == "3"
    ensures !IsFalseToken(data[1]) && IsFalseToken(data[3])
  {
    FalseTokenExamples();
    TrueTokenExamples();
    assert data[1] == "2" && data[3] == "0";
  }
}

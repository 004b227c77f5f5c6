/**
 * The request gate and the feedback of the air-quality scoring service's
 * `POST /predict`: model presence, the required-field scan, conversion of the
 * four values, the range validation, the label-to-score and label-to-icon
 * tables, the confidence and the five feedback lines.  The classifier itself
 * (scaler, random forest) is a parameter.
 */
module MlApi {
  import opened Wrappers
  import Strings = Text

  /** The request fields, in the order the service scans them. */
  const Fields: seq<string> := ["suhu", "kelembapan", "tekanan", "kecepatan_angin"]

  /** A closed interval. */
  datatype Range = Range(min: real, max: real)

  predicate Within(x: real, r: Range) { r.min <= x <= r.max }

  /** The bounds `get_feedback` tests, in field order. */
  const FeedbackRanges: seq<Range> :=
    [Range(-20.0, 40.0), Range(-40.0, 30.0), Range(990.0, 1045.0), Range(0.0, 15.0)]

  /** `VALID_RANGES`, in field order. */
  const ValidRanges: seq<Range> :=
    [Range(-20.0, 40.0), Range(-40.0, 30.0), Range(990.0, 1045.0), Range(0.0, 15.0)]

  /** One feedback line: the pass or fail line of a field, or the line for the predicted label. */
  datatype FeedbackLine = PassLine(field: nat) | FailLine(field: nat) | LabelLine(kualitas: string)

  /** The mark a line opens with: a tick, a cross, or a warning sign for "Sedang". */
  function Mark(line: FeedbackLine): char {
    match line
    case PassLine(_) => '✓'
    case FailLine(_) => '✗'
    case LabelLine(q) => if q == "Baik" then '✓' else if q == "Sedang" then '⚠' else '✗'
  }

  /** The text of a feedback line. */
  function Text(line: FeedbackLine): (s: string)
    ensures |s| > 2 && s[0] == Mark(line) && s[1] == ' '
  {
    match line
    case PassLine(k) =>
      if k == 0 then "✓ " + "Suhu dalam rentang normal untuk Beijing"
      else if k == 1 then "✓ " + "Titik embun (kelembapan) dalam rentang normal"
      else if k == 2 then "✓ " + "Tekanan udara dalam rentang normal"
      else "✓ " + "Kecepatan angin dalam rentang normal"
    case FailLine(k) =>
      if k == 0 then "✗ " + "Suhu di luar rentang normal dataset"
      else if k == 1 then "✗ " + "Titik embun di luar rentang normal dataset"
      else if k == 2 then "✗ " + "Tekanan udara di luar rentang normal dataset"
      else "✗ " + "Kecepatan angin di luar rentang normal dataset"
    case LabelLine(q) =>
      if q == "Baik" then "✓ " + "Kondisi cuaca mendukung kualitas udara baik"
      else if q == "Sedang" then "⚠ " + "Kondisi cuaca menghasilkan kualitas udara sedang"
      else "✗ " + "Kondisi cuaca menghasilkan kualitas udara buruk"
  }

  /** Value `k` of the four, in field order. */
  function Value(k: int, suhu: real, kelembapan: real, tekanan: real, kecepatanAngin: real): real {
    if k == 0 then suhu else if k == 1 then kelembapan else if k == 2 then tekanan else kecepatanAngin
  }

  /**
   * The lines `get_feedback` produces: one per value in field order, which is
   * the pass line of that field exactly when the value is inside its bound,
   * then the line for the label.
   */
  function FeedbackFor(suhu: real, kelembapan: real, tekanan: real, kecepatanAngin: real, kualitas: string)
    : (feedback: seq<FeedbackLine>)
    ensures |feedback| == 5
    ensures forall k :: 0 <= k < 4 ==>
      && (feedback[k].PassLine? || feedback[k].FailLine?) && feedback[k].field == k
      && (Mark(feedback[k]) == '✓' <==> Within(Value(k, suhu, kelembapan, tekanan, kecepatanAngin), FeedbackRanges[k]))
    ensures feedback[4] == LabelLine(kualitas)
  {
    [ if -20.0 <= suhu <= 40.0 then PassLine(0) else FailLine(0),
      if -40.0 <= kelembapan <= 30.0 then PassLine(1) else FailLine(1),
      if 990.0 <= tekanan <= 1045.0 then PassLine(2) else FailLine(2),
      if 0.0 <= kecepatanAngin <= 15.0 then PassLine(3) else FailLine(3),
      LabelLine(kualitas) ]
  }

  /** `get_feedback`, appending one line per check. */
  method GetFeedback(suhu: real, kelembapan: real, tekanan: real, kecepatanAngin: real, kualitas: string)
    returns (feedback: seq<FeedbackLine>)
    ensures feedback == FeedbackFor(suhu, kelembapan, tekanan, kecepatanAngin, kualitas)
  {
    feedback := [];
    if -20.0 <= suhu <= 40.0 {
      feedback := feedback + [PassLine(0)];
    } else {
      feedback := feedback + [FailLine(0)];
    }
    if -40.0 <= kelembapan <= 30.0 {
      feedback := feedback + [PassLine(1)];
    } else {
      feedback := feedback + [FailLine(1)];
    }
    if 990.0 <= tekanan <= 1045.0 {
      feedback := feedback + [PassLine(2)];
    } else {
      feedback := feedback + [FailLine(2)];
    }
    if 0.0 <= kecepatanAngin <= 15.0 {
      feedback := feedback + [PassLine(3)];
    } else {
      feedback := feedback + [FailLine(3)];
    }
    feedback := feedback + [LabelLine(kualitas)];
  }

  /**
   * The request body as `request.get_json()` returns it, reduced to what
   * `field in data` looks at: an object's member names, the string elements
   * of an array, the text of a string. `JsonOther` is null, a number or a
   * boolean, on which `in` raises TypeError, and also a body `get_json`
   * itself refuses with an exception.
   */
  datatype RequestBody<V> =
    | JsonObject(members: map<string, V>)
    | JsonArray(strings: set<string>)
    | JsonString(text: string)
    | JsonOther

  /** `field in data` for a body on which `in` does not raise: a key, an element, or a substring. */
  predicate Has<V>(body: RequestBody<V>, field: string)
    requires !body.JsonOther?
  {
    match body
    case JsonObject(members) => field in members
    case JsonArray(strings) => field in strings
    case JsonString(text) => Strings.Includes(text, field)
  }

  /**
   * The required-field loop: the first field, in field order, that the
   * request body lacks, or None when all four are there.
   */
  method FirstMissing<V>(body: RequestBody<V>) returns (missing: Option<string>)
    requires !body.JsonOther?
    ensures missing.None? <==> forall k :: 0 <= k < |Fields| ==> Has(body, Fields[k])
    ensures missing.Some? ==>
      exists k :: 0 <= k < |Fields| && missing.value == Fields[k] &&
        !Has(body, Fields[k]) && forall j :: 0 <= j < k ==> Has(body, Fields[j])
  {
    var k := 0;
    while k < |Fields|
      invariant 0 <= k <= |Fields|
      invariant forall j :: 0 <= j < k ==> Has(body, Fields[j])
    {
      if !Has(body, Fields[k]) {
        return Some(Fields[k]);
      }
      k := k + 1;
    }
    return None;
  }

  /**
   * One entry of `validation_errors`: the field, by its position in `Fields`
   * (the response carries the name `Fields[field]`), and the value it got.
   * The message is `RangeMessage(field)` followed by that value and its unit.
   * A field that is not finite is entered with the value 0.0: the model does
   * not keep the `nan` or `inf` the service's message quotes.
   */
  datatype FieldError = FieldError(field: nat, value: real)

  /** The fixed part of field `k`'s range message (the service appends the value it got and the field's unit). */
  function RangeMessage(k: int): string {
    if k == 0 then "Suhu harus antara -20°C sampai 40°C. Nilai Anda: "
    else if k == 1 then "Titik Embun harus antara -40 sampai 30. Nilai Anda: "
    else if k == 2 then "Tekanan Udara harus antara 990mb sampai 1045mb. Nilai Anda: "
    else "Kecepatan Angin harus antara 0m/s sampai 15m/s. Nilai Anda: "
  }

  /** The fields a list of errors names, in order. */
  function FieldsOf(errors: seq<FieldError>): (fields: seq<nat>)
    ensures |fields| == |errors| && forall j :: 0 <= j < |errors| ==> fields[j] == errors[j].field
  {
    seq(|errors|, j requires 0 <= j < |errors| => errors[j].field)
  }

  lemma FieldsOfAppend(a: seq<FieldError>, b: seq<FieldError>)
    ensures FieldsOf(a + b) == FieldsOf(a) + FieldsOf(b)
  {
    assert forall j :: 0 <= j < |a| + |b| ==> FieldsOf(a + b)[j] == (FieldsOf(a) + FieldsOf(b))[j];
  }

  /** Value `k` is outside its range, or not finite. */
  predicate Invalid(values: seq<real>, finite: seq<bool>, k: int)
    requires |values| == 4 && |finite| == 4 && 0 <= k < 4
  {
    !(finite[k] && Within(values[k], ValidRanges[k]))
  }

  /** Which of the four values fail validation. */
  function InvalidFlags(values: seq<real>, finite: seq<bool>): (bad: seq<bool>)
    requires |values| == 4 && |finite| == 4
    ensures |bad| == 4 && forall k :: 0 <= k < 4 ==> bad[k] == Invalid(values, finite, k)
  {
    [Invalid(values, finite, 0), Invalid(values, finite, 1), Invalid(values, finite, 2), Invalid(values, finite, 3)]
  }

  /** The error for field `k` when it is flagged, none otherwise. */
  function ErrorFor(values: seq<real>, bad: seq<bool>, k: int): seq<FieldError>
    requires |values| == 4 && |bad| == 4 && 0 <= k < 4
  {
    if bad[k] then [FieldError(k, values[k])] else []
  }

  /** The errors for the flagged fields from `k` onwards, in field order. */
  function ErrorsFrom(values: seq<real>, bad: seq<bool>, k: nat): seq<FieldError>
    requires |values| == 4 && |bad| == 4 && k <= 4
    decreases 4 - k
  {
    if k == 4 then [] else ErrorFor(values, bad, k) + ErrorsFrom(values, bad, k + 1)
  }

  /** Each error names a field from `k` on and carries that field's value. */
  predicate NamesFieldsFrom(errors: seq<FieldError>, values: seq<real>, k: nat)
    requires |values| == 4
  {
    forall j :: 0 <= j < |errors| ==> k <= errors[j].field < 4 && errors[j].value == values[errors[j].field]
  }

  /** The fields the errors name strictly increase. */
  predicate Increasing(errors: seq<FieldError>) {
    forall j1, j2 :: 0 <= j1 < j2 < |errors| ==> errors[j1].field < errors[j2].field
  }

  /** Field `k`'s error, if any, put before errors of later fields keeps them ordered. */
  lemma ConsOrdered(values: seq<real>, k: nat, head: seq<FieldError>, tail: seq<FieldError>)
    requires |values| == 4 && k < 4
    requires head == [] || head == [FieldError(k, values[k])]
    requires NamesFieldsFrom(tail, values, k + 1) && Increasing(tail)
    ensures NamesFieldsFrom(head + tail, values, k)
    ensures Increasing(head + tail)
  {
    var errors := head + tail;
    forall j | 0 <= j < |errors|
      ensures k <= errors[j].field < 4 && errors[j].value == values[errors[j].field]
    {
      if j >= |head| {
        assert errors[j] == tail[j - |head|];
      }
    }
    forall j1, j2 | 0 <= j1 < j2 < |errors|
      ensures errors[j1].field < errors[j2].field
    {
      assert errors[j2] == tail[j2 - |head|];
      if j1 >= |head| {
        assert errors[j1] == tail[j1 - |head|];
      }
    }
  }

  /** Each error names a field from `k` on and carries its value, and the fields strictly increase. */
  lemma {:induction false} ErrorsFromOrdered(values: seq<real>, bad: seq<bool>, k: nat)
    requires |values| == 4 && |bad| == 4 && k <= 4
    ensures NamesFieldsFrom(ErrorsFrom(values, bad, k), values, k)
    ensures Increasing(ErrorsFrom(values, bad, k))
    decreases 4 - k
  {
    if k < 4 {
      ErrorsFromOrdered(values, bad, k + 1);
      ConsOrdered(values, k, ErrorFor(values, bad, k), ErrorsFrom(values, bad, k + 1));
    }
  }

  /** Field `k`'s error, if any, put before the errors of the later fields names exactly the flagged fields. */
  lemma ConsFields(values: seq<real>, bad: seq<bool>, k: nat, tail: seq<FieldError>)
    requires |values| == 4 && |bad| == 4 && k < 4
    requires forall f :: k + 1 <= f < 4 ==> (f in FieldsOf(tail) <==> bad[f])
    requires forall f :: f in FieldsOf(tail) ==> k + 1 <= f < 4
    ensures forall f :: k <= f < 4 ==> (f in FieldsOf(ErrorFor(values, bad, k) + tail) <==> bad[f])
    ensures forall f :: f in FieldsOf(ErrorFor(values, bad, k) + tail) ==> k <= f < 4
  {
    var head := ErrorFor(values, bad, k);
    FieldsOfAppend(head, tail);
    assert FieldsOf(head) == if bad[k] then [k] else [];
  }

  /** A field from `k` on is named by an error exactly when it is flagged. */
  lemma {:induction false} ErrorsFromComplete(values: seq<real>, bad: seq<bool>, k: nat)
    requires |values| == 4 && |bad| == 4 && k <= 4
    ensures forall f :: k <= f < 4 ==> (f in FieldsOf(ErrorsFrom(values, bad, k)) <==> bad[f])
    ensures forall f :: f in FieldsOf(ErrorsFrom(values, bad, k)) ==> k <= f < 4
    decreases 4 - k
  {
    if k < 4 {
      ErrorsFromComplete(values, bad, k + 1);
      ConsFields(values, bad, k, ErrorsFrom(values, bad, k + 1));
    }
  }

  /** No error from `k` on exactly when no field from `k` on is flagged. */
  lemma {:induction false} ErrorsFromEmpty(values: seq<real>, bad: seq<bool>, k: nat)
    requires |values| == 4 && |bad| == 4 && k <= 4
    ensures |ErrorsFrom(values, bad, k)| == 0 <==> forall f :: k <= f < 4 ==> !bad[f]
    decreases 4 - k
  {
    if k < 4 {
      ErrorsFromEmpty(values, bad, k + 1);
      assert |ErrorsFrom(values, bad, k)| == |ErrorFor(values, bad, k)| + |ErrorsFrom(values, bad, k + 1)|;
    }
  }

  /**
   * The errors the range validation reports: one per value outside its `VALID_RANGES`
   * interval, in field order. A value that is not finite (`nan`, `inf`) is
   * outside every interval, so `finite[k]` says whether value k is finite;
   * `values[k]` only matters when it is.
   */
  function ValidationErrorsOf(values: seq<real>, finite: seq<bool>): (errors: seq<FieldError>)
    requires |values| == 4 && |finite| == 4
    ensures forall j :: 0 <= j < |errors| ==>
      0 <= errors[j].field < 4 && errors[j].value == values[errors[j].field]
    ensures forall j1, j2 :: 0 <= j1 < j2 < |errors| ==> errors[j1].field < errors[j2].field
    ensures forall f :: 0 <= f < 4 ==> (f in FieldsOf(errors) <==> Invalid(values, finite, f))
    ensures errors == [] <==> forall f :: 0 <= f < 4 ==> !Invalid(values, finite, f)
  {
    var bad := InvalidFlags(values, finite);
    ErrorsFromOrdered(values, bad, 0);
    ErrorsFromComplete(values, bad, 0);
    ErrorsFromEmpty(values, bad, 0);
    ErrorsFrom(values, bad, 0)
  }

  /** The errors of all four fields, written out one field after the other. */
  lemma ErrorsFromAll(values: seq<real>, bad: seq<bool>)
    requires |values| == 4 && |bad| == 4
    ensures ErrorsFrom(values, bad, 0) ==
      ErrorFor(values, bad, 0) + ErrorFor(values, bad, 1) + ErrorFor(values, bad, 2) + ErrorFor(values, bad, 3)
  {
    var e0, e1, e2, e3 := ErrorFor(values, bad, 0), ErrorFor(values, bad, 1), ErrorFor(values, bad, 2), ErrorFor(values, bad, 3);
    assert ErrorsFrom(values, bad, 3) == e3 + [];
    assert ErrorsFrom(values, bad, 2) == e2 + e3;
    assert ErrorsFrom(values, bad, 1) == e1 + (e2 + e3);
    assert ErrorsFrom(values, bad, 0) == e0 + (e1 + (e2 + e3));
    Regroup(e0, e1, e2, e3);
  }

  lemma Regroup(a: seq<FieldError>, b: seq<FieldError>, c: seq<FieldError>, d: seq<FieldError>)
    ensures a + (b + (c + d)) == a + b + c + d
  {
    assert b + (c + d) == b + c + d;
  }

  /** The range validation, appending one error per failing check. */
  method ValidationErrors(values: seq<real>, finite: seq<bool>) returns (errors: seq<FieldError>)
    requires |values| == 4 && |finite| == 4
    ensures errors == ErrorsFrom(values, InvalidFlags(values, finite), 0)
  {
    ghost var bad := InvalidFlags(values, finite);
    errors := [];
    if !(finite[0] && ValidRanges[0].min <= values[0] <= ValidRanges[0].max) {
      errors := errors + [FieldError(0, values[0])];
    }
    ghost var e01 := errors;
    assert e01 == ErrorFor(values, bad, 0);
    if !(finite[1] && ValidRanges[1].min <= values[1] <= ValidRanges[1].max) {
      errors := errors + [FieldError(1, values[1])];
    }
    ghost var e12 := errors;
    assert e12 == e01 + ErrorFor(values, bad, 1);
    if !(finite[2] && ValidRanges[2].min <= values[2] <= ValidRanges[2].max) {
      errors := errors + [FieldError(2, values[2])];
    }
    ghost var e23 := errors;
    assert e23 == e12 + ErrorFor(values, bad, 2);
    if !(finite[3] && ValidRanges[3].min <= values[3] <= ValidRanges[3].max) {
      errors := errors + [FieldError(3, values[3])];
    }
    assert errors == e23 + ErrorFor(values, bad, 3);
    ErrorsFromAll(values, bad);
  }

  /** `VALID_RANGES` and the bounds of `get_feedback` are the same intervals. */
  lemma RangesAgree()
    ensures |ValidRanges| == |FeedbackRanges| == |Fields| == 4
    ensures forall k :: 0 <= k < 4 ==> ValidRanges[k] == FeedbackRanges[k]
  {
  }

  /** The largest element of a non-empty sequence. */
  function MaxOf(xs: seq<real>): (m: real)
    requires |xs| > 0
    ensures m in xs && forall i :: 0 <= i < |xs| ==> xs[i] <= m
  {
    if |xs| == 1 then xs[0]
    else
      var rest := MaxOf(xs[1..]);
      assert forall i :: 1 <= i < |xs| ==> xs[i] == xs[1..][i - 1];
      if xs[0] >= rest then xs[0] else rest
  }

  /** `get_confidence_score` before rounding: the largest class probability, as a percentage. */
  function Confidence(probabilities: seq<real>): (c: real)
    requires |probabilities| > 0
    ensures exists i :: 0 <= i < |probabilities| && c == probabilities[i] * 100.0
    ensures forall i :: 0 <= i < |probabilities| ==> probabilities[i] * 100.0 <= c
  {
    MaxOf(probabilities) * 100.0
  }

  /** `quality_scores.get(kualitas, 50)`. */
  function QualityScore(kualitas: string): (score: int)
    ensures score in {85, 60, 30, 50}
    ensures score == 50 <==> kualitas != "Baik" && kualitas != "Sedang" && kualitas != "Buruk"
  {
    if kualitas == "Baik" then 85 else if kualitas == "Sedang" then 60 else if kualitas == "Buruk" then 30 else 50
  }

  /** `quality_icons.get(kualitas, "❓")`. */
  function QualityIcon(kualitas: string): (icon: string)
    ensures icon in {"✅", "⚠️", "❌", "❓"}
    ensures icon == "❓" <==> kualitas != "Baik" && kualitas != "Sedang" && kualitas != "Buruk"
  {
    if kualitas == "Baik" then "✅" else if kualitas == "Sedang" then "⚠️" else if kualitas == "Buruk" then "❌" else "❓"
  }

  /**
   * The two tables: each of the three labels has its own score and icon,
   * and any other label gets the defaults 50 and "❓", together.
   */
  lemma QualityTables(kualitas: string)
    ensures kualitas == "Baik" ==> QualityScore(kualitas) == 85 && QualityIcon(kualitas) == "✅"
    ensures kualitas == "Sedang" ==> QualityScore(kualitas) == 60 && QualityIcon(kualitas) == "⚠️"
    ensures kualitas == "Buruk" ==> QualityScore(kualitas) == 30 && QualityIcon(kualitas) == "❌"
    ensures QualityScore(kualitas) == 50 <==> QualityIcon(kualitas) == "❓"
    ensures QualityScore(kualitas) == 50 <==> kualitas != "Baik" && kualitas != "Sedang" && kualitas != "Buruk"
  {
  }

  /** What Python's `float()` does with one request value. */
  datatype Conversion = Finite(x: real) | NotFinite | ValueErr | TypeErr

  /** The response: an error with its status, a range rejection (400, `success: False`) or a prediction. */
  datatype ApiResponse =
    | Fail(status: int, error: string)
    | OutOfRange(errors: seq<FieldError>)
    | Predicted(kualitas: string, score: int, confidence: real, icon: string,
                input: seq<real>, feedback: seq<FeedbackLine>)
  {
    function Status(): int {
      match this
      case Fail(s, _) => s
      case OutOfRange(_) => 400
      case Predicted(_, _, _, _, _, _) => 200
    }
  }

  const ModelMissing: string := "Model belum dimuat. Jalankan train_model.py terlebih dahulu."
  const InvalidValue: string := "Nilai input tidak valid: "
  const InternalError: string := "Terjadi kesalahan: "

  function MissingFieldError(f: string): string {
    "Field '" + f + "' tidak ditemukan"
  }

  /** The outcome of the four `float()` calls. */
  datatype Converted = ConvertFailed(response: ApiResponse) | Converted(values: seq<real>, finite: seq<bool>)

  /** Whether `float()` raises on this value. */
  predicate Raises(c: Conversion) {
    c.ValueErr? || c.TypeErr?
  }

  /** The position of the first conversion that raises, `|cs|` when none does. */
  function FirstRaise(cs: seq<Conversion>): (k: nat)
    ensures k <= |cs|
    ensures forall j :: 0 <= j < k ==> !Raises(cs[j])
    ensures k < |cs| ==> Raises(cs[k])
  {
    if cs == [] || Raises(cs[0]) then 0
    else
      assert forall j :: 1 <= j < |cs| ==> cs[j] == cs[1..][j - 1];
      1 + FirstRaise(cs[1..])
  }

  /**
   * The `float()` calls, in order. The first one that raises stops the
   * request: a ValueError gives 400, any other error 500. Otherwise
   * `finite[k]` says whether value k is a finite number and `values[k]` is
   * that number (0 when it is not finite).
   */
  function ConvertAll(cs: seq<Conversion>): (r: Converted)
    ensures r.Converted? <==> FirstRaise(cs) == |cs|
    ensures r.Converted? ==>
      && |r.values| == |cs| && |r.finite| == |cs|
      && forall k :: 0 <= k < |cs| ==>
           (r.finite[k] <==> cs[k].Finite?) && (r.finite[k] ==> r.values[k] == cs[k].x)
    ensures r.ConvertFailed? ==>
      var k := FirstRaise(cs);
      && k < |cs|
      && (cs[k].ValueErr? ==> r.response == Fail(400, InvalidValue))
      && (cs[k].TypeErr? ==> r.response == Fail(500, InternalError))
  {
    if cs == [] then Converted([], [])
    else if cs[0].ValueErr? then ConvertFailed(Fail(400, InvalidValue))
    else if cs[0].TypeErr? then ConvertFailed(Fail(500, InternalError))
    else
      var rest := ConvertAll(cs[1..]);
      assert FirstRaise(cs) == 1 + FirstRaise(cs[1..]);
      assert forall k :: 1 <= k < |cs| ==> cs[k] == cs[1..][k - 1];
      if rest.ConvertFailed? then rest
      else if cs[0].Finite? then Converted([cs[0].x] + rest.values, [true] + rest.finite)
      else Converted([0.0] + rest.values, [false] + rest.finite)
  }

  /** The conversions of the four request values, in field order. */
  function Conversions<V>(data: map<string, V>, toFloat: V -> Conversion): (cs: seq<Conversion>)
    requires forall k :: 0 <= k < 4 ==> Fields[k] in data
    ensures |cs| == 4 && forall k :: 0 <= k < 4 ==> cs[k] == toFloat(data[Fields[k]])
  {
    [toFloat(data[Fields[0]]), toFloat(data[Fields[1]]), toFloat(data[Fields[2]]), toFloat(data[Fields[3]])]
  }

  /**
   * The part of `predict` after validation: the response for the four
   * values, the label the model predicted and its class probabilities.
   * Feedback for values that passed validation is all pass lines.
   */
  function Respond(values: seq<real>, prediction: string, probabilities: seq<real>): (r: ApiResponse)
    requires |values| == 4
    ensures |probabilities| == 0 ==> r == Fail(400, InvalidValue)
    ensures |probabilities| > 0 ==>
      && r.Predicted? && r.kualitas == prediction && r.input == values
      && r.confidence == Confidence(probabilities)
      && r.score == QualityScore(prediction) && r.icon == QualityIcon(prediction)
      && |r.feedback| == 5 && r.feedback[4] == LabelLine(prediction)
    ensures r.Predicted? && (forall k :: 0 <= k < 4 ==> Within(values[k], ValidRanges[k])) ==>
      forall k :: 0 <= k < 4 ==> r.feedback[k] == PassLine(k)
  {
    if |probabilities| == 0 then
      // `max` of an empty sequence raises ValueError
      Fail(400, InvalidValue)
    else
      var feedback := FeedbackFor(values[0], values[1], values[2], values[3], prediction);
      RangesAgree();
      assert forall k :: 0 <= k < 4 ==> values[k] == Value(k, values[0], values[1], values[2], values[3]);
      Predicted(prediction, QualityScore(prediction), Confidence(probabilities), QualityIcon(prediction),
                values, feedback)
  }

  /**
   * The part of `predict` once all four fields are present: `cs` holds what
   * `float()` made of each of them, in field order. `classify` stands for
   * the scaler and the model: the predicted label and the class
   * probabilities. The lemmas below say what the response is.
   */
  function Evaluate(cs: seq<Conversion>, classify: (real, real, real, real) -> (string, seq<real>))
    : (r: ApiResponse)
    requires |cs| == 4
    ensures r.Status() == 200 || r.Status() == 400 || r.Status() == 500
    ensures r.Predicted? ==> ConvertAll(cs).Converted? && r.input == ConvertAll(cs).values
    ensures r.OutOfRange? ==> ConvertAll(cs).Converted? && |r.errors| > 0
  {
    var c := ConvertAll(cs);
    if c.ConvertFailed? then c.response
    else
      var errors := ValidationErrorsOf(c.values, c.finite);
      if |errors| > 0 then OutOfRange(errors)
      else
        var out := classify(c.values[0], c.values[1], c.values[2], c.values[3]);
        Respond(c.values, out.0, out.1)
  }

  /** A conversion that raises decides the response. */
  lemma EvaluateConversionFailure(cs: seq<Conversion>, classify: (real, real, real, real) -> (string, seq<real>))
    requires |cs| == 4 && ConvertAll(cs).ConvertFailed?
    ensures Evaluate(cs, classify) == ConvertAll(cs).response
    ensures Evaluate(cs, classify).Status() == 400 || Evaluate(cs, classify).Status() == 500
  {
  }

  /** Converted values that fail validation are rejected with the full error list, and only then. */
  lemma EvaluateOutOfRange(cs: seq<Conversion>, classify: (real, real, real, real) -> (string, seq<real>))
    requires |cs| == 4 && ConvertAll(cs).Converted?
    ensures var c := ConvertAll(cs);
      Evaluate(cs, classify).OutOfRange? <==> ValidationErrorsOf(c.values, c.finite) != []
    ensures var c := ConvertAll(cs);
      Evaluate(cs, classify).OutOfRange? ==> Evaluate(cs, classify).errors == ValidationErrorsOf(c.values, c.finite)
  {
  }

  /**
   * A prediction is only made from four finite values inside `VALID_RANGES`;
   * it carries those values, and its first four feedback lines are all pass
   * lines.
   */
  lemma EvaluatePredictsOnlyValid(cs: seq<Conversion>, classify: (real, real, real, real) -> (string, seq<real>))
    requires |cs| == 4 && Evaluate(cs, classify).Predicted?
    ensures forall k :: 0 <= k < 4 ==> cs[k].Finite? && Within(cs[k].x, ValidRanges[k])
    ensures Evaluate(cs, classify).input == [cs[0].x, cs[1].x, cs[2].x, cs[3].x]
  {
    var c := ConvertAll(cs);
    assert c.Converted? && ValidationErrorsOf(c.values, c.finite) == [];
    ConvertedAndValid(cs, c.values, c.finite);
  }

  /** Converted values with no validation error are the four finite inputs, each within its range. */
  lemma ConvertedAndValid(cs: seq<Conversion>, values: seq<real>, finite: seq<bool>)
    requires |cs| == 4 && |values| == 4 && |finite| == 4
    requires forall k :: 0 <= k < 4 ==> (finite[k] <==> cs[k].Finite?) && (finite[k] ==> values[k] == cs[k].x)
    requires forall k :: 0 <= k < 4 ==> !Invalid(values, finite, k)
    ensures forall k :: 0 <= k < 4 ==> cs[k].Finite? && Within(cs[k].x, ValidRanges[k])
    ensures values == [cs[0].x, cs[1].x, cs[2].x, cs[3].x]
  {
    forall k | 0 <= k < 4
      ensures cs[k].Finite? && Within(cs[k].x, ValidRanges[k])
    {
      assert !Invalid(values, finite, k);
    }
  }

  /**
   * Because `VALID_RANGES` and the `get_feedback` bounds coincide, the first
   * four feedback lines of a prediction are all pass lines.
   */
  lemma PredictionFeedbackAllPass(cs: seq<Conversion>, classify: (real, real, real, real) -> (string, seq<real>))
    requires |cs| == 4 && Evaluate(cs, classify).Predicted?
    ensures forall k :: 0 <= k < 4 ==> Evaluate(cs, classify).feedback[k] == PassLine(k)
  {
    var c := ConvertAll(cs);
    assert c.Converted? && ValidationErrorsOf(c.values, c.finite) == [];
    ConvertedAndValid(cs, c.values, c.finite);
    var out := classify(c.values[0], c.values[1], c.values[2], c.values[3]);
    assert Evaluate(cs, classify) == Respond(c.values, out.0, out.1);
  }

  /** What a prediction reports, from the model's output on the four values. */
  lemma EvaluatePrediction(cs: seq<Conversion>, classify: (real, real, real, real) -> (string, seq<real>))
    requires |cs| == 4 && Evaluate(cs, classify).Predicted?
    ensures var r := Evaluate(cs, classify);
      var out := classify(r.input[0], r.input[1], r.input[2], r.input[3]);
      && |r.input| == 4 && r.kualitas == out.0 && |out.1| > 0 && r.confidence == Confidence(out.1)
      && r.score == QualityScore(out.0) && r.icon == QualityIcon(out.0)
      && |r.feedback| == 5 && r.feedback[4] == LabelLine(out.0)
  {
  }

  /**
   * `predict` once all four fields are present, step by step: conversion,
   * the validation list, the model, the feedback.
   */
  method PredictPresent<V>(data: map<string, V>, toFloat: V -> Conversion,
                           classify: (real, real, real, real) -> (string, seq<real>))
    returns (r: ApiResponse)
    requires forall k :: 0 <= k < 4 ==> Fields[k] in data
    ensures r == Evaluate(Conversions(data, toFloat), classify)
  {
    var c := ConvertAll(Conversions(data, toFloat));
    if c.ConvertFailed? {
      return c.response;
    }
    var errors := ValidationErrors(c.values, c.finite);
    if |errors| > 0 {
      return OutOfRange(errors);
    }
    var (prediction, probabilities) := classify(c.values[0], c.values[1], c.values[2], c.values[3]);
    if |probabilities| == 0 {
      // `max` of an empty sequence raises ValueError
      return Fail(400, InvalidValue);
    }
    var confidence := Confidence(probabilities);
    var feedback := GetFeedback(c.values[0], c.values[1], c.values[2], c.values[3], prediction);
    return Predicted(prediction, QualityScore(prediction), confidence, QualityIcon(prediction), c.values, feedback);
  }

  /**
   * `predict`. A body on which `in` raises answers 500; a body lacking a
   * field answers 400 naming the first one, whatever its kind; an array or
   * a string holding all four names raises TypeError at `data["suhu"]`,
   * which answers 500; an object goes on to the evaluation.
   */
  method Predict<V>(modelLoaded: bool, body: RequestBody<V>, toFloat: V -> Conversion,
                    classify: (real, real, real, real) -> (string, seq<real>))
    returns (r: ApiResponse)
    ensures !modelLoaded ==> r == Fail(500, ModelMissing)
    ensures modelLoaded && body.JsonOther? ==> r == Fail(500, InternalError)
    ensures modelLoaded && !body.JsonOther? && (exists k :: 0 <= k < 4 && !Has(body, Fields[k])) ==>
      exists k :: 0 <= k < 4 && r == Fail(400, MissingFieldError(Fields[k])) &&
        !Has(body, Fields[k]) && forall j :: 0 <= j < k ==> Has(body, Fields[j])
    ensures modelLoaded && !body.JsonOther? && (forall k :: 0 <= k < 4 ==> Has(body, Fields[k])) ==>
      if body.JsonObject? then r == Evaluate(Conversions(body.members, toFloat), classify)
      else r == Fail(500, InternalError)
  {
    if !modelLoaded {
      return Fail(500, ModelMissing);
    }
    if body.JsonOther? {
      return Fail(500, InternalError);
    }
    var missing := FirstMissing(body);
    if missing.Some? {
      return Fail(400, MissingFieldError(missing.value));
    }
    if !body.JsonObject? {
      return Fail(500, InternalError);
    }
    r := PredictPresent(body.members, toFloat, classify);
  }
}

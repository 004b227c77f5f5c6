/**
 * The client-side weather scorer of the prediction page (`mockValidate`) and
 * the input gate that runs before it (`handleValidate`, `handleReset`).
 */
module PredictionPage {
  import opened Wrappers

  /** The three quality labels the client scorer gives. */
  datatype Quality = Baik | Sedang | Kurang

  /** What `mockValidate` returns. */
  datatype MockResult = MockResult(score: int, quality: Quality, icon: string, feedback: seq<string>)

  /** The four ideal intervals, all closed at both ends. */
  predicate TempIdeal(t: real) { 15.0 <= t <= 35.0 }
  predicate HumidityIdeal(h: real) { 30.0 <= h <= 80.0 }
  predicate PressureIdeal(p: real) { 1000.0 <= p <= 1030.0 }
  predicate WindIdeal(w: real) { 0.0 <= w <= 20.0 }

  /** Whether parameter `i` (0 temperature, 1 humidity, 2 pressure, 3 wind) is in its ideal interval. */
  predicate Ideal(i: int, t: real, h: real, p: real, w: real) {
    if i == 0 then TempIdeal(t)
    else if i == 1 then HumidityIdeal(h)
    else if i == 2 then PressureIdeal(p)
    else i == 3 && WindIdeal(w)
  }

  /** How many of the four parameters are in their ideal interval. */
  function PassCount(t: real, h: real, p: real, w: real): (n: nat)
    ensures n <= 4
  {
    (if TempIdeal(t) then 1 else 0) + (if HumidityIdeal(h) then 1 else 0) +
    (if PressureIdeal(p) then 1 else 0) + (if WindIdeal(w) then 1 else 0)
  }

  /** A parameter's contribution to the score. */
  function Points(ideal: bool): int {
    if ideal then 25 else 10
  }

  /** `Math.max(lo, Math.min(hi, x))`. */
  function Clamp(lo: int, hi: int, x: int): int {
    if x > hi then (if lo > hi then lo else hi) else if x < lo then lo else x
  }

  /** The label for a score: Baik from 75, Sedang from 50, Kurang below. */
  function QualityOf(score: int): Quality {
    if score >= 75 then Baik else if score >= 50 then Sedang else Kurang
  }

  /** The label as the page shows it. */
  function QualityName(q: Quality): string {
    match q
    case Baik => "Baik"
    case Sedang => "Sedang"
    case Kurang => "Kurang"
  }

  const PassMark: char := '✓'
  const FailMark: char := '✗'

  function TempLine(t: real): string {
    if TempIdeal(t) then "✓ Suhu dalam range normal" else "✗ Suhu di luar range normal (15-35°C)"
  }
  function HumidityLine(h: real): string {
    if HumidityIdeal(h) then "✓ Kelembapan ideal" else "✗ Kelembapan tidak ideal (30-80%)"
  }
  function PressureLine(p: real): string {
    if PressureIdeal(p) then "✓ Tekanan udara normal" else "✗ Tekanan udara abnormal (1000-1030 mb)"
  }
  function WindLine(w: real): string {
    if WindIdeal(w) then "✓ Kecepatan angin wajar" else "✗ Kecepatan angin ekstrem (>20 m/s)"
  }

  /**
   * `mockValidate`: every parameter in its ideal interval adds 25, every other
   * adds 10, so the clamped score is 40 plus 15 per ideal parameter; the label
   * and icon follow the score, and there is one feedback line per parameter,
   * in the order temperature, humidity, pressure, wind.
   */
  function MockValidate(t: real, h: real, p: real, w: real): (r: MockResult)
    ensures r.score == 40 + 15 * PassCount(t, h, p, w)
    ensures r.score in {40, 55, 70, 85, 100}
    ensures r.quality == Baik <==> r.score >= 75
    ensures r.quality == Sedang <==> 50 <= r.score < 75
    ensures r.quality == Kurang <==> r.score < 50
    ensures r.icon == (if r.score >= 75 then "✅" else if r.score >= 50 then "⚠️" else "❌")
    ensures |r.feedback| == 4
    ensures forall i :: 0 <= i < 4 ==>
      (|r.feedback[i]| > 0 &&
       (r.feedback[i][0] == PassMark <==> Ideal(i, t, h, p, w)) &&
       (r.feedback[i][0] == FailMark <==> !Ideal(i, t, h, p, w)))
  {
    var score := Clamp(0, 100, Points(TempIdeal(t)) + Points(HumidityIdeal(h)) +
                               Points(PressureIdeal(p)) + Points(WindIdeal(w)));
    var isGood := score >= 75;
    var feedback := [TempLine(t), HumidityLine(h), PressureLine(p), WindLine(w)];
    assert forall i :: 0 <= i < 4 ==>
      (|feedback[i]| > 0 && feedback[i][0] == (if Ideal(i, t, h, p, w) then PassMark else FailMark));
    MockResult(
      score,
      if isGood then Baik else if score >= 50 then Sedang else Kurang,
      if isGood then "✅" else if score >= 50 then "⚠️" else "❌",
      feedback)
  }

  /** The label is Baik exactly when three or more parameters are ideal, Kurang exactly when none is. */
  lemma QualityByPassCount(t: real, h: real, p: real, w: real)
    ensures var q := MockValidate(t, h, p, w).quality; var n := PassCount(t, h, p, w);
      (q == Baik <==> n >= 3) && (q == Sedang <==> 1 <= n <= 2) && (q == Kurang <==> n == 0)
  {
    var n := PassCount(t, h, p, w);
    assert MockValidate(t, h, p, w).score == 40 + 15 * n;
  }

  /** The icon depends on the label alone. */
  lemma IconFollowsQuality(t: real, h: real, p: real, w: real)
    ensures var r := MockValidate(t, h, p, w);
      r.icon == (match r.quality case Baik => "✅" case Sedang => "⚠️" case Kurang => "❌")
  {
  }

  /** The full score of 100 is reached exactly when every reading lies in its closed ideal interval. */
  lemma FullScoreIffAllIdeal(t: real, h: real, p: real, w: real)
    ensures MockValidate(t, h, p, w).score == 100 <==>
      15.0 <= t <= 35.0 && 30.0 <= h <= 80.0 && 1000.0 <= p <= 1030.0 && 0.0 <= w <= 20.0
  {
  }

  const EmptyFieldError: string := "⚠️ Harap isi semua field terlebih dahulu."
  const NotNumberError: string := "❌ Semua input harus berupa angka."

  /** What the result panel holds: an error message or a score. */
  datatype Shown = Failed(message: string) | Scored(result: MockResult)

  /**
   * The page's state: the four raw text fields, the loading flag and the
   * result panel (None is `null`).
   */
  class PredictionForm {
    var temp: string
    var humidity: string
    var pressure: string
    var windSpeed: string
    var loading: bool
    var result: Option<Shown>

    constructor ()
      ensures temp == "" && humidity == "" && pressure == "" && windSpeed == ""
      ensures !loading && result == None
    {
      temp, humidity, pressure, windSpeed := "", "", "", "";
      loading, result := false, None;
    }

    /**
     * `handleValidate`. An empty field is reported first; then a field that
     * `parse` (the page's `parseFloat`, None for NaN) rejects; only when all
     * four parse is the scorer run, and the loading flag is cleared after it.
     * The fields themselves are never changed.
     */
    method HandleValidate(parse: string -> Option<real>)
      modifies this`result, this`loading
      ensures var anyEmpty := old(temp) == "" || old(humidity) == "" || old(pressure) == "" || old(windSpeed) == "";
        var anyNaN := parse(old(temp)).None? || parse(old(humidity)).None? ||
                      parse(old(pressure)).None? || parse(old(windSpeed)).None?;
        (anyEmpty ==> result == Some(Failed(EmptyFieldError)) && loading == old(loading)) &&
        (!anyEmpty && anyNaN ==> result == Some(Failed(NotNumberError)) && loading == old(loading)) &&
        (!anyEmpty && !anyNaN ==>
          result == Some(Scored(MockValidate(parse(old(temp)).value, parse(old(humidity)).value,
                                             parse(old(pressure)).value, parse(old(windSpeed)).value))) &&
          !loading)
    {
      if temp == "" || humidity == "" || pressure == "" || windSpeed == "" {
        result := Some(Failed(EmptyFieldError));
        return;
      }
      var t := parse(temp);
      var h := parse(humidity);
      var p := parse(pressure);
      var w := parse(windSpeed);
      if t.None? || h.None? || p.None? || w.None? {
        result := Some(Failed(NotNumberError));
        return;
      }
      loading := true;
      result := None;
      var res := MockValidate(t.value, h.value, p.value, w.value);
      result := Some(Scored(res));
      loading := false;
    }

    /** `handleReset`: clears the four fields and the result; the loading flag is left as it is. */
    method HandleReset()
      modifies this`temp, this`humidity, this`pressure, this`windSpeed, this`result
      ensures temp == "" && humidity == "" && pressure == "" && windSpeed == "" && result == None
    {
      temp, humidity, pressure, windSpeed := "", "", "", "";
      result := None;
    }
  }
}

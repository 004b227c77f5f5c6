/**
 * The labelling step of the training-data script: rows with a missing value
 * in one of the five kept columns are dropped, each remaining row gets an
 * air-quality label from its PM2.5 reading, and rows in the grey zones near
 * the two label boundaries are removed. The rest of the script (scaling,
 * resampling, the classifier) is not modelled.
 */
module PmLabel {
  import opened Wrappers

  /** The three labels, in order of worsening air. */
  datatype AirLabel = Baik | Sedang | Buruk

  /** The position of a label in the order Baik < Sedang < Buruk. */
  function Rank(l: AirLabel): nat {
    match l
    case Baik => 0
    case Sedang => 1
    case Buruk => 2
  }

  /** `kategori_udara_v3`: every reading gets exactly one label. */
  function Kategori(pm: real): (l: AirLabel)
    ensures l == Baik <==> pm <= 35.0
    ensures l == Sedang <==> 35.0 < pm <= 75.0
    ensures l == Buruk <==> 75.0 < pm
  {
    if pm <= 35.0 then Baik
    else if pm <= 75.0 then Sedang
    else Buruk
  }

  /** A higher reading never gets a better label. */
  lemma KategoriMonotone(pm1: real, pm2: real)
    requires pm1 <= pm2
    ensures Rank(Kategori(pm1)) <= Rank(Kategori(pm2))
  {
  }

  /** A row of the merged dataset restricted to TEMP, DEWP, PRES, WSPM and PM2.5; None is a missing value. */
  datatype RawRow = RawRow(temp: Option<real>, dewp: Option<real>, pres: Option<real>,
                           wspm: Option<real>, pm25: Option<real>)

  /** A row with all five values present. */
  datatype Row = Row(temp: real, dewp: real, pres: real, wspm: real, pm25: real)

  predicate Complete(r: RawRow) {
    r.temp.Some? && r.dewp.Some? && r.pres.Some? && r.wspm.Some? && r.pm25.Some?
  }

  function ToRow(r: RawRow): Row
    requires Complete(r)
  {
    Row(r.temp.value, r.dewp.value, r.pres.value, r.wspm.value, r.pm25.value)
  }

  /** `dropna()`: the complete rows, in their order, with their values. */
  function DropNa(rows: seq<RawRow>): (out: seq<Row>)
    ensures |out| <= |rows|
    ensures forall x :: x in out ==> exists i :: 0 <= i < |rows| && Complete(rows[i]) && x == ToRow(rows[i])
    ensures forall i :: 0 <= i < |rows| && Complete(rows[i]) ==> ToRow(rows[i]) in out
  {
    if rows == [] then []
    else
      var rest := DropNa(rows[1..]);
      assert forall i :: 1 <= i < |rows| ==> rows[i] == rows[1..][i - 1];
      if Complete(rows[0]) then [ToRow(rows[0])] + rest else rest
  }

  /** `dropna()` works row by row: it distributes over concatenation. */
  lemma {:induction false} DropNaAppend(a: seq<RawRow>, b: seq<RawRow>)
    ensures DropNa(a + b) == DropNa(a) + DropNa(b)
  {
    if a != [] {
      assert (a + b)[0] == a[0];
      assert (a + b)[1..] == a[1..] + b;
      DropNaAppend(a[1..], b);
      var head := if Complete(a[0]) then [ToRow(a[0])] else [];
      assert DropNa(a + b) == head + DropNa(a[1..] + b);
      assert DropNa(a) == head + DropNa(a[1..]);
    } else {
      assert a + b == b;
    }
  }

  /** A row together with the label assigned to it. */
  datatype LabelledRow = LabelledRow(row: Row, kualitas: AirLabel)

  /** The `kualitas_udara` column: each row keeps its values and gets the label of its PM2.5 reading. */
  function Label(rows: seq<Row>): (out: seq<LabelledRow>)
    ensures |out| == |rows|
    ensures forall i :: 0 <= i < |rows| ==> out[i].row == rows[i] && out[i].kualitas == Kategori(rows[i].pm25)
  {
    if rows == [] then []
    else [LabelledRow(rows[0], Kategori(rows[0].pm25))] + Label(rows[1..])
  }

  /** The grey zones: readings from 33 to 37 and from 73 to 77, bounds included. */
  predicate InGreyZone(pm: real) {
    (33.0 <= pm <= 37.0) || (73.0 <= pm <= 77.0)
  }

  /** `df[mask]`: the rows outside the grey zones, unchanged and in their order. */
  function Mask(rows: seq<LabelledRow>): (out: seq<LabelledRow>)
    ensures |out| <= |rows|
    ensures forall x :: x in out ==> x in rows && !InGreyZone(x.row.pm25)
    ensures forall x :: x in rows && !InGreyZone(x.row.pm25) ==> x in out
  {
    if rows == [] then []
    else
      var rest := Mask(rows[1..]);
      assert forall x :: x in rows ==> x == rows[0] || x in rows[1..];
      if InGreyZone(rows[0].row.pm25) then rest else [rows[0]] + rest
  }

  /** The mask works row by row: it distributes over concatenation. */
  lemma {:induction false} MaskAppend(a: seq<LabelledRow>, b: seq<LabelledRow>)
    ensures Mask(a + b) == Mask(a) + Mask(b)
  {
    if a != [] {
      assert (a + b)[0] == a[0];
      assert (a + b)[1..] == a[1..] + b;
      MaskAppend(a[1..], b);
      var head := if InGreyZone(a[0].row.pm25) then [] else [a[0]];
      assert Mask(a + b) == head + Mask(a[1..] + b);
      assert Mask(a) == head + Mask(a[1..]);
    } else {
      assert a + b == b;
    }
  }

  /** Every labelled row carries the label of its own reading and one of the input rows. */
  lemma LabelledRowsAgree(rows: seq<Row>)
    ensures forall x :: x in Label(rows) ==> x.kualitas == Kategori(x.row.pm25) && x.row in rows
  {
    forall x | x in Label(rows)
      ensures x.kualitas == Kategori(x.row.pm25) && x.row in rows
    {
      var i :| 0 <= i < |Label(rows)| && Label(rows)[i] == x;
    }
  }

  /** After the mask, each label sits well inside its interval. */
  lemma MaskedLabelsSeparated(rows: seq<Row>)
    ensures forall x :: x in Mask(Label(rows)) ==>
      && (x.kualitas == Baik ==> x.row.pm25 < 33.0)
      && (x.kualitas == Sedang ==> 37.0 < x.row.pm25 < 73.0)
      && (x.kualitas == Buruk ==> 77.0 < x.row.pm25)
  {
    LabelledRowsAgree(rows);
  }

  /** The labelled training rows built from the raw dataset. */
  function Prepare(raw: seq<RawRow>): (out: seq<LabelledRow>)
    ensures forall x :: x in out ==>
      && x.kualitas == Kategori(x.row.pm25) && !InGreyZone(x.row.pm25)
      && exists i :: 0 <= i < |raw| && Complete(raw[i]) && x.row == ToRow(raw[i])
  {
    LabelledRowsAgree(DropNa(raw));
    Mask(Label(DropNa(raw)))
  }
}

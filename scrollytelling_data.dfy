/**
 * The radar sticky-side demo data: each value series zipped with the radar
 * dimensions into one dataset of rows.
 */
module ScrollytellingData {
  import opened Optional

  /** A pair of value series; entry j belongs to dimension j. */
  datatype Series = Series(uv: seq<int>, pv: seq<int>)

  /** One radar row; a value is `None` where the series has no entry (JavaScript's `undefined`). */
  datatype RadarRow = RadarRow(dimension: string, uv: Option<int>, pv: Option<int>)

  /** `values[index]`, or `undefined` past the end. */
  function At(values: seq<int>, index: nat): (r: Option<int>)
    ensures r.Some? <==> index < |values|
    ensures r.Some? ==> r.value == values[index]
  {
    if index < |values| then Some(values[index]) else None
  }

  /**
   * `RADAR_STICKY_DATASETS`: one dataset per series, in order, each with one row
   * per dimension, in order, carrying the dimension and the series' entries at
   * that position.
   */
  function RadarStickyDatasets(dimensions: seq<string>, values: seq<Series>): (sets: seq<seq<RadarRow>>)
    ensures |sets| == |values|
    ensures forall i :: 0 <= i < |values| ==> |sets[i]| == |dimensions|
    ensures forall i, j :: 0 <= i < |values| && 0 <= j < |dimensions| ==>
      sets[i][j] == RadarRow(dimensions[j], At(values[i].uv, j), At(values[i].pv, j))
  {
    seq(|values|, i requires 0 <= i < |values| =>
      seq(|dimensions|, j requires 0 <= j < |dimensions| =>
        RadarRow(dimensions[j], At(values[i].uv, j), At(values[i].pv, j))))
  }

  /** A series covers the dimensions when it has an entry for each of them. */
  predicate Covers(dimensions: seq<string>, s: Series) {
    |s.uv| >= |dimensions| && |s.pv| >= |dimensions|
  }

  /** Every row is complete exactly when every series covers the dimensions (given at least one dimension). */
  lemma CompleteRowsIff(dimensions: seq<string>, values: seq<Series>)
    requires |dimensions| > 0
    ensures (forall i :: 0 <= i < |values| ==> Covers(dimensions, values[i])) <==>
      (forall i, j :: 0 <= i < |values| && 0 <= j < |dimensions| ==>
        RadarStickyDatasets(dimensions, values)[i][j].uv.Some? && RadarStickyDatasets(dimensions, values)[i][j].pv.Some?)
  {
    var sets: seq<seq<RadarRow>> := RadarStickyDatasets(dimensions, values);
    var last := |dimensions| - 1;
    if forall i, j :: 0 <= i < |values| && 0 <= j < |dimensions| ==> sets[i][j].uv.Some? && sets[i][j].pv.Some? {
      forall i | 0 <= i < |values| ensures Covers(dimensions, values[i]) {
        assert sets[i][last].uv.Some? && sets[i][last].pv.Some?;
      }
    }
  }

  const RadarDimensions: seq<string> := ["Reach", "Activation", "Retention", "Revenue", "Referral"]

  const RadarStickyValues: seq<Series> := [
    Series([40, 25, 35, 18, 22], [55, 35, 48, 26, 30]),
    Series([70, 85, 60, 72, 55], [92, 110, 78, 95, 70]),
    Series([55, 65, 95, 48, 88], [72, 84, 125, 66, 112]),
    Series([95, 78, 110, 92, 100], [130, 108, 150, 128, 135])]

  /** The exported data: four datasets of five rows each, none of them with an undefined value. */
  lemma ExportedDatasetsComplete()
    ensures var sets := RadarStickyDatasets(RadarDimensions, RadarStickyValues);
      |sets| == 4 && (forall i :: 0 <= i < 4 ==> |sets[i]| == 5) &&
      forall i, j :: 0 <= i < 4 && 0 <= j < 5 ==> sets[i][j].uv.Some? && sets[i][j].pv.Some?
  {
    CompleteRowsIff(RadarDimensions, RadarStickyValues);
  }
}

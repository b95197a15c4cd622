/**
 * The drill-down demo data: user and order detail tables built from constant
 * week, region and radar-dimension records, the chart points derived from the
 * same records, and the pie chart's colour configuration.
 */
module DrilldownData {

  /** A table row: a user of the UV/PV tables or an order of the pie tables. */
  datatype Row = UserRow(user: string, plan: string, lastActive: string) | OrderRow(order: string, account: string)

  /** A column; `title` is the source's `label` field (`label` is a Dafny keyword), here and below. */
  datatype Column = Column(key: string, title: string)

  datatype Table = Table(key: string, title: string, columns: seq<Column>, rows: seq<Row>, emptyText: string)

  datatype DataSet = DataSet(key: string, title: string, description: string, tables: seq<Table>)

  /** A week or a radar dimension with its UV and PV users. */
  datatype Detail = Detail(key: string, title: string, description: string, uvRows: seq<Row>, pvRows: seq<Row>)

  /** A pie region with its orders. */
  datatype Segment = Segment(key: string, title: string, description: string, rows: seq<Row>)

  datatype BarLinePoint = BarLinePoint(period: string, uv: nat, pv: nat)

  datatype PieSlice = PieSlice(key: string, title: string, value: nat)

  datatype RadarPoint = RadarPoint(dimension: string, uv: nat, pv: nat)

  datatype SegmentConfig = SegmentConfig(title: string, color: string)

  const UserColumns: seq<Column> := [Column("user", "User"), Column("plan", "Plan"), Column("lastActive", "Last Active")]

  const PieColumns: seq<Column> := [Column("order", "Order"), Column("account", "Account")]

  /**
   * `buildUserTables`: always two tables, 'uv' then 'pv', carrying the given row
   * lists under the shared user columns.
   */
  function BuildUserTables(uvRows: seq<Row>, pvRows: seq<Row>): (tables: seq<Table>)
    ensures |tables| == 2
    ensures tables[0].key == "uv" && tables[0].rows == uvRows && tables[0].columns == UserColumns
    ensures tables[1].key == "pv" && tables[1].rows == pvRows && tables[1].columns == UserColumns
  {
    [Table("uv", "UV", UserColumns, uvRows, "No UV users."),
     Table("pv", "PV", UserColumns, pvRows, "No PV users.")]
  }

  /** `WEEK_DATASETS` and `RADAR_DATASETS`: one data set per record, in order, with its two user tables. */
  function DetailDataSets(details: seq<Detail>): (sets: seq<DataSet>)
    ensures |sets| == |details|
    ensures forall i :: 0 <= i < |details| ==>
      sets[i].key == details[i].key && sets[i].title == details[i].title &&
      sets[i].description == details[i].description &&
      sets[i].tables == BuildUserTables(details[i].uvRows, details[i].pvRows)
  {
    seq(|details|, i requires 0 <= i < |details| =>
      DataSet(details[i].key, details[i].title, details[i].description,
              BuildUserTables(details[i].uvRows, details[i].pvRows)))
  }

  /** `BAR_LINE_DATA`: one point per week, labelled with the week, counting its UV and PV users. */
  function BarLineData(weeks: seq<Detail>): (points: seq<BarLinePoint>)
    ensures |points| == |weeks|
    ensures forall i :: 0 <= i < |weeks| ==>
      points[i] == BarLinePoint(weeks[i].title, |weeks[i].uvRows|, |weeks[i].pvRows|)
  {
    seq(|weeks|, i requires 0 <= i < |weeks| => BarLinePoint(weeks[i].title, |weeks[i].uvRows|, |weeks[i].pvRows|))
  }

  /** `RADAR_DATA`: one point per dimension, counting its UV and PV users. */
  function RadarData(dimensions: seq<Detail>): (points: seq<RadarPoint>)
    ensures |points| == |dimensions|
    ensures forall i :: 0 <= i < |dimensions| ==>
      points[i] == RadarPoint(dimensions[i].title, |dimensions[i].uvRows|, |dimensions[i].pvRows|)
  {
    seq(|dimensions|, i requires 0 <= i < |dimensions| =>
      RadarPoint(dimensions[i].title, |dimensions[i].uvRows|, |dimensions[i].pvRows|))
  }

  /** The bar/line chart and the drill-down agree: point i counts the rows of week i's two tables. */
  lemma BarLineCountsMatchTables(weeks: seq<Detail>)
    ensures var points, sets := BarLineData(weeks), DetailDataSets(weeks);
      |points| == |sets| &&
      forall i :: 0 <= i < |points| ==>
        points[i].period == sets[i].title &&
        points[i].uv == |sets[i].tables[0].rows| && points[i].pv == |sets[i].tables[1].rows|
  {
  }

  /** The radar chart and the drill-down agree in the same way, per dimension. */
  lemma RadarCountsMatchTables(dimensions: seq<Detail>)
    ensures var points, sets := RadarData(dimensions), DetailDataSets(dimensions);
      |points| == |sets| &&
      forall i :: 0 <= i < |points| ==>
        points[i].dimension == sets[i].title &&
        points[i].uv == |sets[i].tables[0].rows| && points[i].pv == |sets[i].tables[1].rows|
  {
  }

  /** The single orders table of a region. */
  function OrdersTable(segment: Segment): (t: Table)
    ensures t.key == "orders" && t.columns == PieColumns && t.rows == segment.rows
    ensures t.emptyText == "No " + segment.title + " orders."
  {
    Table("orders", "Orders", PieColumns, segment.rows, "No " + segment.title + " orders.")
  }

  /** `PIE_DATASETS`: one data set per region, in order, holding only its orders table. */
  function PieDataSets(segments: seq<Segment>): (sets: seq<DataSet>)
    ensures |sets| == |segments|
    ensures forall i :: 0 <= i < |segments| ==>
      sets[i].key == segments[i].key && sets[i].title == segments[i].title &&
      sets[i].description == segments[i].description && sets[i].tables == [OrdersTable(segments[i])]
  {
    seq(|segments|, i requires 0 <= i < |segments| =>
      DataSet(segments[i].key, segments[i].title, segments[i].description, [OrdersTable(segments[i])]))
  }

  /** `PIE_DATA`: one slice per region whose value is its number of orders. */
  function PieData(segments: seq<Segment>): (slices: seq<PieSlice>)
    ensures |slices| == |segments|
    ensures forall i :: 0 <= i < |segments| ==>
      slices[i] == PieSlice(segments[i].key, segments[i].title, |segments[i].rows|)
  {
    seq(|segments|, i requires 0 <= i < |segments| =>
      PieSlice(segments[i].key, segments[i].title, |segments[i].rows|))
  }

  /** Slice i and data set i share the key, and the slice's value is the row count of the set's only table. */
  lemma PieCountsMatchTables(segments: seq<Segment>)
    ensures var slices, sets := PieData(segments), PieDataSets(segments);
      |slices| == |sets| &&
      forall i :: 0 <= i < |slices| ==>
        slices[i].key == sets[i].key && |sets[i].tables| == 1 && slices[i].value == |sets[i].tables[0].rows|
  {
  }

  /** The palette slot `(index % 5) + 1`, between 1 and 5. */
  function PaletteSlot(index: nat): (k: nat)
    ensures 1 <= k <= 5
  {
    index % 5 + 1
  }

  /** The palette repeats every five segments. */
  lemma PaletteWraps(index: nat)
    ensures PaletteSlot(index + 5) == PaletteSlot(index)
    ensures index % 5 != 4 ==> PaletteSlot(index + 1) == PaletteSlot(index) + 1
  {
  }

  /** `var(--chart-k)` for a slot k between 1 and 5. */
  function ChartColor(k: nat): string
    requires 1 <= k <= 5
  {
    "var(--chart-" + [('0' as int + k) as char] + ")"
  }

  /** The configuration entry the reducer stores for the segment at `index`. */
  function ConfigEntry(segment: Segment, index: nat): SegmentConfig {
    SegmentConfig(segment.title, ChartColor(PaletteSlot(index)))
  }

  /** The pie configuration after the reducer has visited every segment, in order. */
  function PieConfigOf(segments: seq<Segment>): map<string, SegmentConfig>
  {
    if segments == [] then map[]
    else
      var last := |segments| - 1;
      PieConfigOf(segments[..last])[segments[last].key := ConfigEntry(segments[last], last)]
  }

  /** `PIE_CONFIG`: the `reduce` that assigns each segment's entry into the accumulator. */
  method PieConfig(segments: seq<Segment>) returns (acc: map<string, SegmentConfig>)
    ensures acc == PieConfigOf(segments)
  {
    acc := map[];
    for index := 0 to |segments|
      invariant acc == PieConfigOf(segments[..index])
    {
      assert segments[..index + 1][..index] == segments[..index];
      acc := acc[segments[index].key := ConfigEntry(segments[index], index)];
    }
    assert segments[..|segments|] == segments;
  }

  /** The configuration has exactly the segments' keys. */
  lemma {:induction false} PieConfigKeys(segments: seq<Segment>)
    ensures PieConfigOf(segments).Keys == set i | 0 <= i < |segments| :: segments[i].key
  {
    if segments != [] {
      var last := |segments| - 1;
      PieConfigKeys(segments[..last]);
      var before := set i | 0 <= i < last :: segments[..last][i].key;
      assert before == set i | 0 <= i < last :: segments[i].key by {
        forall i | 0 <= i < last ensures segments[..last][i] == segments[i] { }
      }
      assert (set i | 0 <= i < |segments| :: segments[i].key) == before + {segments[last].key};
    }
  }

  /**
   * The last segment with a given key decides that key's label and colour: a
   * segment no later segment reuses the key of has its own entry in the map.
   */
  lemma {:induction false} PieConfigLastWins(segments: seq<Segment>, i: nat)
    requires i < |segments|
    requires forall j :: i < j < |segments| ==> segments[j].key != segments[i].key
    ensures segments[i].key in PieConfigOf(segments)
    ensures PieConfigOf(segments)[segments[i].key] == ConfigEntry(segments[i], i)
  {
    var last := |segments| - 1;
    if i < last {
      var front := segments[..last];
      assert front[i] == segments[i];
      forall j | i < j < |front| ensures front[j].key != front[i].key {
        assert front[j] == segments[j];
      }
      PieConfigLastWins(front, i);
    }
  }

  /** `WEEK_DETAILS`: three weeks of UV and PV users. */
  const WeekDetails: seq<Detail> := [
    Detail("Week 1", "Week 1", "Week 1 UV/PV user details.",
      [
        UserRow("Ava Chen", "Pro", "2h"),
        UserRow("Leo Park", "Team", "4h"),
        UserRow("Mia Patel", "Pro", "1d"),
        UserRow("Noah Brooks", "Team", "2d"),
        UserRow("Zoe Reed", "Starter", "3d"),
        UserRow("Evan Fox", "Pro", "4d"),
        UserRow("Lila Ortiz", "Team", "5d"),
        UserRow("Owen Price", "Starter", "6d")],
      [
        UserRow("Iris Wang", "Starter", "3h"),
        UserRow("Omar Silva", "Pro", "6h"),
        UserRow("Priya Singh", "Team", "1d"),
        UserRow("Theo Kim", "Starter", "2d"),
        UserRow("Rina Cole", "Pro", "3d"),
        UserRow("Miles Gray", "Team", "4d")]),
    Detail("Week 2", "Week 2", "Week 2 UV/PV user details.",
      [
        UserRow("Callie Stone", "Team", "1h"),
        UserRow("Ravi Shah", "Pro", "5h"),
        UserRow("Jun Park", "Starter", "1d"),
        UserRow("Sage Miller", "Team", "2d"),
        UserRow("Eli Grant", "Pro", "3d"),
        UserRow("Nina West", "Starter", "4d"),
        UserRow("Tara Lane", "Team", "5d")],
      [
        UserRow("Kai Holt", "Starter", "2h"),
        UserRow("Zara Cruz", "Pro", "7h"),
        UserRow("Ivan Reed", "Team", "1d"),
        UserRow("Maya Lowe", "Starter", "2d"),
        UserRow("Cole Young", "Team", "3d")]),
    Detail("Week 3", "Week 3", "Week 3 UV/PV user details.",
      [
        UserRow("Nico Blake", "Pro", "1h"),
        UserRow("Sara Reed", "Team", "3h"),
        UserRow("Drew Cole", "Starter", "8h"),
        UserRow("Milo Kent", "Pro", "1d"),
        UserRow("Jade Avery", "Team", "2d"),
        UserRow("Luca Nash", "Starter", "3d"),
        UserRow("Ari Lane", "Team", "4d"),
        UserRow("Quinn Zane", "Pro", "5d"),
        UserRow("Elle Frost", "Starter", "6d")],
      [
        UserRow("Ben Ward", "Starter", "2h"),
        UserRow("Lia Cross", "Pro", "5h"),
        UserRow("Odin Ray", "Team", "1d"),
        UserRow("Faye Hart", "Starter", "2d"),
        UserRow("Rhys Poe", "Pro", "3d"),
        UserRow("Hope Lynn", "Team", "4d"),
        UserRow("Ivy Snow", "Starter", "5d")])]

  /** `PIE_SEGMENTS`: four regions with their orders. */
  const PieSegments: seq<Segment> := [
    Segment("north", "North", "North region order details.",
      [
        OrderRow("N-1024", "Atelier"),
        OrderRow("N-1029", "Northwind"),
        OrderRow("N-1035", "Aster"),
        OrderRow("N-1041", "Nimble"),
        OrderRow("N-1048", "Nova"),
        OrderRow("N-1053", "Drift")]),
    Segment("south", "South", "South region order details.",
      [
        OrderRow("S-889", "Solstice"),
        OrderRow("S-905", "Terra"),
        OrderRow("S-918", "Arbor"),
        OrderRow("S-940", "Lumen"),
        OrderRow("S-952", "Vista")]),
    Segment("east", "East", "East region order details.",
      [
        OrderRow("E-401", "Kite"),
        OrderRow("E-427", "Vivid"),
        OrderRow("E-438", "Aria"),
        OrderRow("E-452", "Harbor")]),
    Segment("west", "West", "West region order details.",
      [
        OrderRow("W-210", "Quartz"),
        OrderRow("W-218", "Aurora"),
        OrderRow("W-224", "Crest")])]

  /** `RADAR_DIMENSIONS`: four dimensions of UV and PV users. */
  const RadarDimensions: seq<Detail> := [
    Detail("Design", "Design", "Design dimension user details.",
      [
        UserRow("Ava Chen", "Pro", "2h"),
        UserRow("Leo Park", "Team", "4h"),
        UserRow("Mia Patel", "Pro", "1d"),
        UserRow("Noah Brooks", "Team", "2d"),
        UserRow("Zoe Reed", "Starter", "3d"),
        UserRow("Evan Fox", "Pro", "4d")],
      [
        UserRow("Iris Wang", "Starter", "3h"),
        UserRow("Omar Silva", "Pro", "6h"),
        UserRow("Priya Singh", "Team", "1d"),
        UserRow("Theo Kim", "Starter", "2d")]),
    Detail("Velocity", "Velocity", "Velocity dimension user details.",
      [
        UserRow("Callie Stone", "Team", "1h"),
        UserRow("Ravi Shah", "Pro", "5h"),
        UserRow("Jun Park", "Starter", "1d"),
        UserRow("Sage Miller", "Team", "2d"),
        UserRow("Eli Grant", "Pro", "3d")],
      [
        UserRow("Kai Holt", "Starter", "2h"),
        UserRow("Zara Cruz", "Pro", "7h"),
        UserRow("Ivan Reed", "Team", "1d")]),
    Detail("Quality", "Quality", "Quality dimension user details.",
      [
        UserRow("Nico Blake", "Pro", "1h"),
        UserRow("Sara Reed", "Team", "3h"),
        UserRow("Drew Cole", "Starter", "8h"),
        UserRow("Milo Kent", "Pro", "1d"),
        UserRow("Jade Avery", "Team", "2d")],
      [
        UserRow("Ben Ward", "Starter", "2h"),
        UserRow("Lia Cross", "Pro", "5h"),
        UserRow("Odin Ray", "Team", "1d"),
        UserRow("Faye Hart", "Starter", "2d")]),
    Detail("Support", "Support", "Support dimension user details.",
      [
        UserRow("Luca Nash", "Starter", "3d"),
        UserRow("Ari Lane", "Team", "4d"),
        UserRow("Quinn Zane", "Pro", "5d"),
        UserRow("Elle Frost", "Starter", "6d")],
      [
        UserRow("Rhys Poe", "Pro", "3d"),
        UserRow("Hope Lynn", "Team", "4d"),
        UserRow("Ivy Snow", "Starter", "5d")])]

  /** The exported chart points: weeks 8/6, 7/5 and 9/7 users; regions 6, 5, 4 and 3 orders; dimensions 6/4, 5/3, 5/4 and 4/3 users. */
  lemma ExportedPoints()
    ensures BarLineData(WeekDetails) ==
      [BarLinePoint("Week 1", 8, 6), BarLinePoint("Week 2", 7, 5), BarLinePoint("Week 3", 9, 7)]
    ensures PieData(PieSegments) ==
      [PieSlice("north", "North", 6), PieSlice("south", "South", 5), PieSlice("east", "East", 4), PieSlice("west", "West", 3)]
    ensures RadarData(RadarDimensions) ==
      [RadarPoint("Design", 6, 4), RadarPoint("Velocity", 5, 3), RadarPoint("Quality", 5, 4), RadarPoint("Support", 4, 3)]
  {
  }

  /** The exported configuration gives the four regions the first four palette colours. */
  lemma ExportedPieConfig()
    ensures PieConfigOf(PieSegments) == map[
      "north" := SegmentConfig("North", "var(--chart-1)"),
      "south" := SegmentConfig("South", "var(--chart-2)"),
      "east" := SegmentConfig("East", "var(--chart-3)"),
      "west" := SegmentConfig("West", "var(--chart-4)")]
  {
    var s := PieSegments;
    assert ChartColor(1) == "var(--chart-1)" && ChartColor(2) == "var(--chart-2)";
    assert ChartColor(3) == "var(--chart-3)" && ChartColor(4) == "var(--chart-4)";
    assert s[..1][..0] == [];
    assert PieConfigOf(s[..1]) == map["north" := SegmentConfig("North", "var(--chart-1)")];
    assert s[..2][..1] == s[..1];
    assert PieConfigOf(s[..2]) == PieConfigOf(s[..1])["south" := SegmentConfig("South", "var(--chart-2)")];
    assert s[..3][..2] == s[..2];
    assert PieConfigOf(s[..3]) == PieConfigOf(s[..2])["east" := SegmentConfig("East", "var(--chart-3)")];
    assert s[..4][..3] == s[..3];
    assert s[..4] == s;
  }
}

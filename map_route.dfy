/**
 * The route preview map: validation and serialisation of the coordinate prop,
 * the bounding box of the route, the choice between the fetched route and the
 * given points, the marker list, the guard in front of the directions request
 * and the container-size update.
 */
module MapRoute {
  import opened Optional

  /** A JavaScript number: finite, or one of NaN, +Infinity and -Infinity. */
  datatype JsNumber = Finite(value: real) | NonFinite

  /** One entry of the `coordinates` prop: an array of any length, or not an array at all. */
  datatype CoordinateInput = NotAnArray | ArrayOf(items: seq<JsNumber>)

  datatype LngLat = LngLat(lng: real, lat: real)

  /** The four rejections, in the order the checks run. */
  datatype CoordinateError = CountOutOfRange | NotAPair | NotANumber | OutOfRange

  function Message(e: CoordinateError): string {
    match e
    case CountOutOfRange => "Provide between two and 25 coordinate pairs."
    case NotAPair => "Each coordinate must be [longitude, latitude]."
    case NotANumber => "Longitude and latitude must be valid numbers."
    case OutOfRange => "Longitude or latitude is out of range."
  }

  const MinCoordinates: nat := 2
  const MaxCoordinates: nat := 25

  /** The result of `normalizeCoordinates`; `error == None` stands for `error: null`. */
  datatype ParsedCoordinates = ParsedCoordinates(points: seq<LngLat>, serialized: string, error: Option<CoordinateError>)

  /** Every error result carries no points and an empty path. */
  function Rejected(e: CoordinateError): ParsedCoordinates {
    ParsedCoordinates([], "", Some(e))
  }

  /** The inclusive ranges of longitude and latitude. */
  predicate InRange(lng: real, lat: real) {
    -180.0 <= lng <= 180.0 && -90.0 <= lat <= 90.0
  }

  predicate IsPair(c: CoordinateInput) {
    c.ArrayOf? && |c.items| == 2
  }

  /** The verdict on one coordinate. */
  datatype Checked = Accepted(point: LngLat) | Refused(error: CoordinateError)

  /** The per-coordinate checks in the order the loop runs them: arity, finiteness, range. */
  function CheckCoordinate(c: CoordinateInput): (r: Checked)
    ensures r.Refused? ==> r.error != CountOutOfRange
    ensures r == Refused(NotAPair) <==> !IsPair(c)
    ensures r == Refused(NotANumber) <==>
      IsPair(c) && !(c.items[0].Finite? && c.items[1].Finite?)
    ensures r == Refused(OutOfRange) <==>
      IsPair(c) && c.items[0].Finite? && c.items[1].Finite? &&
      !InRange(c.items[0].value, c.items[1].value)
    ensures r.Accepted? <==>
      IsPair(c) && c.items[0].Finite? && c.items[1].Finite? &&
      InRange(c.items[0].value, c.items[1].value)
    ensures r.Accepted? ==> r.point == LngLat(c.items[0].value, c.items[1].value)
  {
    if !IsPair(c) then Refused(NotAPair)
    else
      var lng, lat := c.items[0], c.items[1];
      if !lng.Finite? || !lat.Finite? then Refused(NotANumber)
      else if !InRange(lng.value, lat.value) then Refused(OutOfRange)
      else Accepted(LngLat(lng.value, lat.value))
  }

  /** The outcome of checking a list of coordinates in order. */
  datatype Validated = Points(points: seq<LngLat>) | Stopped(error: CoordinateError)

  /**
   * The coordinates checked front to back, stopping at the first refusal: all of
   * them accepted gives their points in order, otherwise the first refusal decides.
   */
  function ValidatePoints(cs: seq<CoordinateInput>): (r: Validated)
    ensures r.Points? <==> forall j :: 0 <= j < |cs| ==> CheckCoordinate(cs[j]).Accepted?
    ensures r.Points? ==> |r.points| == |cs|
    ensures r.Points? ==> forall j :: 0 <= j < |cs| ==> r.points[j] == CheckCoordinate(cs[j]).point
    ensures r.Stopped? ==> exists j :: 0 <= j < |cs| && CheckCoordinate(cs[j]) == Refused(r.error) &&
                                  forall k :: 0 <= k < j ==> CheckCoordinate(cs[k]).Accepted?
  {
    if cs == [] then Points([])
    else
      var front := ValidatePoints(cs[..|cs| - 1]);
      assert forall j :: 0 <= j < |cs| - 1 ==> cs[..|cs| - 1][j] == cs[j];
      if front.Stopped? then front
      else match CheckCoordinate(cs[|cs| - 1])
        case Refused(e) => Stopped(e)
        case Accepted(p) => Points(front.points + [p])
  }

  /** Once a prefix has been refused, the whole list is refused with the same error. */
  lemma {:induction false} StopPersists(cs: seq<CoordinateInput>, i: nat)
    requires i <= |cs| && ValidatePoints(cs[..i]).Stopped?
    ensures ValidatePoints(cs) == ValidatePoints(cs[..i])
    decreases |cs| - i
  {
    if i < |cs| {
      assert cs[..i + 1][..i] == cs[..i];
      StopPersists(cs, i + 1);
    } else {
      assert cs[..i] == cs;
    }
  }

  /** `points.map(([lng, lat]) => `${lng},${lat}`)`, with the numeral rendering `show` abstracted. */
  function PairText(p: LngLat, show: real -> string): string {
    show(p.lng) + "," + show(p.lat)
  }

  /** JavaScript's `parts.join(sep)`. */
  function Join(parts: seq<string>, sep: char): string {
    if parts == [] then ""
    else if |parts| == 1 then parts[0]
    else parts[0] + [sep] + Join(parts[1..], sep)
  }

  /** The path segment of the directions URL: the points' renderings joined by ';'. */
  function Serialize(points: seq<LngLat>, show: real -> string): string {
    Join(seq(|points|, i requires 0 <= i < |points| => PairText(points[i], show)), ';')
  }

  /**
   * The value `normalizeCoordinates` returns: the count check first, then the
   * coordinates in order.
   */
  function Normalized(cs: seq<CoordinateInput>, show: real -> string): (r: ParsedCoordinates)
    ensures !(MinCoordinates <= |cs| <= MaxCoordinates) ==> r == Rejected(CountOutOfRange)
    ensures r.error.Some? ==> r.points == [] && r.serialized == ""
    ensures r.error.None? <==>
      MinCoordinates <= |cs| <= MaxCoordinates && forall j :: 0 <= j < |cs| ==> CheckCoordinate(cs[j]).Accepted?
    ensures r.error.None? ==> |r.points| == |cs|
    ensures r.error.None? ==>
      forall j :: 0 <= j < |cs| ==> r.points[j] == LngLat(cs[j].items[0].value, cs[j].items[1].value)
    ensures r.error.None? ==> r.serialized == Serialize(r.points, show)
  {
    if |cs| < MinCoordinates || |cs| > MaxCoordinates then Rejected(CountOutOfRange)
    else match ValidatePoints(cs)
      case Stopped(e) => Rejected(e)
      case Points(ps) => ParsedCoordinates(ps, Serialize(ps, show), None)
  }

  /**
   * With an admissible count, the first coordinate that fails a check decides the
   * error, whatever follows it.
   */
  lemma FirstRefusalDecides(cs: seq<CoordinateInput>, show: real -> string, j: nat)
    requires MinCoordinates <= |cs| <= MaxCoordinates && j < |cs|
    requires forall k :: 0 <= k < j ==> CheckCoordinate(cs[k]).Accepted?
    requires CheckCoordinate(cs[j]).Refused?
    ensures Normalized(cs, show) == Rejected(CheckCoordinate(cs[j]).error)
  {
    var r := ValidatePoints(cs);
    assert r.Stopped?;
    var j' :| 0 <= j' < |cs| && CheckCoordinate(cs[j']) == Refused(r.error) &&
      forall k :: 0 <= k < j' ==> CheckCoordinate(cs[k]).Accepted?;
    assert CheckCoordinate(cs[j']).Refused?;
    assert j <= j';
    assert j' <= j;
  }

  /** `normalizeCoordinates`: the loop that pushes each accepted pair and returns at the first refusal. */
  method NormalizeCoordinates(cs: seq<CoordinateInput>, show: real -> string) returns (r: ParsedCoordinates)
    ensures r == Normalized(cs, show)
  {
    if |cs| < MinCoordinates || |cs| > MaxCoordinates {
      return Rejected(CountOutOfRange);
    }
    var points: seq<LngLat> := [];
    var i := 0;
    while i < |cs|
      invariant 0 <= i <= |cs|
      invariant ValidatePoints(cs[..i]) == Points(points)
    {
      var c := cs[i];
      assert cs[..i + 1][..i] == cs[..i];
      if !c.ArrayOf? || |c.items| != 2 {
        StopPersists(cs, i + 1);
        return Rejected(NotAPair);
      }
      var lng, lat := c.items[0], c.items[1];
      if !lng.Finite? || !lat.Finite? {
        StopPersists(cs, i + 1);
        return Rejected(NotANumber);
      }
      if lng.value < -180.0 || lng.value > 180.0 || lat.value < -90.0 || lat.value > 90.0 {
        StopPersists(cs, i + 1);
        return Rejected(OutOfRange);
      }
      points := points + [LngLat(lng.value, lat.value)];
      i := i + 1;
    }
    assert cs[..i] == cs;
    r := ParsedCoordinates(points, Serialize(points, show), None);
  }

  /**
   * JavaScript's `s.split(sep)` for a one-character separator: the decoder of the
   * `join` format, with one more piece than there are separators and no separator
   * left inside a piece.
   */
  function Split(s: string, sep: char): (parts: seq<string>)
    ensures |parts| == Occurrences(s, sep) + 1
    ensures forall k :: 0 <= k < |parts| ==> sep !in parts[k]
  {
    if s == [] then [""]
    else
      var rest := Split(s[1..], sep);
      if s[0] == sep then [""] + rest else [[s[0]] + rest[0]] + rest[1..]
  }

  /** A piece without the separator splits to itself. */
  lemma {:induction false} SplitWithoutSeparator(s: string, sep: char)
    requires sep !in s
    ensures Split(s, sep) == [s]
  {
    if s != [] {
      assert s[0] != sep && sep !in s[1..];
      SplitWithoutSeparator(s[1..], sep);
      assert [s[0]] + s[1..] == s;
    }
  }

  /** Splitting at the first separator peels off the piece before it. */
  lemma {:induction false} SplitAtSeparator(a: string, sep: char, b: string)
    requires sep !in a
    ensures Split(a + [sep] + b, sep) == [a] + Split(b, sep)
  {
    if a == [] {
      assert ([sep] + b)[1..] == b;
    } else {
      assert (a + [sep] + b)[1..] == a[1..] + [sep] + b;
      SplitAtSeparator(a[1..], sep, b);
      assert [a[0]] + a[1..] == a;
    }
  }

  /** `join` and `split` are inverse on non-empty lists of pieces free of the separator. */
  lemma {:induction false} SplitJoin(parts: seq<string>, sep: char)
    requires |parts| >= 1
    requires forall k :: 0 <= k < |parts| ==> sep !in parts[k]
    ensures Split(Join(parts, sep), sep) == parts
  {
    if |parts| == 1 {
      SplitWithoutSeparator(parts[0], sep);
    } else {
      SplitJoin(parts[1..], sep);
      SplitAtSeparator(parts[0], sep, Join(parts[1..], sep));
      assert [parts[0]] + parts[1..] == parts;
    }
  }

  /** The number of occurrences of `c` in `s`. */
  function Occurrences(s: string, c: char): nat {
    if s == [] then 0 else (if s[0] == c then 1 else 0) + Occurrences(s[1..], c)
  }

  lemma {:induction false} OccurrencesAppend(a: string, b: string, c: char)
    ensures Occurrences(a + b, c) == Occurrences(a, c) + Occurrences(b, c)
  {
    if a != [] {
      assert (a + b)[1..] == a[1..] + b;
      OccurrencesAppend(a[1..], b, c);
    } else {
      assert a + b == b;
    }
  }

  lemma {:induction false} NoOccurrences(s: string, c: char)
    requires c !in s
    ensures Occurrences(s, c) == 0
  {
    if s != [] {
      NoOccurrences(s[1..], c);
    }
  }

  /** Joining n separator-free pieces puts exactly n - 1 separators in the result. */
  lemma {:induction false} JoinSeparatorCount(parts: seq<string>, sep: char)
    requires |parts| >= 1
    requires forall k :: 0 <= k < |parts| ==> sep !in parts[k]
    ensures Occurrences(Join(parts, sep), sep) == |parts| - 1
  {
    NoOccurrences(parts[0], sep);
    if |parts| > 1 {
      JoinSeparatorCount(parts[1..], sep);
      OccurrencesAppend(parts[0] + [sep], Join(parts[1..], sep), sep);
      OccurrencesAppend(parts[0], [sep], sep);
    }
  }

  /** The numeral rendering never produces the two separators (true of JavaScript's number-to-string). */
  ghost predicate SeparatorFree(show: real -> string) {
    forall x :: ',' !in show(x) && ';' !in show(x)
  }

  /**
   * The serialised path decodes back: split at ';' it gives one "lng,lat" piece
   * per point, in order, each splitting at ',' into the two numerals; and it
   * holds exactly n - 1 semicolons.
   */
  lemma SerializedRoundTrip(points: seq<LngLat>, show: real -> string)
    requires |points| >= 1 && SeparatorFree(show)
    ensures Split(Serialize(points, show), ';') == seq(|points|, i requires 0 <= i < |points| => PairText(points[i], show))
    ensures Occurrences(Serialize(points, show), ';') == |points| - 1
    ensures forall i :: 0 <= i < |points| ==>
      Split(PairText(points[i], show), ',') == [show(points[i].lng), show(points[i].lat)]
  {
    var parts := seq(|points|, i requires 0 <= i < |points| => PairText(points[i], show));
    forall k | 0 <= k < |parts|
      ensures ';' !in parts[k]
    {
      assert parts[k] == show(points[k].lng) + "," + show(points[k].lat);
      assert ';' !in show(points[k].lng) && ';' !in show(points[k].lat);
    }
    SplitJoin(parts, ';');
    JoinSeparatorCount(parts, ';');
    forall i | 0 <= i < |points|
      ensures Split(PairText(points[i], show), ',') == [show(points[i].lng), show(points[i].lat)]
    {
      var a, b := show(points[i].lng), show(points[i].lat);
      assert ',' !in a && ',' !in b;
      SplitAtSeparator(a, ',', b);
      SplitWithoutSeparator(b, ',');
      assert PairText(points[i], show) == a + [','] + b;
    }
  }

  /** The bounding box `[[minLng, minLat], [maxLng, maxLat]]`. */
  datatype Bounds = Bounds(minLng: real, minLat: real, maxLng: real, maxLat: real)

  datatype RouteMeta = RouteMeta(bounds: Bounds, center: LngLat)

  predicate Within(b: Bounds, p: LngLat) {
    b.minLng <= p.lng <= b.maxLng && b.minLat <= p.lat <= b.maxLat
  }

  /**
   * `getRouteMeta`: no metadata for an empty route; otherwise the smallest box
   * holding every point (each side touches some point) and its centre.
   */
  method GetRouteMeta(coordinates: seq<LngLat>) returns (meta: Option<RouteMeta>)
    ensures meta.None? <==> |coordinates| == 0
    ensures meta.Some? ==> forall j :: 0 <= j < |coordinates| ==> Within(meta.value.bounds, coordinates[j])
    ensures meta.Some? ==>
      var b := meta.value.bounds;
      (exists j :: 0 <= j < |coordinates| && coordinates[j].lng == b.minLng) &&
      (exists j :: 0 <= j < |coordinates| && coordinates[j].lng == b.maxLng) &&
      (exists j :: 0 <= j < |coordinates| && coordinates[j].lat == b.minLat) &&
      (exists j :: 0 <= j < |coordinates| && coordinates[j].lat == b.maxLat)
    ensures meta.Some? ==> Within(meta.value.bounds, meta.value.center)
    ensures meta.Some? ==>
      var b, c := meta.value.bounds, meta.value.center;
      c.lng - b.minLng == b.maxLng - c.lng && c.lat - b.minLat == b.maxLat - c.lat
  {
    if |coordinates| == 0 {
      return None;
    }
    var minLng, maxLng := coordinates[0].lng, coordinates[0].lng;
    var minLat, maxLat := coordinates[0].lat, coordinates[0].lat;
    for i := 0 to |coordinates|
      invariant forall j :: 0 <= j < i ==> Within(Bounds(minLng, minLat, maxLng, maxLat), coordinates[j])
      invariant exists j :: 0 <= j < |coordinates| && coordinates[j].lng == minLng
      invariant exists j :: 0 <= j < |coordinates| && coordinates[j].lng == maxLng
      invariant exists j :: 0 <= j < |coordinates| && coordinates[j].lat == minLat
      invariant exists j :: 0 <= j < |coordinates| && coordinates[j].lat == maxLat
      invariant minLng <= maxLng && minLat <= maxLat
    {
      var p := coordinates[i];
      minLng := if p.lng < minLng then p.lng else minLng;
      maxLng := if p.lng > maxLng then p.lng else maxLng;
      minLat := if p.lat < minLat then p.lat else minLat;
      maxLat := if p.lat > maxLat then p.lat else maxLat;
    }
    var bounds := Bounds(minLng, minLat, maxLng, maxLat);
    meta := Some(RouteMeta(bounds, LngLat((minLng + maxLng) / 2.0, (minLat + maxLat) / 2.0)));
  }

  /** A GeoJSON position of the fetched route; anything after longitude and latitude is in `rest`. */
  datatype Position = Position(lng: real, lat: real, rest: seq<real>)

  /**
   * `routeCoordinates`: the fetched route's positions, cut to longitude and
   * latitude, when there are any; otherwise the validated points.
   */
  function RouteCoordinates(route: Option<seq<Position>>, parsedPoints: seq<LngLat>): (r: seq<LngLat>)
    ensures route.Some? && |route.value| > 0 ==>
      |r| == |route.value| && forall i :: 0 <= i < |r| ==> r[i] == LngLat(route.value[i].lng, route.value[i].lat)
    ensures route.None? || |route.value| == 0 ==> r == parsedPoints
  {
    if route.Some? && |route.value| > 0 then
      seq(|route.value|, i requires 0 <= i < |route.value| => LngLat(route.value[i].lng, route.value[i].lat))
    else parsedPoints
  }

  /** A marker icon supplied by the caller (a component or a ready element). */
  datatype MarkerIcon = IconComponent(name: string) | IconElement(name: string)

  datatype MarkerConfig = MarkerConfig(icon: Option<MarkerIcon>)

  datatype ResolvedMarker = ResolvedMarker(point: LngLat, icon: Option<MarkerIcon>, usesDefault: bool)

  /** The icon configured for marker `index`, if the list has such an entry. */
  function ConfiguredIcon(markers: Option<seq<MarkerConfig>>, index: nat): Option<MarkerIcon> {
    if markers.Some? && index < |markers.value| then markers.value[index].icon else None
  }

  /**
   * `resolvedMarkers`: one marker per validated point, in order, carrying the icon
   * configured at the same index and falling back to the default pin without one.
   */
  function ResolvedMarkers(points: seq<LngLat>, markers: Option<seq<MarkerConfig>>): (rs: seq<ResolvedMarker>)
    ensures |rs| == |points|
    ensures forall i :: 0 <= i < |rs| ==> rs[i].point == points[i] && rs[i].icon == ConfiguredIcon(markers, i)
    ensures forall i :: 0 <= i < |rs| ==> (rs[i].usesDefault <==> rs[i].icon.None?)
  {
    seq(|points|, i requires 0 <= i < |points| =>
      var icon := ConfiguredIcon(markers, i);
      ResolvedMarker(points[i], icon, icon.None?))
  }

  /** What the directions effect does for the current props. */
  datatype RouteRequest = Idle | TooFewPoints | Fetch(path: string)

  /** The guards of the directions effect: no token or an invalid prop, fewer than two points, or a fetch. */
  function RouteRequestFor(hasToken: bool, parsed: ParsedCoordinates): (req: RouteRequest)
    ensures req.Idle? <==> !hasToken || parsed.error.Some?
    ensures req.TooFewPoints? <==> hasToken && parsed.error.None? && |parsed.points| < 2
    ensures req.Fetch? ==> |parsed.points| >= 2 && req.path == parsed.serialized
  {
    if !hasToken || parsed.error.Some? then Idle
    else if |parsed.points| < 2 then TooFewPoints
    else Fetch(parsed.serialized)
  }

  /**
   * After `normalizeCoordinates` the "at least two coordinates" branch cannot be
   * taken: a fetch happens exactly when there is a token and the prop is valid.
   */
  lemma TooFewPointsUnreachable(cs: seq<CoordinateInput>, show: real -> string, hasToken: bool)
    ensures RouteRequestFor(hasToken, Normalized(cs, show)) != TooFewPoints
    ensures RouteRequestFor(hasToken, Normalized(cs, show)).Fetch? <==>
      hasToken && Normalized(cs, show).error.None?
  {
  }

  /** `Math.round`: the nearest integer, halves rounded up. */
  function RoundJs(x: real): (r: int)
    ensures r as real - 0.5 <= x < r as real + 0.5
  {
    (x + 0.5).Floor
  }

  /** The container size in whole pixels. */
  datatype Size = Size(width: int, height: int)

  /** The updater handed to `setContainerSize`: keep the previous object, or replace it. */
  datatype SizeUpdate = KeepPrevious | Replace(size: Size)

  function ApplyUpdate(prev: Size, u: SizeUpdate): Size {
    if u.KeepPrevious? then prev else u.size
  }

  /**
   * The resize observer's update: the previous object is kept exactly when the
   * rounded measurements equal it, and the resulting size is always the rounded one.
   */
  function NextContainerSize(prev: Size, width: real, height: real): (u: SizeUpdate)
    ensures u.KeepPrevious? <==> prev == Size(RoundJs(width), RoundJs(height))
    ensures ApplyUpdate(prev, u) == Size(RoundJs(width), RoundJs(height))
  {
    var nextWidth, nextHeight := RoundJs(width), RoundJs(height);
    if prev.width == nextWidth && prev.height == nextHeight then KeepPrevious
    else Replace(Size(nextWidth, nextHeight))
  }

  /** A repeated measurement keeps the object the first one produced. */
  lemma RepeatedMeasurementKeeps(prev: Size, width: real, height: real)
    ensures NextContainerSize(ApplyUpdate(prev, NextContainerSize(prev, width, height)), width, height) == KeepPrevious
  {
  }
}

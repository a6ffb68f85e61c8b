/**
 * The pure parts of the `App` view (frontend/src/App.js): the scatter plot's
 * points, the tooltip lines, `data[index]` for a clicked point, and when the
 * detail modal is open and embeds a video.
 */
module View {
  import opened Wire

  /** `selectedPoint`: `null`, `undefined` (what an out-of-range `data[index]` yields) or a record. */
  datatype Selection = Null | Undefined | Picked(record: Record)

  /** `Boolean(selectedPoint)`: only a record is truthy, so only a record opens the modal. */
  predicate IsOpen(s: Selection) {
    s.Picked?
  }

  /**
   * `null` and `undefined` are falsy, every object is truthy. Truthiness itself
   * is modelled by `IsOpen`'s definition; with `Selection`'s three constructors
   * this lemma only spells out that definition case by case.
   */
  lemma OnlyARecordIsTruthy(s: Selection)
    ensures IsOpen(s) <==> s != Null && s != Undefined
  {
  }

  /** `data[index]` as JavaScript evaluates it: the record at a valid index, `undefined` elsewhere. */
  function Resolve(data: seq<Record>, index: int): (s: Selection)
    ensures IsOpen(s) <==> 0 <= index < |data|
    ensures IsOpen(s) ==> s.record == data[index]
    ensures !IsOpen(s) ==> s == Undefined
  {
    if 0 <= index < |data| then Picked(data[index]) else Undefined
  }

  /** A point of the scatter plot. */
  datatype Point = Point(x: Value, y: Value)

  /**
   * `data.map(d => ({x: d.LAUNCH_ANGLE, y: d.EXIT_SPEED}))`: one point per
   * record, at the record's position, plotting launch angle against exit speed.
   */
  function ChartPoints(data: seq<Record>): (points: seq<Point>)
    ensures |points| == |data|
    ensures forall i :: 0 <= i < |data| ==>
              points[i] == Point(Column(data[i], LaunchAngle), Column(data[i], ExitSpeed))
  {
    if data == [] then []
    else [Point(data[0].launchAngle, data[0].exitSpeed)] + ChartPoints(data[1..])
  }

  /**
   * Positional identity: clicking the point drawn at index `i` selects the
   * record that point was drawn from.
   */
  lemma ClickedPointIsPlotted(data: seq<Record>, i: int)
    requires 0 <= i < |ChartPoints(data)|
    ensures Resolve(data, i) == Picked(data[i])
    ensures ChartPoints(data)[i] ==
            Point(Column(Resolve(data, i).record, LaunchAngle), Column(Resolve(data, i).record, ExitSpeed))
  {
  }

  /**
   * Template-literal interpolation `${v}`: a string as it is, a number as
   * `numText` writes it (JavaScript's Number-to-String conversion).
   */
  function Interpolate(v: Value, numText: real -> string): string {
    match v
    case Text(s) => s
    case Number(n) => numText(n)
  }

  /** The columns the tooltip shows, with the caption before and the unit after each value. */
  const TooltipColumns: seq<Col> := [Batter, Pitcher, ExitSpeed, LaunchAngle, HitDistance, PlayOutcome]
  const Captions: seq<string> := ["Batter: ", "Pitcher: ", "Exit Speed: ", "Launch Angle: ", "Distance: ", "Outcome: "]
  const Units: seq<string> := ["", "", " mph", "°", " ft", ""]

  /** The tooltip `label` callback's lines for the record under the cursor. */
  function Label(point: Record, numText: real -> string): (lines: seq<string>)
    ensures |lines| == |TooltipColumns|
    ensures forall k :: 0 <= k < |lines| ==>
              lines[k] == Captions[k] + Interpolate(Column(point, TooltipColumns[k]), numText) + Units[k]
  {
    [ "Batter: " + Interpolate(point.batter, numText),
      "Pitcher: " + Interpolate(point.pitcher, numText),
      "Exit Speed: " + Interpolate(point.exitSpeed, numText) + " mph",
      "Launch Angle: " + Interpolate(point.launchAngle, numText) + "°",
      "Distance: " + Interpolate(point.hitDistance, numText) + " ft",
      "Outcome: " + Interpolate(point.playOutcome, numText) ]
  }

  /** JavaScript truthiness of a JSON scalar. */
  predicate Truthy(v: Value) {
    match v
    case Text(s) => s != ""
    case Number(n) => n != 0.0
  }

  /** `selectedPoint.VIDEO_LINK && ...`: the modal embeds a video only for a selected record with a truthy link. */
  predicate ShowsVideo(s: Selection)
    ensures ShowsVideo(s) ==> IsOpen(s)
  {
    IsOpen(s) && Truthy(s.record.videoLink)
  }
}

/** The track-dominance map: driver 1's racing line drawn point by point,
    each point coloured by which driver was ahead there, and a scrubber dot
    at the hovered sample. */
module TrackMap {
  import opened Values

  /** Driver 1's position samples. */
  datatype Series = Series(x: seq<real>, y: seq<real>)

  /** The part of the telemetry payload the map reads: `d1` and `delta`. */
  datatype TrackData = TrackData(d1: Series, delta: seq<real>)

  /** A plotted point; its `y` is `undefined` when the index runs past `d1.Y`. */
  datatype Point = Point(x: real, y: Option<real>)

  datatype Trace = TrackTrace(x: seq<real>, y: seq<real>, colors: seq<string>) | ScrubberTrace(at: Point)

  datatype MapView = NoTrackData | Plot(traces: seq<Trace>)

  /** Driver 1 ahead (cyan) and driver 2 ahead (red). */
  const CyanHex := "#06b6d4"
  const RedHex := "#ef4444"

  /** `delta.map(d => d < 0 ? cyan : red)`: one colour per sample, cyan
      exactly where the delta is negative, red elsewhere, zero included. */
  function Dominance(delta: seq<real>): (colors: seq<string>)
    ensures |colors| == |delta|
    ensures forall i :: 0 <= i < |delta| ==> (colors[i] == CyanHex <==> delta[i] < 0.0)
    ensures forall i :: 0 <= i < |delta| ==> (colors[i] == RedHex <==> delta[i] >= 0.0)
  {
    if |delta| == 0 then []
    else [if delta[0] < 0.0 then CyanHex else RedHex] + Dominance(delta[1..])
  }

  /** JavaScript indexing: the element, or `undefined` outside the array. */
  function At(s: seq<real>, i: int): (v: Option<real>)
    ensures v.Some? <==> 0 <= i < |s|
    ensures v.Some? ==> v.value == s[i]
  {
    if 0 <= i < |s| then Some(s[i]) else None
  }

  /** The dominance trace: driver 1's line, each sample cyan where driver 1
      was ahead (negative delta) and red elsewhere. */
  function Track(data: TrackData): (t: Trace)
    ensures t.TrackTrace? && t.x == data.d1.x && t.y == data.d1.y
    ensures |t.colors| == |data.delta|
    ensures forall i :: 0 <= i < |data.delta| ==> (t.colors[i] == CyanHex <==> data.delta[i] < 0.0)
    ensures forall i :: 0 <= i < |data.delta| ==> (t.colors[i] == RedHex <==> data.delta[i] >= 0.0)
  {
    TrackTrace(data.d1.x, data.d1.y, Dominance(data.delta))
  }

  /** The scrubber, as the guard is written: no dot when `hoverIndex` is null
      or undefined, or when `d1.X[hoverIndex]` is falsy, which is the case
      both for an index outside the samples and for an X of exactly 0. */
  function Scrubber(d1: Series, hover: Option<int>): (p: Option<Point>)
    ensures p.Some? <==> hover.Some? && 0 <= hover.value < |d1.x| && d1.x[hover.value] != 0.0
    ensures p.Some? ==> p.value == Point(d1.x[hover.value], At(d1.y, hover.value))
  {
    if hover.None? then None
    else
      var x := At(d1.x, hover.value);
      if x.None? || x.value == 0.0 then None
      else Some(Point(x.value, At(d1.y, hover.value)))
  }

  /** `plotData`: the track first, the scrubber after it when there is one. */
  function PlotData(data: TrackData, hover: Option<int>): (traces: seq<Trace>)
    ensures 1 <= |traces| <= 2
    ensures traces[0] == Track(data)
    ensures |traces| == 2 <==> Scrubber(data.d1, hover).Some?
    ensures |traces| == 2 ==> traces[1] == ScrubberTrace(Scrubber(data.d1, hover).value)
  {
    var scrubber := Scrubber(data.d1, hover);
    [Track(data)] + (if scrubber.Some? then [ScrubberTrace(scrubber.value)] else [])
  }

  /** The placeholder when there is no data, otherwise the plot. */
  function Render(data: Option<TrackData>, hover: Option<int>): (v: MapView)
    ensures v.NoTrackData? <==> data.None?
    ensures v.Plot? ==> v.traces == PlotData(data.value, hover)
  {
    match data
    case None => NoTrackData
    case Some(d) => Plot(PlotData(d, hover))
  }

  /** Colouring concatenated deltas is concatenating the colourings. */
  lemma DominanceOfConcat(a: seq<real>, b: seq<real>)
    ensures Dominance(a + b) == Dominance(a) + Dominance(b)
  {
  }

  /** As written, a hovered sample whose X is exactly 0 shows no dot, though
      the index is valid and the point exists. */
  lemma ScrubberHiddenAtZeroX(data: TrackData, i: int)
    requires 0 <= i < |data.d1.x| && data.d1.x[i] == 0.0
    ensures PlotData(data, Some(i)) == [Track(data)]
  {
  }

  /** Hovering a sample with a non-zero X puts the dot on that sample, last. */
  lemma ScrubberFollowsHover(data: TrackData, i: int)
    requires 0 <= i < |data.d1.x| && data.d1.x[i] != 0.0
    ensures PlotData(data, Some(i)) == [Track(data), ScrubberTrace(Point(data.d1.x[i], At(data.d1.y, i)))]
  {
  }

  /** Without a hover index, or with one outside the samples, only the track is drawn. */
  lemma NoHoverNoScrubber(data: TrackData, i: int)
    requires i < 0 || i >= |data.d1.x|
    ensures PlotData(data, None) == [Track(data)]
    ensures PlotData(data, Some(i)) == [Track(data)]
  {
  }
}

/** The "Saved History" side panel: one fetch of the archived runs on mount,
    failures logged and otherwise ignored, and a loading flag that drops when
    the fetch settles either way. */
module Sidebar {
  import opened Values
  import opened ComparisonModel

  datatype Panel = Panel(comparisons: seq<Comparison>, loading: bool)

  /** What the panel shows: the loading line, the entries, and the
      "No history found." line. */
  datatype PanelView = PanelView(loadingLine: bool, entries: seq<Comparison>, noHistoryLine: bool)

  /** The state before the first render. */
  const Initial := Panel([], true)

  /** `fetchComparisons` once its request settled: the list takes the data on
      success and is untouched on failure; `finally` clears the flag. */
  function Settle(p: Panel, outcome: FetchOutcome<seq<Comparison>>): (p': Panel)
    ensures !p'.loading
    ensures outcome.Fetched? ==> p'.comparisons == outcome.data
    ensures outcome.FetchError? ==> p'.comparisons == p.comparisons
  {
    match outcome
    case Fetched(data) => Panel(data, false)
    case FetchError => p.(loading := false)
  }

  /** Entries appear only once loading is over; the empty-history line
      appears exactly when loading is over and there is nothing to list. */
  function Render(p: Panel): (v: PanelView)
    ensures v.loadingLine <==> p.loading
    ensures p.loading ==> v.entries == []
    ensures !p.loading ==> v.entries == p.comparisons
    ensures v.noHistoryLine <==> !p.loading && |p.comparisons| == 0
  {
    if p.loading then PanelView(true, [], false)
    else PanelView(false, p.comparisons, |p.comparisons| == 0)
  }

  /** Before the fetch settles the panel shows only the loading line. */
  lemma FirstRenderIsLoading()
    ensures Render(Initial) == PanelView(true, [], false)
  {
  }

  /** The only fetch leaves the panel either listing exactly the response or,
      after a failure, showing that there is no history. */
  lemma MountedFetchSettles(outcome: FetchOutcome<seq<Comparison>>)
    ensures var v := Render(Settle(Initial, outcome));
      && !v.loadingLine
      && (outcome.Fetched? ==> v.entries == outcome.data && (v.noHistoryLine <==> |outcome.data| == 0))
      && (outcome.FetchError? ==> v.entries == [] && v.noHistoryLine)
  {
  }

  /** The loading line, the entries and the empty-history line never show
      together: exactly one of the three is the panel's content. */
  lemma ViewsExclusive(p: Panel)
    ensures var v := Render(p);
      (if v.loadingLine then 1 else 0) + (if |v.entries| > 0 then 1 else 0) + (if v.noHistoryLine then 1 else 0) == 1
  {
  }
}

/** The garage view: a list of archived runs fetched from the server, with its
    own loading / success / error status, a retry in the error view, and a
    "Load Analysis" button per run that hands the run to the `onLoad` prop. */
module HistoryGallery {
  import opened Values
  import opened ComparisonModel
  import Controls

  /** The `status` state: `'loading'`, `'success'` or `'error'`. */
  datatype Status = Loading | Succeeded | Failed

  /** The component's three pieces of state. */
  datatype Gallery = Gallery(comparisons: seq<Comparison>, status: Status, errorMsg: string)

  /** What can happen to the component: it mounts, the user presses retry or
      the load button of the card at `index`, or the pending fetch settles. */
  datatype Event = Mounted | RetryClicked | LoadClicked(index: int) | Settled(outcome: FetchOutcome<seq<Comparison>>)

  /** What the component does to the outside: a `GET /comparisons` request,
      or a call of `onLoad` with one run. */
  datatype Effect = FetchComparisons | CallOnLoad(item: Comparison)

  datatype Step = Step(state: Gallery, effects: seq<Effect>)

  /** One card: the run it shows and the label of its session. */
  datatype Card = Card(item: Comparison, sessionLabel: string)

  /** The four views the component can render. */
  datatype View = LoadingView | ErrorView(message: string) | EmptyGarage | Cards(cards: seq<Card>)

  const DbErrorMsg := "Database Connection Error"

  /** The state before the first render. */
  const Initial := Gallery([], Loading, "")

  /** The session line of a card: `Q` and `R` are spelled out, anything else
      is shown as it is. */
  function SessionLabel(session: string): (shown: string)
    ensures session == "Q" ==> shown == "Qualifying"
    ensures session == "R" ==> shown == "Race"
    ensures session != "Q" && session != "R" ==> shown == session
  {
    if session == "Q" then "Qualifying" else if session == "R" then "Race" else session
  }

  /** Every session the query form offers reads differently in the garage;
      a session stored as the text "Race" reads the same as "R". */
  lemma OfferedSessionsReadApart(s1: string, s2: string)
    requires s1 in Controls.Options(Controls.Session) && s2 in Controls.Options(Controls.Session)
    ensures s1 != s2 ==> SessionLabel(s1) != SessionLabel(s2)
    ensures SessionLabel("Race") == SessionLabel("R")
  {
  }

  /** The cards of a list of runs, in list order. */
  function CardsOf(items: seq<Comparison>): (cards: seq<Card>)
    ensures |cards| == |items|
    ensures forall i :: 0 <= i < |items| ==>
      cards[i].item == items[i] && cards[i].sessionLabel == SessionLabel(items[i].session)
  {
    if |items| == 0 then [] else [Card(items[0], SessionLabel(items[0].session))] + CardsOf(items[1..])
  }

  /** The view: loading first, then the error, then the empty garage, then
      one card per run. */
  function Render(g: Gallery): (v: View)
    ensures v.LoadingView? <==> g.status == Loading
    ensures v.ErrorView? <==> g.status == Failed
    ensures v.ErrorView? ==> v.message == g.errorMsg
    ensures v.EmptyGarage? <==> g.status == Succeeded && |g.comparisons| == 0
    ensures v.Cards? <==> g.status == Succeeded && |g.comparisons| > 0
    ensures v.Cards? ==> v.cards == CardsOf(g.comparisons)
  {
    match g.status
    case Loading => LoadingView
    case Failed => ErrorView(g.errorMsg)
    case Succeeded => if |g.comparisons| == 0 then EmptyGarage else Cards(CardsOf(g.comparisons))
  }

  /** `fetchHistory` up to its `await`: the status becomes loading and one
      request goes out; the list and the message are kept. */
  function FetchHistory(g: Gallery): (st: Step)
    ensures st.state == g.(status := Loading)
    ensures st.effects == [FetchComparisons]
  {
    Step(Gallery(g.comparisons, Loading, g.errorMsg), [FetchComparisons])
  }

  /** `fetchHistory` after its `await`: on success the list is replaced and the
      status is success (an earlier message stays, unseen); on failure the
      status is error with the fixed message and the list is kept. */
  function Settle(g: Gallery, outcome: FetchOutcome<seq<Comparison>>): (g': Gallery)
    ensures g'.status != Loading
    ensures g'.status == Succeeded <==> outcome.Fetched?
    ensures outcome.Fetched? ==> g'.comparisons == outcome.data && g'.errorMsg == g.errorMsg
    ensures outcome.FetchError? ==> g'.comparisons == g.comparisons && g'.errorMsg == DbErrorMsg
  {
    match outcome
    case Fetched(data) => Gallery(data, Succeeded, g.errorMsg)
    case FetchError => Gallery(g.comparisons, Failed, DbErrorMsg)
  }

  /** One event. Retry exists only in the error view and the load buttons only
      on cards, so pressing them elsewhere does nothing. Every event emits at
      most one effect. */
  function Handle(g: Gallery, e: Event): (st: Step)
    ensures |st.effects| <= 1
    ensures e.Mounted? ==> st == FetchHistory(g)
    ensures e.Settled? ==> st == Step(Settle(g, e.outcome), [])
    ensures e.LoadClicked? ==> st.state == g
    ensures e.LoadClicked? && Render(g).Cards? && 0 <= e.index < |g.comparisons| ==>
      st.effects == [CallOnLoad(g.comparisons[e.index])]
    ensures e.LoadClicked? && !(Render(g).Cards? && 0 <= e.index < |g.comparisons|) ==> st.effects == []
    ensures e.RetryClicked? && g.status == Failed ==> st == FetchHistory(g)
    ensures e.RetryClicked? && g.status != Failed ==> st == Step(g, [])
  {
    match e
    case Mounted => FetchHistory(g)
    case RetryClicked =>
      if Render(g).ErrorView? then FetchHistory(g) else Step(g, [])
    case LoadClicked(k) =>
      var v := Render(g);
      if v.Cards? && 0 <= k < |v.cards| then Step(g, [CallOnLoad(v.cards[k].item)]) else Step(g, [])
    case Settled(outcome) => Step(Settle(g, outcome), [])
  }

  /** The state reached from `g` by a sequence of events, and every effect
      emitted on the way, in order. No event emits more than one effect, so a
      run emits at most as many effects as it has events. */
  function Run(g: Gallery, events: seq<Event>): (st: Step)
    ensures |st.effects| <= |events|
    decreases |events|
  {
    if |events| == 0 then Step(g, [])
    else
      var first := Handle(g, events[0]);
      var rest := Run(first.state, events[1..]);
      Step(rest.state, first.effects + rest.effects)
  }

  /** An error status always shows the fixed database message. */
  ghost predicate Consistent(g: Gallery) {
    g.status == Failed ==> g.errorMsg == DbErrorMsg
  }

  /** Replaying `a` and then `b` is replaying `a + b`: the effects of the two
      parts are emitted back to back, and `b` starts where `a` left off. */
  lemma {:induction false} RunConcat(g: Gallery, a: seq<Event>, b: seq<Event>)
    ensures var first := Run(g, a);
      var second := Run(first.state, b);
      Run(g, a + b) == Step(second.state, first.effects + second.effects)
    decreases |a|
  {
    if |a| == 0 {
      assert a + b == b;
    } else {
      var h := Handle(g, a[0]);
      assert (a + b)[0] == a[0];
      assert (a + b)[1..] == a[1..] + b;
      RunConcat(h.state, a[1..], b);
      var mid := Run(h.state, a[1..]);
      var second := Run(mid.state, b);
      assert h.effects + (mid.effects + second.effects) == (h.effects + mid.effects) + second.effects;
    }
  }

  /** The first render shows the loading view, and mounting sends exactly one request. */
  lemma MountFetchesOnce()
    ensures Render(Initial) == LoadingView
    ensures Handle(Initial, Mounted) == Step(Initial, [FetchComparisons])
  {
  }

  /** Every event keeps an error status paired with the database message. */
  lemma HandlePreservesConsistent(g: Gallery, e: Event)
    requires Consistent(g)
    ensures Consistent(Handle(g, e).state)
  {
  }

  /** Any run of events from a consistent state stays consistent. */
  lemma {:induction false} RunPreservesConsistent(g: Gallery, events: seq<Event>)
    requires Consistent(g)
    ensures Consistent(Run(g, events).state)
    decreases |events|
  {
    if |events| > 0 {
      HandlePreservesConsistent(g, events[0]);
      RunPreservesConsistent(Handle(g, events[0]).state, events[1..]);
    }
  }

  /** Pressing the same card twice calls `onLoad` twice with the same run. */
  lemma RepeatedLoadIsNotSuppressed(g: Gallery, k: int)
    requires g.status == Succeeded && 0 <= k < |g.comparisons|
    ensures Run(g, [LoadClicked(k), LoadClicked(k)])
         == Step(g, [CallOnLoad(g.comparisons[k]), CallOnLoad(g.comparisons[k])])
  {
    var once := Run(g, [LoadClicked(k)]);
    assert once == Step(g, [CallOnLoad(g.comparisons[k])]) by {
      assert [LoadClicked(k)][1..] == [];
      assert Run(g, []) == Step(g, []);
      assert Render(g).Cards?;
      assert Handle(g, LoadClicked(k)) == Step(g, [CallOnLoad(g.comparisons[k])]);
      assert [CallOnLoad(g.comparisons[k])] + [] == [CallOnLoad(g.comparisons[k])];
    }
    assert [LoadClicked(k), LoadClicked(k)][1..] == [LoadClicked(k)];
  }

  /** A failed first fetch leaves the empty list in the error view; retrying
      then succeeding shows the fetched runs. Two requests go out in all. */
  lemma RetryRecovers(data: seq<Comparison>)
    ensures var st := Run(Initial, [Mounted, Settled(FetchError), RetryClicked, Settled(Fetched(data))]);
      && st.state == Gallery(data, Succeeded, DbErrorMsg)
      && st.effects == [FetchComparisons, FetchComparisons]
  {
    var failed := Gallery([], Failed, DbErrorMsg);
    var retrying := Gallery([], Loading, DbErrorMsg);
    var done := Gallery(data, Succeeded, DbErrorMsg);
    assert Run(retrying, [Settled(Fetched(data))]) == Step(done, []) by {
      assert [Settled(Fetched(data))][1..] == [];
    }
    assert Run(failed, [RetryClicked, Settled(Fetched(data))]) == Step(done, [FetchComparisons]) by {
      assert [RetryClicked, Settled(Fetched(data))][1..] == [Settled(Fetched(data))];
    }
    assert Run(Initial, [Settled(FetchError), RetryClicked, Settled(Fetched(data))])
        == Step(done, [FetchComparisons]) by {
      assert [Settled(FetchError), RetryClicked, Settled(Fetched(data))][1..]
          == [RetryClicked, Settled(Fetched(data))];
    }
    assert [Mounted, Settled(FetchError), RetryClicked, Settled(Fetched(data))][1..]
        == [Settled(FetchError), RetryClicked, Settled(Fetched(data))];
  }
}

/** The query form: five selects over a `params` record, the Analyze button
    that hands the record to the `onAnalyze` prop, and the error banner. */
module Controls {
  import opened Values

  /** The form record; every value is the text of a selected option. */
  datatype Params = Params(year: string, race: string, session: string, driver1: string, driver2: string)

  datatype Field = Year | Race | Session | Driver1 | Driver2

  /** The props the parent passes: whether `onAnalyze` is supplied, `status`
      (absent when not passed), and `errorMsg` (an absent one renders as
      nothing, which is the empty text here). */
  datatype Props = Props(hasOnAnalyze: bool, status: Option<string>, errorMsg: string)

  /** The Analyze button as rendered. */
  datatype Button = Button(disabled: bool, caption: string)

  /** The initial selection. */
  const Defaults := Params("2024", "Silverstone", "Q", "VER", "NOR")

  /** The props the application shell passes: none at all. */
  const ShellProps := Props(false, None, "")

  const DriverOptions: seq<string> := ["VER", "PER", "LEC", "SAI", "HAM", "RUS", "NOR", "PIA", "ALO"]

  /** The option values each select offers (values, not captions). */
  function Options(f: Field): seq<string> {
    match f
    case Year => ["2025", "2024", "2023"]
    case Race => ["Bahrain", "Saudi Arabia", "Australia", "Miami", "Monaco", "Spain", "Canada",
                  "Austria", "Silverstone", "Hungary", "Spa", "Monza", "Singapore", "Suzuka",
                  "Austin", "Las Vegas", "Abu Dhabi"]
    case Session => ["Q", "R", "FP1", "FP2"]
    case Driver1 => DriverOptions
    case Driver2 => DriverOptions
  }

  function Get(p: Params, f: Field): string {
    match f
    case Year => p.year
    case Race => p.race
    case Session => p.session
    case Driver1 => p.driver1
    case Driver2 => p.driver2
  }

  /** One select's `onChange`: `{ ...params, [f]: v }`. The chosen field takes
      the new value and the other four keep theirs. */
  function Change(p: Params, f: Field, v: string): (p': Params)
    ensures Get(p', f) == v
    ensures forall g :: g != f ==> Get(p', g) == Get(p, g)
  {
    match f
    case Year => p.(year := v)
    case Race => p.(race := v)
    case Session => p.(session := v)
    case Driver1 => p.(driver1 := v)
    case Driver2 => p.(driver2 := v)
  }

  /** Every field holds one of its select's option values. */
  predicate Selectable(p: Params) {
    forall f :: Get(p, f) in Options(f)
  }

  /** The Analyze button: disabled, and captioned "Loading...", exactly while
      the status is `'loading'`. */
  function RenderButton(props: Props): (b: Button)
    ensures b.disabled <==> props.status == Some("loading")
    ensures b.caption == "Loading..." <==> b.disabled
    ensures !b.disabled ==> b.caption == "Analyze"
  {
    if props.status == Some("loading") then Button(true, "Loading...") else Button(false, "Analyze")
  }

  /** The error banner: present exactly when the status is `'error'`, showing
      `errorMsg`. */
  function RenderBanner(props: Props): (banner: Option<string>)
    ensures banner.Some? <==> props.status == Some("error")
    ensures banner.Some? ==> banner.value == props.errorMsg
  {
    if props.status == Some("error") then Some(props.errorMsg) else None
  }

  /** `handleAnalyze`: the current params, unchanged, go to `onAnalyze` if one
      was supplied; otherwise nothing happens. */
  function HandleAnalyze(props: Props, p: Params): (call: Option<Params>)
    ensures call.Some? <==> props.hasOnAnalyze
    ensures call.Some? ==> call.value == p
  {
    if props.hasOnAnalyze then Some(p) else None
  }

  /** A click on the Analyze button: a disabled button fires no click handler. */
  function ClickAnalyze(props: Props, p: Params): (call: Option<Params>)
    ensures call.Some? <==> props.hasOnAnalyze && props.status != Some("loading")
    ensures call.Some? ==> call.value == p
  {
    if RenderButton(props).disabled then None else HandleAnalyze(props, p)
  }

  /** The defaults are among the offered options. */
  lemma DefaultsSelectable()
    ensures Selectable(Defaults)
  {
  }

  /** Choosing an offered option keeps every field selectable. */
  lemma ChangePreservesSelectable(p: Params, f: Field, v: string)
    requires Selectable(p) && v in Options(f)
    ensures Selectable(Change(p, f, v))
  {
  }

  /** The form after a sequence of select changes. */
  function ApplyChanges(p: Params, changes: seq<(Field, string)>): Params
    decreases |changes|
  {
    if |changes| == 0 then p else ApplyChanges(Change(p, changes[0].0, changes[0].1), changes[1..])
  }

  /** Whatever offered options the user picks, in whatever order, the form
      holds only offered values. */
  lemma {:induction false} ChangesStaySelectable(p: Params, changes: seq<(Field, string)>)
    requires Selectable(p)
    requires forall i :: 0 <= i < |changes| ==> changes[i].1 in Options(changes[i].0)
    ensures Selectable(ApplyChanges(p, changes))
    decreases |changes|
  {
    if |changes| > 0 {
      ChangePreservesSelectable(p, changes[0].0, changes[0].1);
      ChangesStaySelectable(Change(p, changes[0].0, changes[0].1), changes[1..]);
    }
  }

  /** Both drivers are picked from the same list and nothing keeps them
      apart: a driver can be compared against the same driver. */
  lemma SameDriverTwiceIsSelectable()
    ensures var p := Change(Defaults, Driver2, "VER");
      Selectable(p) && p.driver1 == p.driver2
  {
  }

  /** As the application shell mounts the form, with no props, the button is
      always enabled, no banner shows, and Analyze does nothing. */
  lemma ShellFormIsInert(p: Params)
    ensures RenderButton(ShellProps) == Button(false, "Analyze")
    ensures RenderBanner(ShellProps) == None
    ensures ClickAnalyze(ShellProps, p) == None
  {
  }
}

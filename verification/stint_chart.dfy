/** The tyre-strategy strip: one horizontal bar per stint, laid from its
    first to its last lap and coloured by tyre compound. */
module StintChart {
  import opened Values

  /** One stint as the engine reports it. */
  datatype Stint = Stint(driver: string, compound: string, startLap: int, endLap: int, tyreLife: int)

  /** The six keys of `compoundColors`. */
  datatype Compound = Soft | Medium | Hard | Intermediate | Wet | Unknown

  /** One bar trace: its width, the driver row it sits on, where it starts,
      its inside text and its fill colour. */
  datatype Bar = Bar(width: int, category: string, base: int, text: string, color: string)

  datatype ChartView = NoStintData | Chart(traces: seq<Bar>)

  /** The key a compound has in `compoundColors`. */
  function Key(c: Compound): string {
    match c
    case Soft => "SOFT"
    case Medium => "MEDIUM"
    case Hard => "HARD"
    case Intermediate => "INTERMEDIATE"
    case Wet => "WET"
    case Unknown => "UNKNOWN"
  }

  /** The colour a compound has in `compoundColors`. */
  function Hex(c: Compound): string {
    match c
    case Soft => "#ef4444"
    case Medium => "#facc15"
    case Hard => "#f8fafc"
    case Intermediate => "#22c55e"
    case Wet => "#3b82f6"
    case Unknown => "#64748b"
  }

  /** `toUpperCase` on one character; only the ASCII letters are changed. */
  function UpperChar(ch: char): char {
    if 'a' <= ch <= 'z' then (ch as int - 32) as char else ch
  }

  /** `toUpperCase` on a string, character by character. */
  function Upper(s: string): (u: string)
    ensures |u| == |s|
    ensures forall i :: 0 <= i < |s| ==> u[i] == UpperChar(s[i])
  {
    if |s| == 0 then "" else [UpperChar(s[0])] + Upper(s[1..])
  }

  /** The compound whose key equals the upper-cased name; a name matching
      none of the keys lands on `Unknown`. */
  function CompoundOf(name: string): (c: Compound)
    ensures forall k :: Key(k) == Upper(name) ==> c == k
    ensures c != Unknown ==> Key(c) == Upper(name)
  {
    var u := Upper(name);
    if u == "SOFT" then Soft
    else if u == "MEDIUM" then Medium
    else if u == "HARD" then Hard
    else if u == "INTERMEDIATE" then Intermediate
    else if u == "WET" then Wet
    else Unknown
  }

  /** `compoundColors[name.toUpperCase()] || compoundColors['UNKNOWN']`: total,
      and the UNKNOWN colour exactly when no other key matches. */
  function ColorOf(name: string): (color: string)
    ensures forall k :: Key(k) == Upper(name) ==> color == Hex(k)
    ensures color == Hex(Unknown) <==> forall k :: k != Unknown ==> Key(k) != Upper(name)
  {
    Hex(CompoundOf(name))
  }

  /** One stint's bar: it starts at the first lap and is as wide as the
      stint is long, so it ends at the last lap; its text is the first
      character of the compound as written. */
  function BarOf(st: Stint): (b: Bar)
    ensures b.base == st.startLap && b.base + b.width == st.endLap
    ensures b.category == st.driver
    ensures b.color == ColorOf(st.compound)
    ensures b.text <= st.compound && |b.text| == (if |st.compound| == 0 then 0 else 1)
  {
    var duration := st.endLap - st.startLap;
    Bar(duration, st.driver, st.startLap, st.compound[..if |st.compound| == 0 then 0 else 1], ColorOf(st.compound))
  }

  /** `data.map(...)`: one bar per stint, in the stints' order. */
  function Traces(data: seq<Stint>): (bars: seq<Bar>)
    ensures |bars| == |data|
    ensures forall i :: 0 <= i < |data| ==> bars[i] == BarOf(data[i])
  {
    if |data| == 0 then [] else [BarOf(data[0])] + Traces(data[1..])
  }

  /** The placeholder for missing or empty data, otherwise the bars. */
  function Render(data: Option<seq<Stint>>): (v: ChartView)
    ensures v.NoStintData? <==> data.None? || |data.value| == 0
    ensures v.Chart? ==>
      && |v.traces| == |data.value|
      && forall i :: 0 <= i < |data.value| ==> v.traces[i] == BarOf(data.value[i])
  {
    if data.None? || |data.value| == 0 then NoStintData else Chart(Traces(data.value))
  }

  /** Upper-casing twice changes nothing more. */
  lemma UpperIdempotent(s: string)
    ensures Upper(Upper(s)) == Upper(s)
  {
  }

  /** The colour lookup ignores case: a name and its upper-cased form, or any
      two names with the same upper-cased form, get the same colour. */
  lemma ColorIgnoresCase(a: string, b: string)
    ensures ColorOf(a) == ColorOf(Upper(a))
    ensures Upper(a) == Upper(b) ==> ColorOf(a) == ColorOf(b)
  {
  }

  /** Each key looks up its own compound, so no compound's colour is shadowed. */
  lemma KeysRoundTrip(c: Compound)
    ensures CompoundOf(Key(c)) == c
  {
  }

  /** Distinct compounds are drawn in distinct colours. */
  lemma ColorsDistinct(c1: Compound, c2: Compound)
    ensures c1 != c2 ==> Hex(c1) != Hex(c2)
  {
  }

  /** Names match regardless of case. */
  lemma MixedCaseNamesMatch()
    ensures ColorOf("Soft") == "#ef4444"
    ensures ColorOf("wet") == "#3b82f6"
  {
  }

  /** A name outside the table, and the empty name, fall back to UNKNOWN. */
  lemma UnlistedNamesFallBack()
    ensures ColorOf("HYPERSOFT") == "#64748b"
    ensures ColorOf("") == "#64748b"
  {
  }

  /** Bars of concatenated stint lists are the concatenated bars: the
      transform is per stint and keeps order. */
  lemma TracesOfConcat(a: seq<Stint>, b: seq<Stint>)
    ensures Traces(a + b) == Traces(a) + Traces(b)
  {
  }
}

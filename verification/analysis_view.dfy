/** The analysis screen (components/PlatformAnalysisView.tsx) and its
    strategic panel (components/Recommendations.tsx), reduced to what they
    decide: whether the skeleton or the content shows, which placement cards
    appear and which critique each card carries, the conclusion card, the
    text-ratio colour band, the severity tones and the Advantage+ items. */
module AnalysisView {
  import opened Basics
  import opened Types
  import Catalog

  // ---- parseInt on the model's placement ids ----

  /** The value of a run of decimal digits, read most significant first
      (0 for the empty run). */
  function DigitsValue(d: string): nat
    requires forall i :: 0 <= i < |d| ==> IsDigit(d[i])
  {
    if |d| == 0 then 0 else DigitsValue(d[..|d| - 1]) * 10 + DigitValue(d[|d| - 1])
  }

  /** The longest prefix of `s` made of decimal digits. */
  function LeadingDigits(s: string): (p: string)
    ensures |p| <= |s| && p == s[..|p|]
    ensures forall i :: 0 <= i < |p| ==> IsDigit(p[i])
    ensures |p| == |s| || !IsDigit(s[|p|])
  {
    if |s| > 0 && IsDigit(s[0]) then [s[0]] + LeadingDigits(s[1..]) else []
  }

  /** `parseInt(s)` on the texts this screen meets: the value of the leading
      decimal digits, or no number (`NaN`) when `s` does not start with one. */
  function ParseInt(s: string): (r: Option<nat>)
    ensures r.None? <==> |s| == 0 || !IsDigit(s[0])
  {
    var p := LeadingDigits(s);
    if |p| == 0 then None else Some(DigitsValue(p))
  }

  /** `String(n)` for a natural number: its decimal digits, most
      significant first, without leading zeros. */
  function DecimalString(n: nat): (d: string)
    ensures |d| > 0 && (forall i :: 0 <= i < |d| ==> IsDigit(d[i]))
    ensures DigitsValue(d) == n
    ensures |d| > 1 ==> d[0] != '0'
  {
    if n < 10 then [DigitChar(n)]
    else
      var d := DecimalString(n / 10) + [DigitChar(n % 10)];
      assert d[..|d| - 1] == DecimalString(n / 10);
      d
  }

  lemma {:induction false} LeadingDigitsOf(d: string, t: string)
    requires forall i :: 0 <= i < |d| ==> IsDigit(d[i])
    requires |t| == 0 || !IsDigit(t[0])
    ensures LeadingDigits(d + t) == d
    decreases |d|
  {
    if |d| > 0 {
      assert (d + t)[1..] == d[1..] + t;
      LeadingDigitsOf(d[1..], t);
      assert d == [d[0]] + d[1..];
    } else {
      assert d + t == t;
    }
  }

  /** Reading back a written number: `parseInt(String(n) + t)` is `n`
      whenever `t` does not continue the digits. */
  lemma ParseDecimal(n: nat, t: string)
    requires |t| == 0 || !IsDigit(t[0])
    ensures ParseInt(DecimalString(n) + t) == Some(n)
  {
    LeadingDigitsOf(DecimalString(n), t);
  }

  lemma ParseExamples()
    ensures ParseInt("11") == Some(11)
    ensures ParseInt("3a") == Some(3)
    ensures ParseInt("x3") == None
    ensures ParseInt("") == None
  {
    assert "11" == DecimalString(11) + "";
    ParseDecimal(11, "");
    assert "3a" == DecimalString(3) + "a";
    ParseDecimal(3, "a");
  }

  // ---- summary lookup ----

  /** `parseInt(s.placementId) === placement.id` */
  predicate KeyedTo(s: PlacementSummary, id: PlacementId) {
    ParseInt(s.placementId) == Some(id.Ordinal())
  }

  /** `summaries.find(s => parseInt(s.placementId) === id)?.summary`,
      searched from index `k`. */
  function FindSummaryFrom(summaries: seq<PlacementSummary>, id: PlacementId, k: nat): (r: Option<seq<string>>)
    requires k <= |summaries|
    ensures r.None? <==> forall j :: k <= j < |summaries| ==> !KeyedTo(summaries[j], id)
    decreases |summaries| - k
  {
    if k == |summaries| then None
    else if KeyedTo(summaries[k], id) then Some(summaries[k].summary)
    else FindSummaryFrom(summaries, id, k + 1)
  }

  function FindSummary(summaries: seq<PlacementSummary>, id: PlacementId): (r: Option<seq<string>>)
    ensures r.None? <==> forall j :: 0 <= j < |summaries| ==> !KeyedTo(summaries[j], id)
  {
    FindSummaryFrom(summaries, id, 0)
  }

  /** A critique keyed the way the prompt asks (the placement's number
      written in decimal) belongs to that placement and to no other. */
  lemma DecimalKeyNamesOnePlacement(id: PlacementId, other: PlacementId, lines: seq<string>)
    ensures KeyedTo(PlacementSummary(DecimalString(id.Ordinal()), lines), other) <==> other == id
  {
    assert DecimalString(id.Ordinal()) + "" == DecimalString(id.Ordinal());
    ParseDecimal(id.Ordinal(), "");
    OrdinalInjective(id, other);
  }

  /** The search returns the critique of the first entry keyed to the
      placement. */
  lemma {:induction false} FindsFirstMatch(summaries: seq<PlacementSummary>, id: PlacementId, k: nat, i: nat)
    requires k <= i < |summaries| && KeyedTo(summaries[i], id)
    requires forall j :: k <= j < i ==> !KeyedTo(summaries[j], id)
    ensures FindSummaryFrom(summaries, id, k) == Some(summaries[i].summary)
    decreases i - k
  {
    if k < i {
      FindsFirstMatch(summaries, id, k + 1, i);
    }
  }

  /** A key written the way the prompt asks: some placement's number in
      decimal. */
  predicate IsDecimalKey(key: string) {
    exists q: PlacementId :: key == DecimalString(q.Ordinal())
  }

  /** With the critiques keyed in decimal, each placement finds the first
      critique written for it. */
  lemma DecimalKeysAreFound(summaries: seq<PlacementSummary>, id: PlacementId, i: nat)
    requires i < |summaries| && summaries[i].placementId == DecimalString(id.Ordinal())
    requires forall j :: 0 <= j < i ==>
               IsDecimalKey(summaries[j].placementId) && summaries[j].placementId != DecimalString(id.Ordinal())
    ensures FindSummary(summaries, id) == Some(summaries[i].summary)
  {
    DecimalKeyNamesOnePlacement(id, id, summaries[i].summary);
    forall j | 0 <= j < i
      ensures !KeyedTo(summaries[j], id)
    {
      var q: PlacementId :| summaries[j].placementId == DecimalString(q.Ordinal());
      DecimalKeyNamesOnePlacement(q, id, summaries[j].summary);
    }
    FindsFirstMatch(summaries, id, 0, i);
  }

  // ---- the screen ----

  /** One `AdPreview` card: its placement and the critique it shows. */
  datatype Card = Card(placement: Placement, summary: Option<seq<string>>)

  datatype Tone = RedTone | YellowTone | GreenTone | BlueTone

  /** `TextRatioIndicator`'s colour. */
  datatype Band = GreenBand | YellowBand | RedBand {
    function Rank(): nat {
      match this
      case GreenBand => 0
      case YellowBand => 1
      case RedBand => 2
    }
  }

  /** `AdvantagePlusItem` with its `isOpen` state. */
  datatype AdvantageItem = AdvantageItem(item: AdvantagePlusRecommendation, open: bool)

  /** The result body of `Recommendations`: the text-ratio band, one tone
      per recommendation and one (closed) item per Advantage+ entry. */
  datatype ResultBody = ResultBody(result: AnalysisResult, band: Band, tones: seq<Tone>, advantage: seq<AdvantageItem>)

  /** What `Recommendations` shows under its heading. */
  datatype Panel = Panel(skeleton: bool, body: Option<ResultBody>)

  /** What `PlatformAnalysisView` returns. */
  datatype Screen =
    | LoadingScreen(panel: Panel)
    | Content(panel: Panel, cards: seq<Card>, conclusion: Option<OverallConclusion>)

  /** `score > 35` red, else `score > 20` yellow, else green. */
  function TextRatioBand(score: real): (b: Band)
    ensures b == RedBand <==> score > 35.0
    ensures b == YellowBand <==> 20.0 < score <= 35.0
    ensures b == GreenBand <==> score <= 20.0
  {
    if score > 35.0 then RedBand else if score > 20.0 then YellowBand else GreenBand
  }

  /** A higher text share never gets a milder band. */
  lemma BandMonotone(a: real, b: real)
    requires a <= b
    ensures TextRatioBand(a).Rank() <= TextRatioBand(b).Rank()
  {
  }

  lemma BandBoundaries()
    ensures TextRatioBand(20.0) == GreenBand && TextRatioBand(35.0) == YellowBand
    ensures TextRatioBand(0.0) == GreenBand && TextRatioBand(100.0) == RedBand
  {
  }

  /** `severityConfig[item.severity].bgColor` */
  function SeverityTone(s: Severity): (t: Tone)
    ensures t != YellowTone
  {
    match s
    case Critical => RedTone
    case Recommended => BlueTone
    case GoodToKnow => GreenTone
  }

  /** `severityIcons[item.severity]` in the conclusion card. */
  function ChecklistTone(s: ChecklistSeverity): (t: Tone)
    ensures t != BlueTone
  {
    match s
    case Critical => RedTone
    case Actionable => YellowTone
    case Positive => GreenTone
  }

  /** Each lookup is total and tells its severities apart. */
  lemma TonesDistinguishSeverities()
    ensures forall a: Severity, b: Severity :: SeverityTone(a) == SeverityTone(b) ==> a == b
    ensures forall a: ChecklistSeverity, b: ChecklistSeverity :: ChecklistTone(a) == ChecklistTone(b) ==> a == b
  {
  }

  /** `isCaution = item.applicable === 'CAUTION'` */
  predicate IsCaution(a: AdvantageItem) {
    a.item.applicable == Caution
  }

  /** The item's colour: yellow for caution, green for activate. */
  function AdvantageTone(a: AdvantageItem): (t: Tone)
    ensures t == YellowTone <==> IsCaution(a)
    ensures t == GreenTone <==> !IsCaution(a)
  {
    if IsCaution(a) then YellowTone else GreenTone
  }

  function NewAdvantageItem(item: AdvantagePlusRecommendation): (a: AdvantageItem)
    ensures a.item == item && !a.open
  {
    AdvantageItem(item, false)
  }

  /** `setIsOpen(!isOpen)` */
  function Toggle(a: AdvantageItem): (r: AdvantageItem)
    ensures r.item == a.item && r.open != a.open
  {
    a.(open := !a.open)
  }

  /** The justification is visible exactly while the item is open. */
  function ShownJustification(a: AdvantageItem): (j: Option<string>)
    ensures j.Some? <==> a.open
    ensures j.Some? ==> j.value == a.item.justification
  {
    if a.open then Some(a.item.justification) else None
  }

  /** Toggling twice restores the item, so a new item toggled twice is
      closed again; toggling never changes the caution styling. */
  lemma ToggleTwice(a: AdvantageItem)
    ensures Toggle(Toggle(a)) == a
    ensures IsCaution(Toggle(a)) == IsCaution(a)
    ensures ShownJustification(Toggle(Toggle(NewAdvantageItem(a.item)))).None?
  {
  }

  function Body(result: AnalysisResult): (b: ResultBody)
    ensures b.result == result && b.band == TextRatioBand(result.textToImageRatio)
    ensures |b.tones| == |result.recommendations|
    ensures forall i :: 0 <= i < |b.tones| ==> b.tones[i] == SeverityTone(result.recommendations[i].severity)
    ensures |b.advantage| == |result.advantagePlusAnalysis|
    ensures forall i :: 0 <= i < |b.advantage| ==>
              b.advantage[i].item == result.advantagePlusAnalysis[i] && !b.advantage[i].open
  {
    ResultBody(result, TextRatioBand(result.textToImageRatio),
      seq(|result.recommendations|, i requires 0 <= i < |result.recommendations| =>
        SeverityTone(result.recommendations[i].severity)),
      seq(|result.advantagePlusAnalysis|, i requires 0 <= i < |result.advantagePlusAnalysis| =>
        NewAdvantageItem(result.advantagePlusAnalysis[i])))
  }

  /** `Recommendations`: the skeleton while loading, the result body when a
      result is present and loading is over. */
  function RecommendationsPanel(result: Option<AnalysisResult>, loading: bool): (p: Panel)
    ensures p.skeleton <==> loading
    ensures p.body.Some? <==> result.Some? && !loading
    ensures p.body.Some? ==> p.body.value.result == result.value
  {
    Panel(loading, if result.Some? && !loading then Some(Body(result.value)) else None)
  }

  /** One card per placement of the group, in catalog order, each with the
      critique the result keys to it. */
  function Cards(group: FormatGroup, result: Option<AnalysisResult>): (cs: seq<Card>)
    ensures |cs| == |Catalog.PlacementsFor(group)|
    ensures forall i :: 0 <= i < |cs| ==> cs[i].placement == Catalog.PlacementsFor(group)[i]
    ensures forall i :: 0 <= i < |cs| ==>
              cs[i].summary == (if result.None? then None
                                else FindSummary(result.value.placementSummaries, cs[i].placement.id))
  {
    var ps := Catalog.PlacementsFor(group);
    seq(|ps|, i requires 0 <= i < |ps| =>
      Card(ps[i], if result.None? then None else FindSummary(result.value.placementSummaries, ps[i].id)))
  }

  /** `PlatformAnalysisView`: only the skeleton while loading; otherwise the
      strategic panel, the cards and, when a result is present, its
      conclusion. */
  function Render(group: FormatGroup, result: Option<AnalysisResult>, loading: bool): (s: Screen)
    ensures s.LoadingScreen? <==> loading
    ensures s.LoadingScreen? ==> s.panel.skeleton && s.panel.body.None?
    ensures s.Content? ==> s.panel == RecommendationsPanel(result, false) && s.cards == Cards(group, result)
    ensures s.Content? ==> (s.conclusion.Some? <==> result.Some?)
    ensures s.Content? && result.Some? ==> s.conclusion.value == result.value.overallConclusion
  {
    if loading then LoadingScreen(RecommendationsPanel(None, true))
    else Content(RecommendationsPanel(result, false), Cards(group, result),
                 if result.Some? then Some(result.value.overallConclusion) else None)
  }

  function CardIds(cs: seq<Card>): (ids: seq<PlacementId>)
    ensures |ids| == |cs| && forall i :: 0 <= i < |cs| ==> ids[i] == cs[i].placement.id
  {
    seq(|cs|, i requires 0 <= i < |cs| => cs[i].placement.id)
  }

  /** The cards depend on the group only: whatever the result holds,
      including critiques for unknown or foreign placements, the same
      placements appear in the same order, six for each group. */
  lemma CardsFollowGroupOnly(group: FormatGroup, r1: Option<AnalysisResult>, r2: Option<AnalysisResult>)
    ensures CardIds(Cards(group, r1)) == CardIds(Cards(group, r2)) == Catalog.Ids(Catalog.PlacementsFor(group))
    ensures |Cards(group, r1)| == 6
  {
    Catalog.SquareLikePlacements();
    Catalog.VerticalPlacements();
  }

  /** Without a result no card carries a critique and there is no
      conclusion. */
  lemma NoResultNoCritique(group: FormatGroup)
    ensures forall c :: c in Cards(group, None) ==> c.summary.None?
    ensures Render(group, None, false).conclusion.None?
  {
  }
}

/** The application's data model (types.ts): severities, the analysis result
    returned by the generative model, placements and their identifiers,
    format groups, creatives and the two-slot creative set. */
module Types {
  import opened Basics

  /** Severity of a recommendation (`enum Severity`). */
  datatype Severity = Critical | Recommended | GoodToKnow

  /** Severity of a conclusion checklist item (`ChecklistItemSeverity`), a
      separate enumeration from `Severity` that shares only its first label. */
  datatype ChecklistSeverity = Critical | Actionable | Positive

  /** `funnelStage`: the three stages the model may answer plus the two
      sentinels the application writes itself. */
  datatype FunnelStage = Tofu | Mofu | Bofu | Error | NotApplicable {
    predicate IsSentinel() {
      this == Error || this == NotApplicable
    }
  }

  datatype RecommendationItem = RecommendationItem(severity: Severity, message: string)

  datatype Applicability = Activate | Caution

  datatype AdvantagePlusRecommendation =
    AdvantagePlusRecommendation(enhancement: string, applicable: Applicability, justification: string)

  /** One per-placement critique; `placementId` is the placement's ordinal
      written as text by the model. */
  datatype PlacementSummary = PlacementSummary(placementId: string, summary: seq<string>)

  datatype ChecklistItem = ChecklistItem(severity: ChecklistSeverity, text: string)

  datatype OverallConclusion = OverallConclusion(headline: string, checklist: seq<ChecklistItem>)

  /** Scores are JavaScript numbers and are kept as reals. */
  datatype AnalysisResult = AnalysisResult(
    effectivenessScore: real,
    effectivenessJustification: string,
    clarityScore: real,
    clarityJustification: string,
    textToImageRatio: real,
    textToImageRatioJustification: string,
    funnelStage: FunnelStage,
    funnelStageJustification: string,
    recommendations: seq<RecommendationItem>,
    advantagePlusAnalysis: seq<AdvantagePlusRecommendation>,
    placementSummaries: seq<PlacementSummary>,
    overallConclusion: OverallConclusion)

  /** `enum PlacementId`, a numeric enum: members are numbered from 0 in
      declaration order. */
  datatype PlacementId =
    | FbFeed | FbVideoFeed | FbStories | FbMarketplace | FbReels
    | IgFeed | IgStories | IgReels | IgExplore
    | MessengerInbox | MessengerStories | AudienceNetwork
  {
    function Ordinal(): (n: nat)
      ensures n < PlacementIdCount
    {
      match this
      case FbFeed => 0
      case FbVideoFeed => 1
      case FbStories => 2
      case FbMarketplace => 3
      case FbReels => 4
      case IgFeed => 5
      case IgStories => 6
      case IgReels => 7
      case IgExplore => 8
      case MessengerInbox => 9
      case MessengerStories => 10
      case AudienceNetwork => 11
    }
  }

  const PlacementIdCount: nat := 12

  /** The member of `PlacementId` whose numeric value is `n`, if any. */
  function PlacementIdOf(n: int): (r: Option<PlacementId>)
    ensures r.Some? <==> 0 <= n < PlacementIdCount
    ensures r.Some? ==> r.value.Ordinal() == n
  {
    if n == 0 then Some(FbFeed)
    else if n == 1 then Some(FbVideoFeed)
    else if n == 2 then Some(FbStories)
    else if n == 3 then Some(FbMarketplace)
    else if n == 4 then Some(FbReels)
    else if n == 5 then Some(IgFeed)
    else if n == 6 then Some(IgStories)
    else if n == 7 then Some(IgReels)
    else if n == 8 then Some(IgExplore)
    else if n == 9 then Some(MessengerInbox)
    else if n == 10 then Some(MessengerStories)
    else if n == 11 then Some(AudienceNetwork)
    else None
  }

  /** Numbering is a bijection between `PlacementId` and 0..11. */
  lemma OrdinalRoundTrip(id: PlacementId)
    ensures PlacementIdOf(id.Ordinal()) == Some(id)
  {
  }

  lemma OrdinalInjective(a: PlacementId, b: PlacementId)
    ensures a.Ordinal() == b.Ordinal() <==> a == b
  {
    OrdinalRoundTrip(a);
    OrdinalRoundTrip(b);
  }

  datatype Platform = Facebook | Instagram | Messenger | AudienceNetworkPlatform

  datatype UiType = Feed | Stories | Reels | Marketplace | MessengerInboxUi | Generic

  /** The two buckets of placements that share one representative creative. */
  datatype FormatGroup = SquareLike | Vertical

  /** Percentages of the canvas covered by platform chrome; the side margins
      are optional. */
  datatype SafeZone = SafeZone(top: string, bottom: string, left: Option<string>, right: Option<string>)

  datatype Placement = Placement(
    id: PlacementId,
    platform: Platform,
    name: string,
    uiType: UiType,
    group: FormatGroup,
    aspectRatios: seq<string>,
    recommendedResolution: string,
    safeZone: SafeZone)

  /** The two upload slots, `'square' | 'vertical'`. */
  datatype Slot = SquareSlot | VerticalSlot {
    function Other(): Slot {
      if this == SquareSlot then VerticalSlot else SquareSlot
    }
  }

  /** One value per slot; a `CreativeSet` and the upload widget's file map
      are both instances. */
  datatype PerSlot<T> = PerSlot(square: T, vertical: T) {
    function At(slot: Slot): T {
      match slot
      case SquareSlot => square
      case VerticalSlot => vertical
    }

    /** The same pair with the value at `slot` replaced. */
    function With(slot: Slot, v: T): (r: PerSlot<T>)
      ensures r.At(slot) == v
      ensures r.At(slot.Other()) == At(slot.Other())
    {
      match slot
      case SquareSlot => this.(square := v)
      case VerticalSlot => this.(vertical := v)
    }
  }

  /** A browser `File`, observed through its name and MIME type only. */
  datatype File = File(name: string, mimeType: string)

  datatype CreativeKind = Image | Video

  /** A decoded upload; `slot` is the source's `format` tag. */
  datatype Creative = Creative(file: File, kind: CreativeKind, width: nat, height: nat, slot: Slot)

  /** `{square: Creative | null, vertical: Creative | null}`: at most one
      creative per slot by construction. */
  type CreativeSet = PerSlot<Option<Creative>>

  /** The file map `{square?: File; vertical?: File}`. */
  type SlotFiles = PerSlot<Option<File>>

  const EmptyCreativeSet: CreativeSet := PerSlot(None, None)

  predicate IsEmptySet(cs: CreativeSet) {
    cs.square.None? && cs.vertical.None?
  }

  /** Every creative sits in the slot its own tag names. */
  predicate WellTagged(cs: CreativeSet) {
    forall slot: Slot :: cs.At(slot).Some? ==> cs.At(slot).value.slot == slot
  }

  /** Slot values that are present, counted the way `handleFileUpload`
      counts the files it has to process. */
  function PresentCount<T>(p: PerSlot<Option<T>>): (n: nat)
    ensures n <= 2
    ensures n == 0 <==> p.square.None? && p.vertical.None?
    ensures n == 2 <==> p.square.Some? && p.vertical.Some?
  {
    (if p.square.Some? then 1 else 0) + (if p.vertical.Some? then 1 else 0)
  }
}

/** The analysis request (`getFormatAnalysis`): the configuration check, the
    choice of the relevant and of the attached creative, the short-circuit
    for an empty creative set, the code-fence stripping of the response text
    and the mapping of every fault to a well-formed stand-in result. The
    generative model, the file encoder and `JSON.parse` are not modelled:
    their outcomes are inputs (`Service`). */
module Analysis {
  import opened Basics
  import opened Types
  import Catalog

  const ConfigErrorHeadline: string := "Error de Configuración"
  const ConfigErrorMessage: string :=
    "La API Key de Gemini no está configurada. Por favor, asegúrate de que la variable de entorno API_KEY esté disponible."
  const NoCreativesHeadline: string := "Error"
  const NoCreativesMessage: string := "No se proporcionaron creativos para el análisis."
  const AnalysisErrorHeadline: string := "Error de Análisis"
  const GenericFaultMessage: string := "Hubo un error al generar las recomendaciones."
  const UnprocessableMessage: string :=
    "El creativo no pudo ser procesado. Puede ser demasiado grande o tener un formato no compatible. Intenta con un archivo más pequeño."

  /** What the external world does during one analysis: whether the API key
      is configured, whether encoding the attached file throws, what the model
      call yields (its response text, or a throw), and what `JSON.parse` makes
      of a text (a value, `null`, or a throw). */
  datatype Service = Service(
    apiKeyConfigured: bool,
    readFault: Option<Fault>,
    response: Outcome<string>,
    parse: string -> Outcome<Option<AnalysisResult>>)

  /** The facts the instruction text is built from; its wording is not
      modelled. */
  datatype Prompt = Prompt(
    group: FormatGroup,
    hasSquare: bool,
    hasVertical: bool,
    relevantProvided: bool,
    placements: seq<PlacementId>)

  /** One entry of the request's `parts`. */
  datatype Part = Instruction(prompt: Prompt) | InlineData(file: File)

  /** What one call of `getFormatAnalysis` produces: the value it resolves
      to (`AnalysisResult | null`) and the parts it sent to the model, if it
      called the model at all. */
  datatype Analysis = Analysis(result: Option<AnalysisResult>, sent: Option<seq<Part>>)

  /** A result written by the application itself: zero scores, empty
      justifications and lists, the given sentinel stage and headline, and a
      single critical checklist item. */
  function StandIn(stage: FunnelStage, headline: string, message: string): AnalysisResult {
    AnalysisResult(0.0, "", 0.0, "", 0.0, "", stage, "", [], [], [],
                   OverallConclusion(headline, [ChecklistItem(ChecklistSeverity.Critical, message)]))
  }

  predicate IsStandIn(r: AnalysisResult, stage: FunnelStage, headline: string, message: string) {
    && r.effectivenessScore == 0.0 && r.clarityScore == 0.0 && r.textToImageRatio == 0.0
    && r.funnelStage == stage
    && r.recommendations == [] && r.advantagePlusAnalysis == [] && r.placementSummaries == []
    && r.overallConclusion.headline == headline
    && r.overallConclusion.checklist == [ChecklistItem(ChecklistSeverity.Critical, message)]
  }

  /** The slot whose creative is authoritative for a format group. */
  function RelevantSlot(group: FormatGroup): Slot {
    match group
    case SquareLike => SquareSlot
    case Vertical => VerticalSlot
  }

  /** Each group has its own relevant slot. */
  lemma RelevantSlotInjective(g1: FormatGroup, g2: FormatGroup)
    ensures RelevantSlot(g1) == RelevantSlot(g2) <==> g1 == g2
  {
  }

  /** `formatGroup === 'SQUARE_LIKE' ? creativeSet.square : creativeSet.vertical` */
  function RelevantCreative(cs: CreativeSet, group: FormatGroup): (c: Option<Creative>)
    ensures group == SquareLike ==> c == cs.square
    ensures group == Vertical ==> c == cs.vertical
  {
    cs.At(RelevantSlot(group))
  }

  /** The creative whose bytes are attached, branch for branch as the request
      builder chooses it. */
  function AttachedCreative(cs: CreativeSet, group: FormatGroup): Option<Creative> {
    var relevant := if group == SquareLike then cs.square else cs.vertical;
    if relevant.Some? then relevant
    else if group == SquareLike && cs.vertical.Some? then cs.vertical
    else if group == Vertical && cs.square.Some? then cs.square
    else None
  }

  /** The attachment policy: the relevant creative when there is one,
      otherwise the creative of the other slot; so something is attached
      exactly when the set is not empty. */
  lemma AttachmentPolicy(cs: CreativeSet, group: FormatGroup)
    ensures AttachedCreative(cs, group) ==
            (if RelevantCreative(cs, group).Some? then RelevantCreative(cs, group)
             else cs.At(RelevantSlot(group).Other()))
    ensures AttachedCreative(cs, group).Some? <==> !IsEmptySet(cs)
  {
  }

  /** The group-specific fallback is reachable: square-like analysis of a
      set holding only a vertical creative attaches that creative. */
  lemma FallbackIsReachable(v: Creative)
    ensures AttachedCreative(PerSlot(None, Some(v)), SquareLike) == Some(v)
    ensures AttachedCreative(PerSlot(Some(v), None), Vertical) == Some(v)
  {
  }

  function BuildPrompt(cs: CreativeSet, group: FormatGroup): Prompt {
    Prompt(group, cs.square.Some?, cs.vertical.Some?, RelevantCreative(cs, group).Some?,
           Catalog.Ids(Catalog.PlacementsFor(group)))
  }

  /** The `parts` array: the instruction, then the attached creative's bytes
      when there is one. */
  function Parts(cs: CreativeSet, group: FormatGroup): (parts: seq<Part>)
    ensures 1 <= |parts| <= 2
    ensures parts[0] == Instruction(BuildPrompt(cs, group))
    ensures |parts| == 2 <==> !IsEmptySet(cs)
    ensures |parts| == 2 ==> parts[1] == InlineData(AttachedCreative(cs, group).value.file)
  {
    AttachmentPolicy(cs, group);
    var attached := AttachedCreative(cs, group);
    [Instruction(BuildPrompt(cs, group))] + (if attached.Some? then [InlineData(attached.value.file)] else [])
  }

  const LeadingFence: string := "```json"
  const TrailingFence: string := "```"

  /** `.replace(/^```json\n?/, '')` */
  function StripLeadingFence(t: string): string {
    if HasPrefix(t, LeadingFence + "\n") then t[|LeadingFence| + 1..]
    else if HasPrefix(t, LeadingFence) then t[|LeadingFence|..]
    else t
  }

  /** `.replace(/```$/, '')` */
  function StripTrailingFence(t: string): string {
    if HasSuffix(t, TrailingFence) then t[..|t| - |TrailingFence|] else t
  }

  function StripFence(t: string): string {
    StripTrailingFence(StripLeadingFence(t))
  }

  /** The text handed to `JSON.parse`: the response trimmed, then unfenced. */
  function Clean(text: string): string {
    StripFence(Trim(text))
  }

  /** A payload wrapped the way the model sometimes answers. */
  function Fenced(s: string): string {
    LeadingFence + "\n" + s + TrailingFence
  }

  /** A fenced payload loses exactly its fences. */
  lemma FencedRoundTrip(s: string)
    ensures StripFence(Fenced(s)) == s
  {
    var t := LeadingFence + "\n" + s + TrailingFence;
    assert HasPrefix(t, LeadingFence + "\n");
    var u := t[|LeadingFence| + 1..];
    assert u == s + TrailingFence;
    assert HasSuffix(u, TrailingFence);
  }

  /** The newline after the opening fence is optional: it is removed when
      present and nothing else is. */
  lemma FenceNewlineOptional(s: string)
    ensures StripFence(LeadingFence + s + TrailingFence) ==
            (if |s| > 0 && s[0] == '\n' then s[1..] else s)
  {
    var t := LeadingFence + s + TrailingFence;
    assert HasPrefix(t, LeadingFence);
    if |s| > 0 && s[0] == '\n' {
      assert HasPrefix(t, LeadingFence + "\n");
      assert t[|LeadingFence| + 1..] == s[1..] + TrailingFence;
    } else {
      assert !HasPrefix(t, LeadingFence + "\n") by {
        assert t[|LeadingFence|] != '\n' || |s| == 0;
        if |s| == 0 {
          assert t[|LeadingFence|] == '`';
        }
      }
      assert t[|LeadingFence|..] == s + TrailingFence;
    }
  }

  /** Text with neither fence passes through unchanged. */
  lemma UnfencedUnchanged(t: string)
    requires !HasPrefix(t, LeadingFence) && !HasSuffix(t, TrailingFence)
    ensures StripFence(t) == t
  {
  }

  /** A JSON object is trimmed and unfenced, so `trim` and the fence
      stripping leave it as it is. */
  lemma ObjectTextIsClean(payload: string)
    requires |payload| > 0 && payload[0] == '{' && payload[|payload| - 1] == '}'
    ensures IsTrimmed(payload)
    ensures StripFence(payload) == payload
  {
    assert !HasPrefix(payload, LeadingFence) by {
      assert LeadingFence[0] == '`';
    }
    assert !HasSuffix(payload, TrailingFence) by {
      assert TrailingFence[|TrailingFence| - 1] == '`';
    }
    UnfencedUnchanged(payload);
  }

  /** Blank padding around a bare JSON object is all `Clean` removes. */
  lemma BareObjectClean(payload: string, w1: string, w2: string)
    requires |payload| > 0 && payload[0] == '{' && payload[|payload| - 1] == '}'
    requires AllWhitespace(w1) && AllWhitespace(w2)
    ensures Clean(w1 + payload + w2) == payload
  {
    ObjectTextIsClean(payload);
    TrimPadded(w1, payload, w2);
  }

  /** Blank padding and fences around a payload are all `Clean` removes. */
  lemma FencedClean(payload: string, w1: string, w2: string)
    requires AllWhitespace(w1) && AllWhitespace(w2)
    ensures Clean(w1 + Fenced(payload) + w2) == payload
  {
    var fenced := Fenced(payload);
    assert IsTrimmed(fenced) by {
      assert fenced[0] == '`';
      assert fenced[|fenced| - 1] == '`';
    }
    TrimPadded(w1, fenced, w2);
    FencedRoundTrip(payload);
  }

  /** A JSON object answered with or without fences, and with any blank
      padding, reaches `JSON.parse` as the same text. */
  lemma FencedAndBareParseAlike(payload: string, w1: string, w2: string)
    requires |payload| > 0 && payload[0] == '{' && payload[|payload| - 1] == '}'
    requires AllWhitespace(w1) && AllWhitespace(w2)
    ensures Clean(w1 + Fenced(payload) + w2) == Clean(w1 + payload + w2) == payload
  {
    BareObjectClean(payload, w1, w2);
    FencedClean(payload, w1, w2);
  }

  /** The usual Markdown answer puts the closing fence on its own line. The
      end-anchored strip keeps that line break, so the parser receives the
      payload followed by a newline rather than the payload itself. */
  lemma MarkdownFencedClean(payload: string, w1: string, w2: string)
    requires AllWhitespace(w1) && AllWhitespace(w2)
    ensures Clean(w1 + LeadingFence + "\n" + payload + "\n" + TrailingFence + w2) == payload + "\n"
  {
    assert w1 + LeadingFence + "\n" + payload + "\n" + TrailingFence + w2
        == w1 + Fenced(payload + "\n") + w2;
    FencedClean(payload + "\n", w1, w2);
  }

  /** A JSON object answered in a Markdown fence and the same object answered
      bare parse alike, provided the parser ignores one trailing line break
      after the object, as `JSON.parse` ignores trailing blanks. */
  lemma MarkdownFencedParsesAlike(svc: Service, payload: string, w1: string, w2: string)
    requires |payload| > 0 && payload[0] == '{' && payload[|payload| - 1] == '}'
    requires AllWhitespace(w1) && AllWhitespace(w2)
    requires svc.parse(payload + "\n") == svc.parse(payload)
    ensures svc.parse(Clean(w1 + LeadingFence + "\n" + payload + "\n" + TrailingFence + w2))
            == svc.parse(Clean(w1 + payload + w2))
  {
    MarkdownFencedClean(payload, w1, w2);
    BareObjectClean(payload, w1, w2);
  }

  /** The two messages a fault can be reported with. */
  datatype FaultNotice = TooLargeOrUnsupported | GenericFailure {
    function Text(): string {
      match this
      case TooLargeOrUnsupported => UnprocessableMessage
      case GenericFailure => GenericFaultMessage
    }
  }

  /** An `Error` whose message mentions a client or server fault code. */
  predicate CitesFaultCode(f: Fault) {
    f.ErrorInstance? && (Contains(f.message, "400") || Contains(f.message, "500"))
  }

  /** Which message a fault is reported with. */
  function NoticeFor(f: Fault): FaultNotice {
    if CitesFaultCode(f) then TooLargeOrUnsupported
    else GenericFailure
  }

  function FaultResult(f: Fault): AnalysisResult {
    StandIn(Error, AnalysisErrorHeadline, NoticeFor(f).Text())
  }

  /** Every fault becomes an error-flavoured result with a single critical
      item, whose message is the specific one exactly for `Error`s citing a
      client or server fault code. */
  lemma FaultResultShape(f: Fault)
    ensures IsStandIn(FaultResult(f), Error, AnalysisErrorHeadline, NoticeFor(f).Text())
    ensures NoticeFor(f) == TooLargeOrUnsupported <==> CitesFaultCode(f)
    ensures NoticeFor(f) == GenericFailure <==> !CitesFaultCode(f)
  {
  }

  /** Concrete faults: errors citing 400 and 500, a thrown non-`Error`
      value, and an `Error` whose message carries no fault code. */
  lemma FaultExamples()
    ensures NoticeFor(ErrorInstance("HTTP 400")) == TooLargeOrUnsupported
    ensures NoticeFor(ErrorInstance("500")) == TooLargeOrUnsupported
    ensures NoticeFor(OtherThrown) == GenericFailure
    ensures NoticeFor(ErrorInstance("timeout")) == GenericFailure
  {
    assert OccursAt("HTTP 400", "400", 5);
    assert OccursAt("500", "500", 0);
    var m := "timeout";
    forall i: nat | i <= |m|
      ensures !OccursAt(m, "400", i) && !OccursAt(m, "500", i)
    {
      if i + 3 <= |m| {
        assert m[i] != '4' && m[i] != '5';
        assert m[i..i + 3][0] == m[i];
      }
    }
  }

  /** `getFormatAnalysis(creativeSet, formatGroup)`, resolving to a value in
      every case. */
  function GetFormatAnalysis(cs: CreativeSet, group: FormatGroup, svc: Service): (a: Analysis)
    ensures !svc.apiKeyConfigured ==>
              a.sent.None? && a.result.Some? &&
              IsStandIn(a.result.value, NotApplicable, ConfigErrorHeadline, ConfigErrorMessage)
    ensures svc.apiKeyConfigured && IsEmptySet(cs) ==>
              a.sent.None? && a.result.Some? &&
              IsStandIn(a.result.value, NotApplicable, NoCreativesHeadline, NoCreativesMessage)
    ensures a.sent.Some? <==> svc.apiKeyConfigured && !IsEmptySet(cs) && svc.readFault.None?
    ensures a.sent.Some? ==> a.sent.value == Parts(cs, group) && |a.sent.value| == 2
    ensures svc.apiKeyConfigured && !IsEmptySet(cs) && svc.readFault.Some? ==>
              a.result == Some(FaultResult(svc.readFault.value))
    ensures a.sent.Some? && svc.response.Thrown? ==> a.result == Some(FaultResult(svc.response.fault))
    ensures a.sent.Some? && svc.response.Returned? ==>
              a.result == (match svc.parse(Clean(svc.response.value))
                           case Returned(v) => v
                           case Thrown(f) => Some(FaultResult(f)))
  {
    if !svc.apiKeyConfigured then
      Analysis(Some(StandIn(NotApplicable, ConfigErrorHeadline, ConfigErrorMessage)), None)
    else
      var parts := Parts(cs, group);
      if |parts| == 2 && svc.readFault.Some? then
        Analysis(Some(FaultResult(svc.readFault.value)), None)
      else if |parts| == 1 then
        Analysis(Some(StandIn(NotApplicable, NoCreativesHeadline, NoCreativesMessage)), None)
      else
        match svc.response
        case Thrown(f) => Analysis(Some(FaultResult(f)), Some(parts))
        case Returned(text) =>
          match svc.parse(Clean(text))
          case Thrown(f) => Analysis(Some(FaultResult(f)), Some(parts))
          case Returned(v) => Analysis(v, Some(parts))
  }

  /** Whenever the model is not consulted, or is consulted and fails, the
      result is a stand-in whose only checklist item is critical; the only
      way to resolve to `null` is a model answer that parses to `null`. */
  lemma OnlyTheModelAnswers(cs: CreativeSet, group: FormatGroup, svc: Service)
    ensures var a := GetFormatAnalysis(cs, group, svc);
            a.sent.None? || svc.response.Thrown? ==>
              a.result.Some? && |a.result.value.overallConclusion.checklist| == 1
              && a.result.value.overallConclusion.checklist[0].severity == ChecklistSeverity.Critical
              && a.result.value.effectivenessScore == 0.0
              && a.result.value.funnelStage.IsSentinel()
    ensures var a := GetFormatAnalysis(cs, group, svc);
            a.result.None? ==> a.sent.Some? && svc.response.Returned?
                               && svc.parse(Clean(svc.response.value)) == Returned(None)
  {
  }

  /** The request carries the prompt first and at most one creative: the
      relevant one, or else the other slot's; and the prompt lists exactly
      the group's catalog placements. */
  lemma RequestShape(cs: CreativeSet, group: FormatGroup, svc: Service)
    requires GetFormatAnalysis(cs, group, svc).sent.Some?
    ensures var parts := GetFormatAnalysis(cs, group, svc).sent.value;
            && parts[0].Instruction?
            && parts[0].prompt.placements == Catalog.Ids(Catalog.PlacementsFor(group))
            && parts[0].prompt.relevantProvided == RelevantCreative(cs, group).Some?
            && (forall i :: 1 <= i < |parts| ==> parts[i].InlineData?)
            && |parts| == 2
            && (RelevantCreative(cs, group).Some? ==> parts[1].file == RelevantCreative(cs, group).value.file)
            && (RelevantCreative(cs, group).None? ==> parts[1].file == cs.At(RelevantSlot(group).Other()).value.file)
  {
    AttachmentPolicy(cs, group);
  }
}

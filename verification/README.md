# AnalisisAds — a Dafny model of the creative-analysis core

AnalisisAds is a React single-page app for Meta Ads creatives. The user
uploads a square or a vertical creative (both only when the second is
chosen before the first has finished decoding), picks a format group
(`SQUARE_LIKE` or `VERTICAL`), and gets an analysis from a generative model
for every placement of that group. The analysis has scores, a text-to-image
ratio band, recommendations, Advantage+ advice, a critique per placement and
a conclusion checklist.

This project models the deterministic logic around that call:

- `basics.dfy` (module `Basics`): `Option`, JavaScript throw outcomes, and
  the string operations the code relies on (`startsWith`, `includes`,
  `trim`, the end-anchored pattern).
- `types.dfy` (`Types`): the data model of `types.ts`, including the
  numeric `PlacementId` enum, format groups, creatives, and the two-slot
  creative set.
- `catalog.dfy` (`Catalog`): the 12-entry `PLACEMENTS` table and its
  per-group filter.
- `analysis.dfy` (`Analysis`): `getFormatAnalysis`. It covers:
  - the API-key check;
  - the relevant creative and the attached creative with its fallback;
  - the empty-set short-circuit;
  - code-fence stripping;
  - the mapping of every fault to an error result.

  The model call, the file read and `JSON.parse` are parameters of a
  `Service` value.
- `intake.dfy` (`Intake`): `handleFileUpload` as a fold over decode
  settlements, in any order, with a pending counter and a single commit.
- `app_state.dfy` (`AppState`): the view state machine. Its states are
  `upload`, `format_selection` and `format_analysis`. It includes which
  controls are on screen in each state, an invariant every step keeps, and
  the liveness property below.
- `analysis_view.dfy` (`AnalysisView`): `PlatformAnalysisView` and
  `Recommendations`. It covers:
  - skeleton versus content;
  - one card per group placement, with the critique joined by
    `parseInt(placementId)`;
  - the conclusion card;
  - the text-ratio colour bands, the severity tones and the Advantage+
    items.
- `file_upload.dfy` (`FileUpload`): the slot-keyed file map of the upload
  widget, and the guards and captions of each drop box.

Two facts about the request path are worth stating:

- The group-specific fallbacks in the request builder (App.tsx:164-167)
  are the only fallback there is, and they are reachable
  (`Analysis.FallbackIsReachable`).
- A fault is reported under the headline "Error de Análisis"
  (App.tsx:198).

## Model

| member | source | states |
|---|---|---|
| Types.PlacementIdOf | types.ts:50-63 | the numeric enum value `n` names a placement exactly when 0 <= n < 12, and that placement's ordinal is `n` |
| Types.OrdinalRoundTrip | types.ts:50-63 | the placement numbering is a bijection onto 0..11 in declaration order |
| Types.OrdinalInjective | types.ts:50-63 | two placements with the same number are the same placement |
| Types.PresentCount | App.tsx:223 | the count of files to process is at most 2, 0 exactly when neither slot has a file, and 2 exactly when both have one |
| Basics.Trim | App.tsx:186 | `trim` cuts only blank characters from the front, keeps the following characters in order, and returns text that begins and ends with a non-blank character |
| Basics.TrimPadded | App.tsx:186 | trimming blank padding around trimmed text gives back exactly that text |
| Catalog.FilterFrom | App.tsx:46 | the group filter keeps only entries of the requested group and never more entries than it reads |
| Catalog.FilterMembers | components/PlatformAnalysisView.tsx:73 | an entry survives the group filter exactly when it is in the table and belongs to the group |
| Catalog.FilterPartitions | constants.ts:85-210 | filtering any placement list by the two groups splits it: the counts add up and the multisets sum to the list |
| Catalog.CatalogIdsUnique | constants.ts:85-210 | the catalog has 12 entries with pairwise distinct ids, and every `PlacementId` appears in it |
| Catalog.SquareLikePlacements | constants.ts:86-188 | the square-like group is FB feed, FB video feed, FB Marketplace, IG feed, IG Explore and Messenger inbox, in catalog order |
| Catalog.VerticalPlacements | constants.ts:107-209 | the vertical group is FB stories, FB reels, IG stories, IG reels, Messenger stories and Audience Network, in catalog order |
| Catalog.GroupsPartition | App.tsx:46 | for any placement list, every entry passes exactly one of the two group filters and the two filtered lengths add up to the list's |
| Catalog.GroupsPartitionCatalog | constants.ts:85-210 | the two groups are disjoint, together hold every catalog entry, and their sizes add up to 12 |
| Catalog.AspectRatios | constants.ts:85-210 | every entry lists an aspect ratio, and every vertical entry accepts 9:16 |
| Catalog.SideMargins | constants.ts:128-188 | left and right safe margins exist exactly for Marketplace, Explore and Messenger inbox, and always as a pair |
| Analysis.RelevantCreative | App.tsx:48-50 | the relevant creative is the square slot for square-like analysis and the vertical slot for vertical analysis |
| Analysis.RelevantSlotInjective | App.tsx:161 | the two groups have different relevant slots |
| Analysis.AttachmentPolicy | App.tsx:160-168 | the attached creative is the relevant one when present, otherwise the other slot's; something is attached exactly when the set is non-empty |
| Analysis.FallbackIsReachable | App.tsx:164-167 | square-like analysis of a vertical-only set attaches the vertical creative, and vice versa |
| Analysis.Parts | App.tsx:160-168 | the request parts are the prompt first plus at most one attachment, which is present exactly when the set is non-empty and is the attached creative's file |
| Analysis.FencedRoundTrip | App.tsx:186-187 | stripping a fenced payload "```json\n" + s + "```" yields s |
| Analysis.FenceNewlineOptional | App.tsx:187 | the newline after the opening fence is removed when present and nothing else is |
| Analysis.UnfencedUnchanged | App.tsx:187 | text with neither fence passes through unchanged |
| Analysis.BareObjectClean | App.tsx:186-188 | a bare JSON object with blank padding reaches `JSON.parse` without the padding |
| Analysis.FencedClean | App.tsx:186-188 | any payload between the two fences, with blank padding outside them, reaches `JSON.parse` as exactly that payload |
| Analysis.FencedAndBareParseAlike | App.tsx:186-188 | a JSON object placed directly between the fences, with no line break before the closing fence, reaches `JSON.parse` as the same text as the bare object, with any blank padding |
| Analysis.MarkdownFencedClean | App.tsx:186-188 | when the closing fence sits on its own line, `JSON.parse` receives the object followed by that line break, not the bare object |
| Analysis.MarkdownFencedParsesAlike | App.tsx:186-188 | a Markdown-fenced object and the bare object parse to the same value, for any parser that ignores a trailing line break after the object |
| Analysis.FaultResultShape | App.tsx:190-199 | every fault becomes zero scores, stage "Error", headline "Error de Análisis" and one critical item, whose message is the too-large/unsupported text iff the fault is an `Error` whose message contains "400" or "500" |
| Analysis.FaultExamples | App.tsx:192-195 | "HTTP 400" and "500" errors get the specific message; a non-`Error` throw and a "timeout" error get the generic one |
| Analysis.GetFormatAnalysis | App.tsx:27-201 | without an API key, or with an empty set, there is no call and the result is an N/A stand-in with the configuration or "Error" headline; a call is made iff a key is set, the set is non-empty and the file read succeeds, and it sends exactly the parts; read, call and parse faults become the fault result, and otherwise the parsed answer of the cleaned text is returned |
| Analysis.OnlyTheModelAnswers | App.tsx:170-199 | whenever the model is not consulted or its call fails, the result is a stand-in with zero effectiveness, a sentinel funnel stage and one critical item; `null` arises only from an answer that parses to `null` |
| Analysis.RequestShape | App.tsx:46-168 | a request that is sent lists exactly the group's catalog placements, reports whether the relevant creative was given, and attaches the relevant creative or else the other slot's |
| Intake.KindOf | App.tsx:244 | a creative is an image exactly when its MIME type starts with "image/", and a video otherwise |
| Intake.KindExamples | App.tsx:244 | "image/png" is an image; "video/mp4", the empty type and "application/pdf" are videos |
| Intake.Decode | App.tsx:246-261 | a decode yields a creative exactly when it succeeded, carrying the file, its kind, the decoded size and its slot |
| Intake.Begin | App.tsx:222-228 | an upload without files does nothing; otherwise the counter starts at the file count, nothing is decoded yet and the current set is captured |
| Intake.Settle | App.tsx:230-260 | each settlement decrements the counter, records a successful decode in its own slot only, and commits the merge over the captured set exactly when the counter reaches zero |
| Intake.Run | App.tsx:230-269 | after any sequence of settlements the counter has dropped by their number, and files and capture are unchanged |
| Intake.CommitsOnceWhenAllSettled | App.tsx:221-270 | when each decode settles exactly once, then whatever the settlement order and outcomes, the upload commits exactly once, at its last settlement, and never before; what it commits is the per-slot merge of new decodes over the captured set |
| Intake.DoubleSettlementCommitsEarly | App.tsx:230-260 | a video decode that settles twice (metadata, then error) makes a two-file upload commit at its second settlement, with the other slot still the captured creative and the counter ending at -1 |
| Intake.CommittedPerSlot | App.tsx:233-236 | a committed slot is the new creative if its file decoded, and the captured creative if it had no file or its decode failed |
| Intake.CommittedWellTagged | App.tsx:233-247 | committing keeps every creative in the slot its tag names |
| AppState.Reset | App.tsx:292-298 | reset shows the upload view with an empty set, no group, no result and loading off |
| AppState.ResetForgets | App.tsx:292-298 | reset is idempotent and its result does not depend on the state it starts from |
| AppState.GoBack | App.tsx:286-290 | going back shows format selection and clears group and result, keeping the creatives and the loading flag |
| AppState.SelectBegin | App.tsx:272-280 | selecting a format with no creative changes nothing; otherwise it records the group, shows the analysis view, raises loading and clears the result, keeping the creatives |
| AppState.SelectFinish | App.tsx:281-283 | when the request resolves, its result is stored and loading drops, with nothing else changed |
| AppState.SelectFormat | App.tsx:272-284 | a completed selection on a non-empty set shows the analysis of that group, with the result `getFormatAnalysis` resolves to and loading off |
| AppState.GoBackUndoesSelect | App.tsx:272-290 | going back after an analysis restores exactly the selection state it started from |
| AppState.UploadBatch | App.tsx:221-270 | an upload with files commits the merged set over the pre-call capture and shows format selection whatever the outcomes; a reset clears group, result and loading first when the view was not the upload view |
| AppState.CaptureBeforeReset | App.tsx:227-266 | the capture reads the set of the render that started the upload, so a slot without a new file keeps the creative the reset clears |
| AppState.FirstSelectionIsOneFile | components/FileUpload.tsx:66-71 | the widget mounts with an empty map, so its first selection hands over exactly one file |
| AppState.OneCreativeAtATime | App.tsx:221-298 | with one action at a time and one file per upload, no state ever holds more than one creative |
| AppState.OverlappingUploadHoldsBoth | App.tsx:221-266 | a two-file upload from the initial state is accepted and, with both decodes succeeding, holds both creatives |
| AppState.UploadBatchFixed | App.tsx:237-238 | the corrected batch end shows format selection exactly when the committed set holds a creative, and stays on the upload view otherwise; in every other field it agrees with the batch as written |
| AppState.StepAsWrittenKeepsConsistent | App.tsx:204-343 | every on-screen action keeps the invariant: upload view empty, selection view without group or result, analysis view with a group and a creative, nothing loading, creatives in their own slots |
| AppState.StepKeepsLive | App.tsx:204-343 | with the corrected batch end, every view past upload also keeps a creative |
| AppState.InitialIsLive | App.tsx:204-208 | the initial state satisfies the invariant |
| AppState.LiveStatesCanMove | App.tsx:309-343 | in every such state some control is on screen |
| AppState.WidgetSelectionIsEnabled | components/FileUpload.tsx:68-71 | whatever the upload widget hands over is an upload the upload view accepts |
| AppState.FailedFirstUploadIsDeadEnd | App.tsx:230-238 | as written, a first upload whose decodes all fail shows format selection with an empty set, where no control is on screen |
| AppState.FailedFirstUploadStaysOnUpload | App.tsx:237-238 | with the corrected batch end, the same upload returns to the initial upload view |
| AppState.InFlightControls | components/PlatformAnalysisView.tsx:69-86 | while a request is in flight the back button, the selector and the upload widget are gone, and reset stays available |
| AnalysisView.LeadingDigits | components/PlatformAnalysisView.tsx:94 | the digits `parseInt` reads are the longest all-digit prefix of the text |
| AnalysisView.ParseInt | components/PlatformAnalysisView.tsx:94 | `parseInt` yields no number exactly when the text is empty or does not start with a digit |
| AnalysisView.DecimalString | components/PlatformAnalysisView.tsx:94 | a number written in decimal is all digits, without a leading zero, and has the number's value |
| AnalysisView.ParseDecimal | components/PlatformAnalysisView.tsx:94 | `parseInt` reads back any decimal number followed by text that does not continue its digits |
| AnalysisView.ParseExamples | components/PlatformAnalysisView.tsx:94 | "11" reads as 11, "3a" as 3, and "x3" and the empty text as no number |
| AnalysisView.FindSummary | components/PlatformAnalysisView.tsx:94 | the lookup finds no critique exactly when no entry parses to the placement's number |
| AnalysisView.FindsFirstMatch | components/PlatformAnalysisView.tsx:94 | when an entry parses to the placement's number and no earlier entry does, the lookup returns that entry's critique |
| AnalysisView.DecimalKeyNamesOnePlacement | components/PlatformAnalysisView.tsx:94 | a critique keyed by a placement's decimal number matches that placement and no other |
| AnalysisView.DecimalKeysAreFound | components/PlatformAnalysisView.tsx:94 | a critique keyed by the placement's decimal number is shown when every earlier critique is keyed by another placement's decimal number |
| AnalysisView.Cards | components/PlatformAnalysisView.tsx:73-105 | one card per placement of the group, in catalog order, each with the critique the result keys to it, or none without a result |
| AnalysisView.Render | components/PlatformAnalysisView.tsx:69-108 | while loading only the skeleton shows; otherwise the panel, the group's cards and the conclusion, which shows iff a result is present |
| AnalysisView.CardsFollowGroupOnly | components/PlatformAnalysisView.tsx:73-93 | the cards shown depend on the group only: any result gives the same six placements in the same order |
| AnalysisView.NoResultNoCritique | components/PlatformAnalysisView.tsx:94-108 | without a result no card has a critique and there is no conclusion card |
| AnalysisView.RecommendationsPanel | components/Recommendations.tsx:184-185 | the skeleton shows iff loading, and the result body iff a result is present and loading is over |
| AnalysisView.Body | components/Recommendations.tsx:185-219 | the body bands the result's text ratio, gives each recommendation its severity tone in order, and shows every Advantage+ entry in order, closed |
| AnalysisView.TextRatioBand | components/Recommendations.tsx:68-90 | red iff the ratio is above 35, yellow iff it is above 20 and at most 35, green iff at most 20 |
| AnalysisView.BandMonotone | components/Recommendations.tsx:76-90 | a higher text ratio never gets a milder band |
| AnalysisView.BandBoundaries | components/Recommendations.tsx:76-90 | 20 is green and 35 is yellow |
| AnalysisView.SeverityTone | components/Recommendations.tsx:4-29 | the recommendation lookup is total and never yellow |
| AnalysisView.ChecklistTone | components/PlatformAnalysisView.tsx:8-12 | the checklist lookup is total and never blue |
| AnalysisView.TonesDistinguishSeverities | components/Recommendations.tsx:4-29 | each lookup gives different severities different tones |
| AnalysisView.AdvantageTone | components/Recommendations.tsx:120-129 | an Advantage+ item is caution-styled exactly when it is marked CAUTION |
| AnalysisView.NewAdvantageItem | components/Recommendations.tsx:118-119 | a new Advantage+ item starts closed |
| AnalysisView.Toggle | components/Recommendations.tsx:126 | a click flips the open state and keeps the item |
| AnalysisView.ShownJustification | components/Recommendations.tsx:134-138 | the justification is visible exactly while the item is open |
| AnalysisView.ToggleTwice | components/Recommendations.tsx:119-138 | two clicks restore the item and a new item clicked twice is closed; clicks never change caution styling |
| FileUpload.SelectFile | components/FileUpload.tsx:68-72 | selecting a file for a slot stores it under that slot, leaves the other slot's file alone, and hands over exactly the map it stores |
| FileUpload.SelectionIsNeverEmpty | components/FileUpload.tsx:68-71 | the map handed over always holds a file |
| FileUpload.SelectionsCommute | components/FileUpload.tsx:69 | selecting for both slots keeps both files, whichever is chosen first |
| FileUpload.HandleFileChange | components/FileUpload.tsx:15-20 | a change without a first file does nothing and passes nothing on; otherwise the first file is shown and passed on |
| FileUpload.HandleDrop | components/FileUpload.tsx:26-34 | a drop without files does nothing; otherwise only the first dropped file is shown and passed on |
| FileUpload.ChangeAndDropAgree | components/FileUpload.tsx:15-34 | choosing and dropping the same list have the same effect |
| FileUpload.Caption | components/FileUpload.tsx:55-59 | the box shows the file name when it is set and non-empty, and the description otherwise |
| FileUpload.ShowsLastAccepted | components/FileUpload.tsx:18-31 | after any series of inputs, the box shows the name of the most recently accepted file, or keeps its earlier state if none was accepted |

## Left out

- Rendering (JSX, CSS classes, SVG icons, the preview modal and `AdPreview`)
  is presentation. Colours appear only as the tone they signal.
- The prompt text, `META_ADS_GUIDELINES` and the response schema are not
  modelled. The prompt is reduced to the facts it interpolates: the group,
  which slots are filled, whether the relevant creative is present, and the
  listed placement ids.
- The Gemini SDK call is an opaque `Outcome<string>` in `Service.response`.
  Constructing the client is assumed not to throw.
- `JSON.parse` is an opaque function `Service.parse` that may return a
  result, `null` or a fault. The model assumes every parsed answer is a
  well-shaped `AnalysisResult` or `null`. The code stores whatever JSON value
  the parse yields without checking it (App.tsx:188, 282). Other shapes, such
  as `{}` or `[]`, make rendering throw in the code
  (components/PlatformAnalysisView.tsx:94) and cannot be represented here.
  `AnalysisView.Cards`, `AnalysisView.Render` and the `AppState` invariants
  rely on this assumption.
- Analysis.FencedAndBareParseAlike: covers only an object placed directly
  before the closing fence. With the closing fence on its own line, the
  usual Markdown form, the strip keeps the line break, and the parser gets
  the object plus a newline (`Analysis.MarkdownFencedClean`). That form
  parses alike only because `JSON.parse` ignores trailing blanks, which
  `Analysis.MarkdownFencedParsesAlike` takes as a hypothesis about the
  parser.
- `FileReader`/base64 encoding (`fileToGenerativePart`) appears only as the
  fault it may raise (`Service.readFault`).
- Object URLs, their revocation and the `useEffect` cleanup are a browser
  resource lifecycle. The `url` field of a creative is omitted.
- Image and video decoding appears only as the order of settlements and
  their outcomes. The callbacks' interleaving with other user actions is
  not modelled.
- Concurrency is not modelled. `SelectFormat` takes the request as one step,
  so no action can land while a request is in flight. In the code, a reset
  pressed during a request is followed by the request's own setters, which
  write back only the result and the loading flag (App.tsx:282-283). That
  leaves the upload view with an empty set and a stale result, a state
  `AppState.Consistent` excludes.
- An upload batch is one step, so a second file chosen while the first
  file's decode is pending is not modelled as its own action. The widget
  hands over a map of every file chosen so far after each choice
  (components/FileUpload.tsx:68-71). A two-file `UploadFiles` event stands
  for that overlap. Taken one action at a time, the first choice always
  leaves the upload view with a single creative
  (`AppState.OneCreativeAtATime`), although the widget's caption offers
  uploading one or both (components/FileUpload.tsx:89).
- Intake.CommitsOnceWhenAllSettled: assumes each decode settles exactly
  once. The code wires both `onloadedmetadata` and `onerror` of a video to
  `onFileProcessed` (App.tsx:258-259). A media element can report an
  `error` after its metadata has loaded. Then the counter is decremented
  twice, and the upload commits early and drops a later decode
  (`Intake.DoubleSettlementCommitsEarly`). Whether a browser does this for
  a file that is never played is outside what the model can decide.
- `ScoreCircle` geometry uses `Math.PI` and floating point. Scores are reals.
- AnalysisView.TextRatioBand: `NaN` is not modelled. In the code it falls
  through to green.
- AnalysisView.ParseInt: models only the leading decimal-digit prefix.
  Leading blanks, signs and radix prefixes, which `parseInt` also accepts,
  are not modelled.
- Console logging is not modelled. The `File` contents are reduced to name
  and MIME type.

## Findings

| source | as written | input that shows it | evidently intended | confidence | as-written member | corrected member |
|---|---|---|---|---|---|---|
| App.tsx:230-238 | when the last decode settles, the view switches to format selection even if the committed set is empty | a first upload of one file whose decode fails (an image the browser cannot decode): format selection is shown with an empty set, so neither the selector (App.tsx:331) nor the reset button (App.tsx:309) renders, and the upload widget is gone (App.tsx:325) | stay on the upload view when nothing was decoded, so every view past upload holds a creative and always offers a control | not executed; high | AppState.FailedFirstUploadIsDeadEnd | AppState.StepKeepsLive |

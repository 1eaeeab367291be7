/** The application's screen state (App.tsx `App`): which view is showing,
    the creative set, the selected format group, the analysis result and the
    loading flag, with the transitions the user can trigger. An upload batch
    and an analysis request are each taken as one step: the batch by the
    set it commits once every decode has settled, the request by the result
    `getFormatAnalysis` resolves to. */
module AppState {
  import opened Basics
  import opened Types
  import Intake
  import Analysis
  import FileUpload

  datatype View = Upload | FormatSelection | FormatAnalysis

  datatype AppState = AppState(
    view: View,
    creatives: CreativeSet,
    group: Option<FormatGroup>,
    result: Option<AnalysisResult>,
    loading: bool)
  {
    /** `hasAnyCreative` */
    predicate HasAnyCreative() {
      !IsEmptySet(creatives)
    }
  }

  /** The initial `useState` values. */
  const Initial: AppState := AppState(Upload, EmptyCreativeSet, None, None, false)

  /** `handleReset`: every field goes back to its initial value, whatever
      the state was. */
  function Reset(s: AppState): (r: AppState)
    ensures r.view == Upload && IsEmptySet(r.creatives)
    ensures r.group.None? && r.result.None? && !r.loading
  {
    Initial
  }

  /** `handleGoBack`: back to format selection with group and result
      cleared; the creative set and the loading flag are untouched. */
  function GoBack(s: AppState): (r: AppState)
    ensures r.view == FormatSelection && r.group.None? && r.result.None?
    ensures r.creatives == s.creatives && r.loading == s.loading
  {
    s.(view := FormatSelection, group := None, result := None)
  }

  /** The synchronous half of `handleFormatSelect`, before the request
      resolves: nothing changes for an empty set; otherwise the group is
      recorded, the analysis view shown, loading raised and the result
      cleared. */
  function SelectBegin(s: AppState, g: FormatGroup): (r: AppState)
    ensures !s.HasAnyCreative() ==> r == s
    ensures s.HasAnyCreative() ==>
              r.view == FormatAnalysis && r.group == Some(g) && r.loading && r.result.None?
              && r.creatives == s.creatives
  {
    if !s.HasAnyCreative() then s
    else s.(group := Some(g), view := FormatAnalysis, loading := true, result := None)
  }

  /** The half after the request resolves: store the result, drop the
      loading flag. */
  function SelectFinish(s: AppState, result: Option<AnalysisResult>): (r: AppState)
    ensures r.result == result && !r.loading
    ensures r.view == s.view && r.group == s.group && r.creatives == s.creatives
  {
    s.(result := result, loading := false)
  }

  /** `handleFormatSelect` as a whole, with the request answered by `svc`. */
  function SelectFormat(s: AppState, g: FormatGroup, svc: Analysis.Service): (r: AppState)
    ensures !s.HasAnyCreative() ==> r == s
    ensures s.HasAnyCreative() ==>
              r.view == FormatAnalysis && r.group == Some(g) && !r.loading && r.creatives == s.creatives
              && r.result == Analysis.GetFormatAnalysis(s.creatives, g, svc).result
  {
    if !s.HasAnyCreative() then s
    else SelectFinish(SelectBegin(s, g), Analysis.GetFormatAnalysis(s.creatives, g, svc).result)
  }

  /** `handleFileUpload` once its batch has settled, as written: nothing
      happens without files; otherwise the current set is captured, the
      state is reset when the view is not the upload view, and the merged
      set is committed with the view switched to format selection whatever
      the decode outcomes were. */
  function UploadBatch(s: AppState, files: SlotFiles, outcomes: PerSlot<Intake.DecodeOutcome>): (r: AppState)
    ensures PresentCount(files) == 0 ==> r == s
    ensures PresentCount(files) > 0 ==>
              r.view == FormatSelection && r.creatives == Intake.Committed(s.creatives, files, outcomes)
    ensures PresentCount(files) > 0 && s.view == Upload ==>
              r.group == s.group && r.result == s.result && r.loading == s.loading
    ensures PresentCount(files) > 0 && s.view != Upload ==>
              r.group.None? && r.result.None? && !r.loading
  {
    if PresentCount(files) == 0 then s
    else
      var captured := s.creatives;
      var base := if s.view != Upload then Reset(s) else s;
      base.(creatives := Intake.Committed(captured, files, outcomes), view := FormatSelection)
  }

  /** The batch as it evidently should end: switch to format selection only
      when the committed set holds a creative, and stay on the upload view
      otherwise. */
  function UploadBatchFixed(s: AppState, files: SlotFiles, outcomes: PerSlot<Intake.DecodeOutcome>): (r: AppState)
    ensures PresentCount(files) == 0 ==> r == s
    ensures PresentCount(files) > 0 ==> r.creatives == Intake.Committed(s.creatives, files, outcomes)
    ensures PresentCount(files) > 0 ==> (r.view == FormatSelection <==> r.HasAnyCreative())
    ensures PresentCount(files) > 0 && !r.HasAnyCreative() ==> r.view == Upload
    ensures r == UploadBatch(s, files, outcomes).(view := r.view)
  {
    var r := UploadBatch(s, files, outcomes);
    if PresentCount(files) > 0 && !r.HasAnyCreative() then r.(view := Upload) else r
  }

  /** What the user can do: upload through the upload widget, pick a format
      group, press the back button, or press the reset button. */
  datatype UiEvent =
    | UploadFiles(files: SlotFiles, outcomes: PerSlot<Intake.DecodeOutcome>)
    | SelectGroup(g: FormatGroup, svc: Analysis.Service)
    | GoBackPressed
    | ResetPressed

  /** Whether the control that raises `ev` is on screen: the upload widget
      only in the upload view, and it always hands over at least one file;
      the format selector in format selection when a creative exists; the
      back button in the analysis view once loading is over; the reset
      button whenever a creative exists. */
  predicate Enabled(s: AppState, ev: UiEvent) {
    match ev
    case UploadFiles(files, _) => s.view == Upload && PresentCount(files) > 0
    case SelectGroup(_, _) => s.view == FormatSelection && s.HasAnyCreative()
    case GoBackPressed => s.view == FormatAnalysis && s.group.Some? && !s.loading
    case ResetPressed => s.HasAnyCreative()
  }

  /** One user step, as written. */
  function StepAsWritten(s: AppState, ev: UiEvent): AppState {
    match ev
    case UploadFiles(files, outcomes) => UploadBatch(s, files, outcomes)
    case SelectGroup(g, svc) => SelectFormat(s, g, svc)
    case GoBackPressed => GoBack(s)
    case ResetPressed => Reset(s)
  }

  /** One user step, with the corrected end of an upload batch. */
  function Step(s: AppState, ev: UiEvent): AppState {
    match ev
    case UploadFiles(files, outcomes) => UploadBatchFixed(s, files, outcomes)
    case _ => StepAsWritten(s, ev)
  }

  /** The invariant every reachable state keeps: the upload view holds
      nothing; format selection has no group and no result; the analysis
      view has a group and a creative; nothing is loading between steps;
      every creative sits in its own slot. */
  predicate Consistent(s: AppState) {
    && (s.view == Upload ==> IsEmptySet(s.creatives) && s.group.None? && s.result.None?)
    && (s.view == FormatSelection ==> s.group.None? && s.result.None?)
    && (s.view == FormatAnalysis ==> s.group.Some? && s.HasAnyCreative())
    && !s.loading
    && WellTagged(s.creatives)
  }

  /** Additionally, every view past the upload view holds a creative. */
  predicate Live(s: AppState) {
    Consistent(s) && (s.view != Upload ==> s.HasAnyCreative())
  }

  lemma InitialIsLive()
    ensures Live(Initial)
  {
  }

  lemma StepAsWrittenKeepsConsistent(s: AppState, ev: UiEvent)
    requires Consistent(s) && Enabled(s, ev)
    ensures Consistent(StepAsWritten(s, ev))
  {
    if ev.UploadFiles? {
      Intake.CommittedWellTagged(s.creatives, ev.files, ev.outcomes);
    }
  }

  lemma StepKeepsLive(s: AppState, ev: UiEvent)
    requires Live(s) && Enabled(s, ev)
    ensures Live(Step(s, ev))
  {
    if ev.UploadFiles? {
      Intake.CommittedWellTagged(s.creatives, ev.files, ev.outcomes);
      var r := Step(s, ev);
      if !r.HasAnyCreative() {
        assert r.view == Upload;
        assert r.creatives == Intake.Committed(s.creatives, ev.files, ev.outcomes);
      }
    }
  }

  /** A request answered without any call: no API key. */
  const Offline: Analysis.Service := Analysis.Service(false, None, Thrown(OtherThrown), _ => Thrown(OtherThrown))

  /** In every live state some control is on screen. */
  lemma LiveStatesCanMove(s: AppState)
    requires Live(s)
    ensures exists ev :: Enabled(s, ev)
  {
    match s.view
    case Upload =>
      var files: SlotFiles := PerSlot(Some(File("a", "image/png")), None);
      assert Enabled(s, UploadFiles(files, PerSlot(Intake.DecodeFailed, Intake.DecodeFailed)));
    case FormatSelection =>
      assert Enabled(s, SelectGroup(SquareLike, Offline));
    case FormatAnalysis =>
      assert Enabled(s, GoBackPressed);
  }

  /** Every selection the upload widget hands over is an upload the upload
      view accepts. */
  lemma WidgetSelectionIsEnabled(s: AppState, files: SlotFiles, file: File, slot: Slot,
                                 outcomes: PerSlot<Intake.DecodeOutcome>)
    requires s.view == Upload
    ensures Enabled(s, UploadFiles(FileUpload.SelectFile(files, file, slot).passed, outcomes))
  {
    FileUpload.SelectionIsNeverEmpty(files, file, slot);
  }

  /** The dead end, as written: a first upload whose every decode fails
      commits an empty set and still switches to format selection, where
      neither the format selector nor the reset button is rendered and the
      upload widget is gone, so no control is left. The state still meets
      `Consistent`, so the invariant does not rule it out. */
  lemma FailedFirstUploadIsDeadEnd(files: SlotFiles)
    requires PresentCount(files) > 0
    ensures var s := StepAsWritten(Initial, UploadFiles(files, PerSlot(Intake.DecodeFailed, Intake.DecodeFailed)));
            s.view == FormatSelection && Consistent(s) && !Live(s)
            && forall ev :: !Enabled(s, ev)
  {
    var s := StepAsWritten(Initial, UploadFiles(files, PerSlot(Intake.DecodeFailed, Intake.DecodeFailed)));
    assert s.creatives == EmptyCreativeSet;
  }

  /** The corrected step leaves the same upload on the upload view, where
      the user can try again. */
  lemma FailedFirstUploadStaysOnUpload(files: SlotFiles)
    requires PresentCount(files) > 0
    ensures Step(Initial, UploadFiles(files, PerSlot(Intake.DecodeFailed, Intake.DecodeFailed))) == Initial
  {
  }

  /** Going back after an analysis returns to exactly the selection state
      the analysis started from, whatever the request returned. */
  lemma GoBackUndoesSelect(s: AppState, g: FormatGroup, svc: Analysis.Service)
    requires Consistent(s) && s.view == FormatSelection && s.HasAnyCreative()
    ensures GoBack(SelectFormat(s, g, svc)) == s
  {
  }

  /** Reset is idempotent and forgets the state it started from. */
  lemma ResetForgets(s: AppState, t: AppState)
    ensures Reset(Reset(s)) == Reset(s)
    ensures Reset(s) == Reset(t)
  {
  }

  /** While a request is in flight only the skeleton is up, so the back
      button is not; the reset button remains. */
  lemma InFlightControls(s: AppState, g: FormatGroup)
    requires Consistent(s) && s.view == FormatSelection && s.HasAnyCreative()
    ensures var m := SelectBegin(s, g);
            !Enabled(m, GoBackPressed) && Enabled(m, ResetPressed)
            && forall ev: UiEvent :: ev.SelectGroup? || ev.UploadFiles? ==> !Enabled(m, ev)
  {
  }

  /** As written, the capture reads the set of the render that started the
      upload, and the reset's clearing only shows at the next render: an
      upload started outside the upload view would merge over the creatives
      the reset clears. The upload widget is only on screen in the upload
      view, so under `Enabled` this never happens. */
  lemma CaptureBeforeReset(s: AppState, files: SlotFiles, outcomes: PerSlot<Intake.DecodeOutcome>, slot: Slot)
    requires s.view != Upload && PresentCount(files) > 0 && files.At(slot).None?
    ensures UploadBatch(s, files, outcomes).creatives.At(slot) == s.creatives.At(slot)
    ensures Reset(s).creatives.At(slot).None?
  {
    Intake.CommittedPerSlot(s.creatives, files, outcomes, slot);
  }

  /** The upload widget mounts with an empty file map each time the upload
      view is entered, so the first selection hands over exactly one file. */
  lemma FirstSelectionIsOneFile(file: File, slot: Slot)
    ensures PresentCount(FileUpload.SelectFile(PerSlot(None, None), file, slot).passed) == 1
  {
    var p := FileUpload.SelectFile(PerSlot(None, None), file, slot).passed;
    assert p.At(slot.Other()).None?;
  }

  /** Taken one action at a time, a state never holds two creatives: an
      upload of one file commits over the empty set of the upload view, and
      its batch always leaves that view, which only a reset (clearing the
      set) returns to. */
  lemma OneCreativeAtATime(s: AppState, ev: UiEvent)
    requires Consistent(s) && PresentCount(s.creatives) <= 1 && Enabled(s, ev)
    requires ev.UploadFiles? ==> PresentCount(ev.files) == 1
    ensures PresentCount(StepAsWritten(s, ev).creatives) <= 1
  {
    if ev.UploadFiles? {
      var slot := if ev.files.square.Some? then VerticalSlot else SquareSlot;
      assert ev.files.At(slot).None?;
      Intake.CommittedPerSlot(s.creatives, ev.files, ev.outcomes, slot);
      assert StepAsWritten(s, ev).creatives.At(slot).None?;
    }
  }

  /** Both creatives arrive together only through an upload of two files,
      which the widget hands over when the second file is chosen before the
      first upload's decode has settled. */
  lemma OverlappingUploadHoldsBoth(sq: File, vt: File, w: nat, h: nat)
    ensures var files := PerSlot(Some(sq), Some(vt));
            var r := StepAsWritten(Initial, UploadFiles(files, PerSlot(Intake.Decoded(w, h), Intake.Decoded(w, h))));
            Enabled(Initial, UploadFiles(files, PerSlot(Intake.Decoded(w, h), Intake.Decoded(w, h))))
            && PresentCount(r.creatives) == 2
  {
  }
}

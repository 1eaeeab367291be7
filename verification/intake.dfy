/** Creative intake (`handleFileUpload`): each uploaded file is classified
    by MIME type and decoded asynchronously; a counter of pending decodes is
    decremented as each one settles, and the creative set is committed once,
    when the counter reaches zero, as a per-slot merge over the set captured
    when the upload began. The decode callbacks are reduced to the order in
    which they settle and their outcomes. */
module Intake {
  import opened Basics
  import opened Types

  const ImagePrefix: string := "image/"

  /** `file.type.startsWith('image/') ? 'image' : 'video'` */
  function KindOf(mimeType: string): (k: CreativeKind)
    ensures k == Image <==> HasPrefix(mimeType, ImagePrefix)
  {
    if HasPrefix(mimeType, ImagePrefix) then Image else Video
  }

  /** Anything that is not an image is treated as a video, including an
      empty or non-media MIME type. */
  lemma KindExamples()
    ensures KindOf("image/png") == Image
    ensures KindOf("video/mp4") == Video
    ensures KindOf("") == Video
    ensures KindOf("application/pdf") == Video
  {
    assert "image/png"[..6] == ImagePrefix;
    assert "video/mp4"[0] != ImagePrefix[0];
    assert "application/pdf"[0] != ImagePrefix[0];
  }

  /** How the decode of one file settled: with the decoded pixel size
      (`onload` / `onloadedmetadata`) or with an error (`onerror`). */
  datatype DecodeOutcome = Decoded(width: nat, height: nat) | DecodeFailed

  /** One settled decode: the slot it belongs to and its outcome. */
  datatype Settlement = Settlement(slot: Slot, outcome: DecodeOutcome)

  /** The creative a decode produces for `file` in `slot`, if it succeeded. */
  function Decode(file: File, slot: Slot, outcome: DecodeOutcome): (c: Option<Creative>)
    ensures c.Some? <==> outcome.Decoded?
    ensures c.Some? ==> c.value == Creative(file, KindOf(file.mimeType), outcome.width, outcome.height, slot)
  {
    match outcome
    case Decoded(w, h) => Some(Creative(file, KindOf(file.mimeType), w, h, slot))
    case DecodeFailed => None
  }

  /** `square: newCreativeSet.square || currentSquare`, and likewise for
      the vertical slot. */
  function Merge(decoded: CreativeSet, captured: CreativeSet): CreativeSet {
    PerSlot(if decoded.square.Some? then decoded.square else captured.square,
            if decoded.vertical.Some? then decoded.vertical else captured.vertical)
  }

  /** The set one upload commits, slot by slot: the newly decoded creative
      where a file was given and decoded, the captured creative otherwise. */
  function Committed(current: CreativeSet, files: SlotFiles, outcomes: PerSlot<DecodeOutcome>): CreativeSet {
    PerSlot(CommittedAt(current, files, outcomes, SquareSlot),
            CommittedAt(current, files, outcomes, VerticalSlot))
  }

  function CommittedAt(current: CreativeSet, files: SlotFiles, outcomes: PerSlot<DecodeOutcome>, slot: Slot): Option<Creative> {
    if files.At(slot).Some? && outcomes.At(slot).Decoded?
    then Decode(files.At(slot).value, slot, outcomes.At(slot))
    else current.At(slot)
  }

  /** The state of an upload in progress: the files, the pending-decode
      counter, the creatives decoded so far and the set captured when the
      upload began. */
  datatype Batch = Batch(files: SlotFiles, pending: int, decoded: CreativeSet, captured: CreativeSet)

  /** Starting an upload: nothing happens for an empty file map; otherwise
      the counter holds the number of files and the current set is captured. */
  function Begin(files: SlotFiles, current: CreativeSet): (b: Option<Batch>)
    ensures b.None? <==> files.square.None? && files.vertical.None?
    ensures b.Some? ==> b.value.pending == PresentCount(files) && b.value.captured == current
                        && b.value.files == files && IsEmptySet(b.value.decoded)
  {
    var count := PresentCount(files);
    if count == 0 then None else Some(Batch(files, count, EmptyCreativeSet, current))
  }

  /** One decode settling (`setCreative` or `onerror`, then
      `onFileProcessed`): record a decoded creative, decrement the counter,
      and commit the merged set when the counter reaches zero. */
  function Settle(b: Batch, e: Settlement): (r: (Batch, Option<CreativeSet>))
    requires b.files.At(e.slot).Some?
    ensures r.0.files == b.files && r.0.captured == b.captured && r.0.pending == b.pending - 1
    ensures r.0.decoded.At(e.slot.Other()) == b.decoded.At(e.slot.Other())
    ensures e.outcome.Decoded? ==> r.0.decoded.At(e.slot) == Decode(b.files.At(e.slot).value, e.slot, e.outcome)
    ensures e.outcome.DecodeFailed? ==> r.0.decoded == b.decoded
    ensures r.1.Some? <==> b.pending == 1
    ensures r.1.Some? ==> r.1.value == Merge(r.0.decoded, b.captured)
  {
    var decoded :=
      if e.outcome.Decoded? then b.decoded.With(e.slot, Decode(b.files.At(e.slot).value, e.slot, e.outcome))
      else b.decoded;
    var next := b.(pending := b.pending - 1, decoded := decoded);
    (next, if next.pending == 0 then Some(Merge(decoded, b.captured)) else None)
  }

  /** The settlements in the order they happen, and the sets committed along
      the way. */
  function Run(b: Batch, events: seq<Settlement>): (r: (Batch, seq<CreativeSet>))
    requires forall i :: 0 <= i < |events| ==> b.files.At(events[i].slot).Some?
    ensures r.0.files == b.files && r.0.captured == b.captured
    ensures r.0.pending == b.pending - |events|
    ensures |r.1| <= |events|
    decreases |events|
  {
    if events == [] then (b, [])
    else
      var (mid, commits) := Run(b, events[..|events| - 1]);
      var (next, commit) := Settle(mid, events[|events| - 1]);
      (next, commits + (if commit.Some? then [commit.value] else []))
  }

  /** A settlement order in which every given file settles exactly once. */
  predicate IsCompletion(files: SlotFiles, events: seq<Settlement>) {
    && |events| == PresentCount(files)
    && (forall i :: 0 <= i < |events| ==> files.At(events[i].slot).Some?)
    && (forall i, j :: 0 <= i < j < |events| ==> events[i].slot != events[j].slot)
  }

  /** The outcome recorded for `slot` in a settlement order (a failure when
      the slot never settles). */
  function OutcomeOf(events: seq<Settlement>, slot: Slot): DecodeOutcome {
    if events == [] then DecodeFailed
    else if events[0].slot == slot then events[0].outcome
    else OutcomeOf(events[1..], slot)
  }

  function Outcomes(events: seq<Settlement>): PerSlot<DecodeOutcome> {
    PerSlot(OutcomeOf(events, SquareSlot), OutcomeOf(events, VerticalSlot))
  }

  /** Whatever order the decodes settle in, and whichever of them fail, an
      upload commits exactly once, on the last settlement, and what it
      commits is the per-slot merge over the captured set. */
  lemma {:induction false} CommitsOnceWhenAllSettled(files: SlotFiles, current: CreativeSet, events: seq<Settlement>)
    requires PresentCount(files) > 0 && IsCompletion(files, events)
    ensures Run(Begin(files, current).value, events).1 == [Committed(current, files, Outcomes(events))]
    ensures forall k :: 0 <= k < |events| ==> Run(Begin(files, current).value, events[..k]).1 == []
  {
    var b := Begin(files, current).value;
    assert events[..0] == [];
    if |events| == 1 {
      var e := events[0];
      assert events[..0] == [] && events == [e];
      var other := e.slot.Other();
      assert files.At(other).None? by {
        assert e.slot == SquareSlot || e.slot == VerticalSlot;
      }
      MergeIsCommitted(files, current, Outcomes(events), b.decoded.With(e.slot, Decode(files.At(e.slot).value, e.slot, e.outcome)));
    } else {
      var e0, e1 := events[0], events[1];
      assert |events| == 2;
      assert events[..1] == [e0];
      assert events[..2] == events;
      assert e1.slot == e0.slot.Other();
      var (mid, c0) := Settle(b, e0);
      assert Run(b, events[..1]) == (mid, []) by {
        assert events[..1][..0] == [];
      }
      assert events[..|events| - 1] == [e0];
      MergeAfterBoth(files, current, events);
    }
  }

  lemma MergeIsCommitted(files: SlotFiles, current: CreativeSet, outcomes: PerSlot<DecodeOutcome>, decoded: CreativeSet)
    requires forall slot: Slot :: decoded.At(slot) ==
               (if files.At(slot).Some? && outcomes.At(slot).Decoded?
                then Decode(files.At(slot).value, slot, outcomes.At(slot)) else None)
    ensures Merge(decoded, current) == Committed(current, files, outcomes)
  {
    assert decoded.At(SquareSlot) == decoded.square;
    assert decoded.At(VerticalSlot) == decoded.vertical;
  }

  lemma MergeAfterBoth(files: SlotFiles, current: CreativeSet, events: seq<Settlement>)
    requires |events| == 2 && PresentCount(files) == 2 && IsCompletion(files, events)
    ensures Run(Begin(files, current).value, events).1 == [Committed(current, files, Outcomes(events))]
  {
    var b := Begin(files, current).value;
    var e0, e1 := events[0], events[1];
    assert events[..1] == [e0];
    assert events[..1][..0] == [];
    var (mid, _) := Settle(b, e0);
    assert Run(b, [e0]) == (mid, []);
    assert events[..|events| - 1] == [e0];
    var (last, commit) := Settle(mid, e1);
    assert mid.pending == 1;
    assert [] + [commit.value] == [commit.value];
    assert Run(b, events) == (last, [commit.value]);
    assert e1.slot == e0.slot.Other();
    assert OutcomeOf(events, e0.slot) == e0.outcome;
    assert OutcomeOf(events, e1.slot) == e1.outcome by {
      assert events[1..] == [e1];
    }
    forall slot: Slot
      ensures last.decoded.At(slot) ==
               (if files.At(slot).Some? && Outcomes(events).At(slot).Decoded?
                then Decode(files.At(slot).value, slot, Outcomes(events).At(slot)) else None)
    {
      if slot == e0.slot {
        assert slot.Other() == e1.slot;
      } else {
        assert slot == e1.slot;
      }
    }
    MergeIsCommitted(files, current, Outcomes(events), last.decoded);
  }

  /** Each slot of the committed set is decided by that slot alone: a
      failed decode keeps the captured creative of its own slot and does not
      disturb the other slot. */
  lemma CommittedPerSlot(current: CreativeSet, files: SlotFiles, outcomes: PerSlot<DecodeOutcome>, slot: Slot)
    ensures files.At(slot).None? ==> Committed(current, files, outcomes).At(slot) == current.At(slot)
    ensures outcomes.At(slot).DecodeFailed? ==> Committed(current, files, outcomes).At(slot) == current.At(slot)
    ensures files.At(slot).Some? && outcomes.At(slot).Decoded? ==>
              Committed(current, files, outcomes).At(slot).Some? &&
              Committed(current, files, outcomes).At(slot).value.file == files.At(slot).value &&
              Committed(current, files, outcomes).At(slot).value.slot == slot
  {
  }

  /** Committing keeps every creative in the slot its tag names. */
  lemma CommittedWellTagged(current: CreativeSet, files: SlotFiles, outcomes: PerSlot<DecodeOutcome>)
    requires WellTagged(current)
    ensures WellTagged(Committed(current, files, outcomes))
  {
    forall slot: Slot | Committed(current, files, outcomes).At(slot).Some?
      ensures Committed(current, files, outcomes).At(slot).value.slot == slot
    {
      CommittedPerSlot(current, files, outcomes, slot);
    }
  }

  /** A decode that settles twice: both `onloadedmetadata` and `onerror`
      call `onFileProcessed`, so a video whose `error` follows its
      `loadedmetadata` decrements the counter twice. With two files, the
      counter then reaches zero before the square decode settles: the upload
      commits at the second settlement with the square slot still the
      captured one, and the square decode is never committed. */
  lemma DoubleSettlementCommitsEarly(sq: File, vt: File, current: CreativeSet, w: nat, h: nat)
    ensures var b := Begin(PerSlot(Some(sq), Some(vt)), current).value;
            var events := [Settlement(VerticalSlot, Decoded(w, h)), Settlement(VerticalSlot, DecodeFailed),
                           Settlement(SquareSlot, Decoded(w, h))];
            var r := Run(b, events);
            && Run(b, events[..2]).1 == r.1
            && |r.1| == 1 && r.1[0].square == current.square
            && r.0.pending == -1
  {
    var b := Begin(PerSlot(Some(sq), Some(vt)), current).value;
    var e0, e1, e2 := Settlement(VerticalSlot, Decoded(w, h)), Settlement(VerticalSlot, DecodeFailed),
                      Settlement(SquareSlot, Decoded(w, h));
    var events := [e0, e1, e2];
    var (b1, c1) := Settle(b, e0);
    var (b2, c2) := Settle(b1, e1);
    var (b3, c3) := Settle(b2, e2);
    assert events[..1] == [e0] && events[..2] == [e0, e1] && [e0, e1][..1] == [e0];
    assert [e0][..0] == [];
    assert b.pending == 2 && c1.None? && b1.pending == 1 && c2.Some? && c3.None?;
    assert Run(b, [e0]) == (b1, []);
    assert [] + [c2.value] == [c2.value] && [c2.value] + [] == [c2.value];
    assert Run(b, [e0, e1]) == (b2, [c2.value]);
    assert events[..|events| - 1] == [e0, e1];
    assert Run(b, events) == (b3, [c2.value]);
    assert c2.value == Merge(b2.decoded, current);
  }
}

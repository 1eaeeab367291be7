/** The upload widget (components/FileUpload.tsx): two drop boxes, one per
    slot, each remembering the name of the last file it accepted, and a
    slot-keyed file map that is stored and handed to the application on
    every selection. */
module FileUpload {
  import opened Basics
  import opened Types

  /** `handleFileSelect`: the map stored by `setFiles` and the map passed to
      `onFileUpload`. */
  datatype Selection = Selection(stored: SlotFiles, passed: SlotFiles)

  /** `{ ...files, [format]: file }`, stored and passed on. */
  function SelectFile(files: SlotFiles, file: File, slot: Slot): (r: Selection)
    ensures r.passed == r.stored
    ensures r.stored.At(slot) == Some(file)
    ensures r.stored.At(slot.Other()) == files.At(slot.Other())
  {
    var next := files.With(slot, Some(file));
    Selection(next, next)
  }

  /** The map the widget hands over is never empty, so an upload started
      from the widget always has a file to process. */
  lemma SelectionIsNeverEmpty(files: SlotFiles, file: File, slot: Slot)
    ensures PresentCount(SelectFile(files, file, slot).passed) > 0
  {
    assert SelectFile(files, file, slot).passed.At(slot).Some?;
  }

  /** Selecting for both slots, in either order, keeps both files. */
  lemma SelectionsCommute(files: SlotFiles, a: File, b: File, slot: Slot)
    ensures SelectFile(SelectFile(files, a, slot).stored, b, slot.Other()).stored
         == SelectFile(SelectFile(files, b, slot.Other()).stored, a, slot).stored
  {
  }

  /** One `UploadBox` with its `fileName` state. */
  datatype UploadBox = UploadBox(fileName: Option<string>)

  /** A box's reaction to an input: its next state and the file it passes
      to `onFileSelect`, if any. */
  datatype BoxStep = BoxStep(box: UploadBox, selected: Option<File>)

  /** A file list from the file input or the drop event; `None` stands for
      a missing list. */
  type FileList = Option<seq<File>>

  /** Whether the guard `files?.[0]` / `files && files[0]` lets a list
      through. */
  predicate Accepts(list: FileList) {
    list.Some? && |list.value| > 0
  }

  /** `handleFileChange`: without a first file nothing happens; otherwise the
      first file's name is shown and the file is passed on. */
  function HandleFileChange(box: UploadBox, list: FileList): (r: BoxStep)
    ensures !Accepts(list) ==> r == BoxStep(box, None)
    ensures Accepts(list) ==> r.selected == Some(list.value[0]) && r.box.fileName == Some(list.value[0].name)
  {
    if list.Some? && |list.value| > 0 then
      var file := list.value[0];
      BoxStep(UploadBox(Some(file.name)), Some(file))
    else BoxStep(box, None)
  }

  /** `handleDrop`: the same guard and effect on the dropped list; only its
      first file is used. */
  function HandleDrop(box: UploadBox, list: FileList): (r: BoxStep)
    ensures !Accepts(list) ==> r == BoxStep(box, None)
    ensures Accepts(list) ==> r.selected == Some(list.value[0]) && r.box.fileName == Some(list.value[0].name)
  {
    if list.Some? && |list.value| > 0 then
      BoxStep(UploadBox(Some(list.value[0].name)), Some(list.value[0]))
    else BoxStep(box, None)
  }

  /** Choosing and dropping behave alike. */
  lemma ChangeAndDropAgree(box: UploadBox, list: FileList)
    ensures HandleFileChange(box, list) == HandleDrop(box, list)
  {
  }

  /** The caption under the box title: the file name when one is set and
      not empty (`fileName ? … : description`), the description otherwise. */
  function Caption(box: UploadBox, description: string): (c: string)
    ensures box.fileName.Some? && box.fileName.value != [] ==> c == box.fileName.value
    ensures box.fileName.None? || box.fileName.value == [] ==> c == description
  {
    match box.fileName
    case Some(name) => if |name| > 0 then name else description
    case None => description
  }

  /** A box after a series of inputs. */
  function Inputs(box: UploadBox, lists: seq<FileList>): UploadBox
    decreases |lists|
  {
    if lists == [] then box
    else HandleFileChange(Inputs(box, lists[..|lists| - 1]), lists[|lists| - 1]).box
  }

  /** Input `i` is accepted and no later input is. */
  predicate LastAcceptedAt(lists: seq<FileList>, i: int) {
    0 <= i < |lists| && Accepts(lists[i]) && forall j :: i < j < |lists| ==> !Accepts(lists[j])
  }

  predicate NoneAccepted(lists: seq<FileList>) {
    forall i :: 0 <= i < |lists| ==> !Accepts(lists[i])
  }

  /** The box shows the name of the most recently accepted file, and keeps
      its earlier state when no input was accepted. */
  lemma {:induction false} ShowsLastAccepted(box: UploadBox, lists: seq<FileList>)
    ensures NoneAccepted(lists) ==> Inputs(box, lists) == box
    ensures forall i :: LastAcceptedAt(lists, i) ==> Inputs(box, lists).fileName == Some(lists[i].value[0].name)
    decreases |lists|
  {
    if lists != [] {
      var n := |lists| - 1;
      var front := lists[..n];
      ShowsLastAccepted(box, front);
      var before := Inputs(box, front);
      assert Inputs(box, lists) == HandleFileChange(before, lists[n]).box;
      if Accepts(lists[n]) {
        forall i | LastAcceptedAt(lists, i) ensures i == n {
        }
      } else {
        assert Inputs(box, lists) == before;
        forall i | LastAcceptedAt(lists, i)
          ensures LastAcceptedAt(front, i)
        {
          assert front[i] == lists[i];
        }
        if NoneAccepted(lists) {
          assert NoneAccepted(front) by {
            forall i | 0 <= i < n ensures !Accepts(front[i]) {
              assert front[i] == lists[i];
            }
          }
        }
      }
    }
  }
}

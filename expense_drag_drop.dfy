/** The expense form's file picker: the files chosen so far (dropped or
    picked), kept without duplicates, mirrored into the form's file input
    and summarised in a feedback label. */
module ExpenseDragDrop {
  import opened Wrappers
  import opened Text
  import opened Seqs

  /** A browser `File`, as far as the picker looks at it: two files with
      the same name and size count as the same file whatever their bytes. */
  datatype File = File(name: string, size: nat, data: seq<bv8>)

  predicate SameFile(a: File, b: File) {
    a.name == b.name && a.size == b.size
  }

  /** `selectedFiles.find(f => f.name === file.name && f.size === file.size)`. */
  function FindSame(files: seq<File>, file: File): (r: Option<nat>)
    ensures r.Some? ==> r.value < |files| && SameFile(files[r.value], file)
    ensures r.None? ==> forall j :: 0 <= j < |files| ==> !SameFile(files[j], file)
  {
    if files == [] then None
    else if SameFile(files[0], file) then Some(0)
    else match FindSame(files[1..], file)
      case None => None
      case Some(k) => Some(k + 1)
  }

  /** No two files share a name and size. */
  ghost predicate NoDuplicates(files: seq<File>) {
    forall i, j :: 0 <= i < j < |files| ==> !SameFile(files[i], files[j])
  }

  /** What `addFiles` makes of the selection: each new file, in order, is
      appended unless the selection already holds the same file. */
  function AddAll(selected: seq<File>, files: seq<File>): seq<File> {
    if files == [] then selected
    else
      var before := AddAll(selected, files[..|files| - 1]);
      if FindSame(before, files[|files| - 1]).Some? then before else before + [files[|files| - 1]]
  }

  /** `removeFile`: `filter(file => file.name !== fileName)`. */
  function NotNamed(fileName: string): File -> bool {
    (f: File) => f.name != fileName
  }

  function Names(files: seq<File>): (r: seq<string>)
    ensures |r| == |files| && forall i :: 0 <= i < |files| ==> r[i] == files[i].name
  {
    seq(|files|, i requires 0 <= i < |files| => files[i].name)
  }

  /** The feedback label's text for a selection. */
  function Label(files: seq<File>): (r: string)
    ensures |files| == 0 ==> r == "No files selected"
    ensures |files| == 1 ==> r == "1 file selected: " + files[0].name
    ensures |files| > 1 ==> r == NatToString(|files|) + " files selected: " + Join(Names(files), ", ")
  {
    if |files| == 0 then "No files selected"
    else if |files| == 1 then "1 file selected: " + files[0].name
    else IntToString(|files|) + " files selected: " + Join(Names(files), ", ")
  }

  // ---------------------------------------------------------------------
  // What adding promises

  /** The selection so far stays in front, in its order. */
  lemma {:induction false} AddAllKeepsSelection(selected: seq<File>, files: seq<File>)
    ensures |selected| <= |AddAll(selected, files)|
    ensures AddAll(selected, files)[..|selected|] == selected
  {
    if files != [] {
      AddAllKeepsSelection(selected, files[..|files| - 1]);
      var before := AddAll(selected, files[..|files| - 1]);
      assert (before + [files[|files| - 1]])[..|selected|] == before[..|selected|];
    }
  }

  /** Adding a batch is adding its first part and then its second: new
      files are appended in the order they come. */
  lemma {:induction false} AddAllAppend(selected: seq<File>, a: seq<File>, b: seq<File>)
    ensures AddAll(selected, a + b) == AddAll(AddAll(selected, a), b)
  {
    if b == [] {
      assert a + b == a;
    } else {
      assert (a + b)[..|a + b| - 1] == a + b[..|b| - 1];
      AddAllAppend(selected, a, b[..|b| - 1]);
    }
  }

  /** Every file ends up selected, or one the same as it does. */
  lemma {:induction false} AddAllCovers(selected: seq<File>, files: seq<File>, i: nat)
    requires i < |files|
    ensures FindSame(AddAll(selected, files), files[i]).Some?
  {
    var init := files[..|files| - 1];
    var before := AddAll(selected, init);
    if i < |files| - 1 {
      AddAllCovers(selected, init, i);
      assert init[i] == files[i];
      var k := FindSame(before, files[i]).value;
      AddAllKeepsSelection(before, [files[|files| - 1]]);
      assert [files[|files| - 1]][..0] == [];
      assert AddAll(before, [files[|files| - 1]]) == AddAll(selected, files) by {
        AddAllAppend(selected, init, [files[|files| - 1]]);
        assert init + [files[|files| - 1]] == files;
      }
      assert AddAll(selected, files)[k] == before[k];
    } else if FindSame(before, files[i]).None? {
      assert AddAll(selected, files)[|before|] == files[i];
    }
  }

  /** Every selected file is either from the old selection or one of the
      files added. */
  lemma {:induction false} AddAllFrom(selected: seq<File>, files: seq<File>, k: nat)
    requires k < |AddAll(selected, files)|
    ensures AddAll(selected, files)[k] in selected || AddAll(selected, files)[k] in files
  {
    if files != [] {
      var init := files[..|files| - 1];
      var before := AddAll(selected, init);
      if k < |before| {
        AddAllFrom(selected, init, k);
        assert AddAll(selected, files)[k] == before[k];
      }
    }
  }

  /** A selection without duplicates stays without duplicates. */
  lemma {:induction false} AddAllKeepsNoDuplicates(selected: seq<File>, files: seq<File>)
    requires NoDuplicates(selected)
    ensures NoDuplicates(AddAll(selected, files))
  {
    if files != [] {
      AddAllKeepsNoDuplicates(selected, files[..|files| - 1]);
    }
  }

  /** Adding files each of which is already selected changes nothing. */
  lemma {:induction false} AddAllOfCovered(selected: seq<File>, files: seq<File>)
    requires forall i :: 0 <= i < |files| ==> FindSame(selected, files[i]).Some?
    ensures AddAll(selected, files) == selected
  {
    if files != [] {
      AddAllOfCovered(selected, files[..|files| - 1]);
    }
  }

  /** Adding the same files twice is adding them once. */
  lemma AddAllIdempotent(selected: seq<File>, files: seq<File>)
    ensures AddAll(AddAll(selected, files), files) == AddAll(selected, files)
  {
    forall i | 0 <= i < |files| ensures FindSame(AddAll(selected, files), files[i]).Some? {
      AddAllCovers(selected, files, i);
    }
    AddAllOfCovered(AddAll(selected, files), files);
  }

  // ---------------------------------------------------------------------
  // What removing promises

  /** Removal keeps a selection free of duplicates. */
  lemma {:induction false} RemoveKeepsNoDuplicates(selected: seq<File>, fileName: string)
    requires NoDuplicates(selected)
    ensures NoDuplicates(Filter(selected, NotNamed(fileName)))
  {
    if selected != [] {
      var init := selected[..|selected| - 1];
      var last := selected[|selected| - 1];
      RemoveKeepsNoDuplicates(init, fileName);
      var r0 := Filter(init, NotNamed(fileName));
      forall i | 0 <= i < |r0| ensures !SameFile(r0[i], last) {
        var p :| 0 <= p < |init| && init[p] == r0[i];
      }
    }
  }

  // ---------------------------------------------------------------------
  // The label

  /** The text before the first space. */
  function FirstWord(s: string): string {
    match IndexOf(s, ' ')
    case None => s
    case Some(k) => s[..k]
  }

  /** The first word of a text that starts with a word and a space. */
  lemma FirstWordIs(s: string, word: string)
    requires |word| < |s| && s[..|word|] == word && s[|word|] == ' '
    requires forall j :: 0 <= j < |word| ==> word[j] != ' '
    ensures FirstWord(s) == word
  {
    assert forall j :: 0 <= j < |word| ==> s[j] == word[j];
    assert IndexOf(s, ' ') == Some(|word|);
  }

  lemma EmptyLabelOpensWithNo(files: seq<File>)
    requires |files| == 0
    ensures FirstWord(Label(files)) == "No"
  {
    FirstWordIs(Label(files), "No");
  }

  lemma SingleLabelOpensWithOne(files: seq<File>)
    requires |files| == 1
    ensures FirstWord(Label(files)) == NatToString(1)
  {
    FirstWordIs(Label(files), "1");
  }

  lemma WordThenSpace(word: string, tail: string)
    requires tail != [] && tail[0] == ' '
    ensures |word| < |word + tail| && (word + tail)[..|word|] == word && (word + tail)[|word|] == ' '
  {
  }

  lemma NoSpaceInDigits(digits: string)
    requires AllDigits(digits)
    ensures forall j :: 0 <= j < |digits| ==> digits[j] != ' '
  {
    assert forall j :: 0 <= j < |digits| ==> IsDigit(digits[j]);
  }

  lemma ManyLabelOpensWithCount(files: seq<File>)
    requires |files| > 1
    ensures FirstWord(Label(files)) == NatToString(|files|)
  {
    var digits := NatToString(|files|);
    var tail := " files selected: " + Join(Names(files), ", ");
    assert Label(files) == digits + tail;
    WordThenSpace(digits, tail);
    NoSpaceInDigits(digits);
    FirstWordIs(digits + tail, digits);
  }

  /** The label opens with the count: "No" for none, the number otherwise. */
  lemma LabelOpensWithCount(files: seq<File>)
    ensures FirstWord(Label(files)) == if |files| == 0 then "No" else NatToString(|files|)
  {
    if |files| == 0 {
      EmptyLabelOpensWithNo(files);
    } else if |files| == 1 {
      SingleLabelOpensWithOne(files);
    } else {
      ManyLabelOpensWithCount(files);
    }
  }

  /** Two selections with the same label have the same size. */
  lemma LabelDeterminesCount(a: seq<File>, b: seq<File>)
    requires Label(a) == Label(b)
    ensures |a| == |b|
  {
    LabelOpensWithCount(a);
    LabelOpensWithCount(b);
    if |a| != 0 && |b| != 0 {
      NatToStringInjective(|a|, |b|);
    }
  }

  // ---------------------------------------------------------------------
  // The page state

  /** The picker's state: the selection, what the form's file input holds,
      and the feedback label's text (None when the page has no label). */
  class FilePicker {
    var selectedFiles: seq<File>
    var inputFiles: seq<File>
    var feedback: Option<string>

    /** After every change the input mirrors the selection and the label,
        if there is one, describes it. */
    ghost predicate Shown()
      reads this
    {
      inputFiles == selectedFiles && (feedback.Some? ==> feedback.value == Label(selectedFiles))
    }

    /** A fresh page: nothing is selected. */
    constructor (hasLabel: bool)
      ensures selectedFiles == [] && inputFiles == []
      ensures feedback == if hasLabel then Some(Label([])) else None
      ensures Shown()
    {
      selectedFiles := [];
      inputFiles := [];
      feedback := if hasLabel then Some(Label([])) else None;
    }

    /** updateLabel: nothing to do without a label element. */
    method UpdateLabel()
      modifies this`feedback
      ensures feedback == if old(feedback).Some? then Some(Label(selectedFiles)) else None
    {
      if feedback.None? {
        return;
      }
      if |selectedFiles| == 0 {
        feedback := Some("No files selected");
      } else if |selectedFiles| == 1 {
        feedback := Some("1 file selected: " + selectedFiles[0].name);
      } else {
        var fileNames := Join(Names(selectedFiles), ", ");
        feedback := Some(IntToString(|selectedFiles|) + " files selected: " + fileNames);
      }
    }

    /** updateFileInput: the input gets the selection, then the label. */
    method UpdateFileInput()
      modifies this`inputFiles, this`feedback
      ensures Shown()
      ensures feedback.Some? <==> old(feedback).Some?
    {
      inputFiles := selectedFiles;
      UpdateLabel();
    }

    /** addFiles: each file not already selected (by name and size) is
        appended, in order. */
    method AddFiles(files: seq<File>)
      modifies this
      ensures selectedFiles == AddAll(old(selectedFiles), files)
      ensures Shown() && (feedback.Some? <==> old(feedback).Some?)
    {
      ghost var start := selectedFiles;
      for i := 0 to |files|
        invariant selectedFiles == AddAll(start, files[..i])
        invariant feedback == old(feedback)
      {
        var file := files[i];
        assert files[..i + 1][..i] == files[..i];
        var existingFile := FindSame(selectedFiles, file);
        if existingFile.None? {
          selectedFiles := selectedFiles + [file];
        }
      }
      assert files[..|files|] == files;
      UpdateFileInput();
    }

    /** removeFile: every file with that name goes, whatever its size. */
    method RemoveFile(fileName: string)
      modifies this
      ensures selectedFiles == Filter(old(selectedFiles), NotNamed(fileName))
      ensures Shown() && (feedback.Some? <==> old(feedback).Some?)
    {
      selectedFiles := Filter(selectedFiles, NotNamed(fileName));
      UpdateFileInput();
    }

    /** clearSelectedFiles */
    method ClearSelectedFiles()
      modifies this
      ensures selectedFiles == []
      ensures Shown() && (feedback.Some? <==> old(feedback).Some?)
    {
      selectedFiles := [];
      UpdateFileInput();
    }
  }
}

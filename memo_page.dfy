// The memo page: six fixed notes shown as a grid of cards with a one-line
// preview each, a cyclic selection, and a detail view toggled by button A.
// Note texts are C strings of UTF-8 bytes; each `char` here holds one byte.

module MemoPage {
  import opened Clock
  import opened PageBase

  datatype Memo = Memo(title: string, content: string)

  const MemoCount: int := 6
  /** The preview buffer holds 30 bytes; at most 25 come from the note. */
  const PreviewBuffer: int := 30
  const PreviewCap: int := 25

  /** The UTF-8 encoding of the bullet U+2022. */
  const Bullet: string := "\U{e2}\U{80}\U{a2}"

  const Memos: seq<Memo> := [
    Memo("Today's Tasks",
      Bullet + " Finish UI design\n" + Bullet + " Test alarm system\n" + Bullet + " Update documentation"),
    Memo("Shopping List",
      Bullet + " Milk\n" + Bullet + " Bread\n" + Bullet + " Fruits\n" + Bullet + " Coffee beans"),
    Memo("Travel Plan",
      "July 10th - Yunnan\n" + Bullet + " Flight: 8:30 AM\n" + Bullet + " Hotel: Lijiang\n" + Bullet + " Activities: Old Town"),
    Memo("Meeting Notes",
      "Project Review\n" + Bullet + " Status: On track\n" + Bullet + " Next: Testing phase\n" + Bullet + " Due: End of month"),
    Memo("Ideas",
      Bullet + " Smart home automation\n" + Bullet + " Voice control\n" + Bullet + " Energy monitoring\n" + Bullet + " Mobile app"),
    Memo("Reminders",
      Bullet + " Call dentist\n" + Bullet + " Pay electricity bill\n" + Bullet + " Birthday gift for mom\n" + Bullet + " Car maintenance")
  ]

  /** A C string's contents hold no terminator. */
  predicate CString(s: string)
  {
    forall i :: 0 <= i < |s| ==> s[i] != '\0'
  }

  /** The text before the first line break: the longest prefix of `s`
    * without '\n'. */
  function FirstLine(s: string): (r: string)
    ensures |r| <= |s| && r == s[..|r|]
    ensures forall i :: 0 <= i < |r| ==> r[i] != '\n'
    ensures |r| < |s| ==> s[|r|] == '\n'
  {
    if s == [] || s[0] == '\n' then [] else [s[0]] + FirstLine(s[1..])
  }

  /** The card preview: the first line cut at 25 bytes, followed by "..."
    * whenever 25 bytes were taken. */
  function Preview(content: string): (r: string)
    ensures |r| <= PreviewCap + 3 < PreviewBuffer
    ensures |FirstLine(content)| < PreviewCap ==> r == FirstLine(content)
    ensures |FirstLine(content)| >= PreviewCap ==>
      |r| == PreviewCap + 3 && r[..PreviewCap] == content[..PreviewCap] && r[PreviewCap..] == "..."
  {
    var line := FirstLine(content);
    if |line| < PreviewCap then line else line[..PreviewCap] + "..."
  }

  /** A preview never runs past the first line, and a C string's preview is
    * again a C string. */
  lemma {:induction false} PreviewWithinFirstLine(content: string)
    requires CString(content)
    ensures CString(Preview(content))
    ensures |Preview(content)| <= PreviewCap ==> Preview(content) == content[..|Preview(content)|]
    ensures '\n' !in Preview(content)
  {
    var line := FirstLine(content);
    assert forall i :: 0 <= i < |line| ==> line[i] == content[i];
  }

  /** The preview loop of updateMemoDisplay: bytes of `content` are copied
    * into a 30-byte buffer until the terminator, a line break or the 25th
    * byte; "..." follows when 25 were copied, then the terminator. */
  method BuildPreview(content: string) returns (buf: array<char>, len: nat)
    requires CString(content)
    ensures fresh(buf) && buf.Length == PreviewBuffer
    ensures len < PreviewBuffer && buf[len] == '\0'
    ensures buf[..len] == Preview(content)
  {
    buf := new char[PreviewBuffer](_ => '\0');
    var j := 0;
    while j < |content| && content[j] != '\n' && j < PreviewCap
      invariant 0 <= j <= PreviewCap && j <= |content|
      invariant j <= |FirstLine(content)|
      invariant buf[..j] == content[..j]
    {
      buf[j] := content[j];
      j := j + 1;
    }
    ghost var line := FirstLine(content);
    assert j < PreviewCap ==> j == |line|;
    assert content[..j] == line[..j];
    if j == PreviewCap {
      buf[j] := '.';
      j := j + 1;
      buf[j] := '.';
      j := j + 1;
      buf[j] := '.';
      j := j + 1;
      assert buf[..j] == line[..PreviewCap] + "...";
    }
    buf[j] := '\0';
    len := j;
  }

  /** The grid half of updateMemoDisplay, run over the note table `memos`
    * (the constant Memos): one preview per note, in order. */
  method GridPreviews(memos: seq<Memo>) returns (previews: seq<string>)
    requires |memos| == MemoCount
    requires forall i :: 0 <= i < MemoCount ==> CString(memos[i].content)
    ensures |previews| == MemoCount
    ensures forall i :: 0 <= i < MemoCount ==> previews[i] == Preview(memos[i].content)
  {
    previews := [];
    for i := 0 to MemoCount
      invariant |previews| == i
      invariant forall k :: 0 <= k < i ==> previews[k] == Preview(memos[k].content)
    {
      var buf, len := BuildPreview(memos[i].content);
      previews := previews + [buf[..len]];
    }
  }

  class MemoBoard {
    var selectedMemo: int
    /** true: the detail view; false: the grid. */
    var viewMode: bool

    ghost predicate Valid()
      reads this
    {
      0 <= selectedMemo < MemoCount
    }

    constructor ()
      ensures Valid() && selectedMemo == 0 && !viewMode
    {
      selectedMemo := 0;
      viewMode := false;
    }

    /** onKey: ignored in the detail view; in the grid LEFT and TOP select
      * the previous note, RIGHT and BOTTOM the next, both cyclically. */
    method OnKey(dir: Dir)
      requires Valid()
      modifies this
      ensures Valid() && viewMode == old(viewMode)
      ensures old(viewMode) || dir == DirNone ==> selectedMemo == old(selectedMemo)
      ensures !old(viewMode) && (dir == Left || dir == Top) ==>
        selectedMemo == Pred(old(selectedMemo), MemoCount)
      ensures !old(viewMode) && (dir == Right || dir == Bottom) ==>
        selectedMemo == Succ(old(selectedMemo), MemoCount)
    {
      if viewMode {
        return;
      }
      match dir
      case Left =>
        selectedMemo := selectedMemo - 1;
        if selectedMemo < 0 {
          selectedMemo := MemoCount - 1;
        }
      case Right =>
        selectedMemo := selectedMemo + 1;
        if selectedMemo >= MemoCount {
          selectedMemo := 0;
        }
      case Top =>
        selectedMemo := selectedMemo - 1;
        if selectedMemo < 0 {
          selectedMemo := MemoCount - 1;
        }
      case Bottom =>
        selectedMemo := selectedMemo + 1;
        if selectedMemo >= MemoCount {
          selectedMemo := 0;
        }
      case DirNone =>
    }

    /** onButton: a press switches between grid and detail view and keeps
      * the selection. */
    method OnButton(pressed: bool)
      requires Valid()
      modifies this
      ensures Valid() && selectedMemo == old(selectedMemo)
      ensures viewMode == (old(viewMode) != pressed)
    {
      if !pressed {
        return;
      }
      if viewMode {
        viewMode := false;
      } else {
        viewMode := true;
      }
    }
  }
}

/** Tab and Shift+Tab in the source editor (`onTextareaKeyDown` in src/components/editor.tsx). */
module IndentBlock {
  import opened Prelude

  const INDENT := "  "

  /** The characters after which `^` matches in a multiline pattern. */
  predicate EndsLine(c: char) {
    c == '\n' || c == '\r' || c as int == 0x2028 || c as int == 0x2029
  }

  /** Indents every line but the first. */
  function IndentRest(s: string): (r: string)
    ensures |r| >= |s|
  {
    if s == "" then "" else [s[0]] + (if EndsLine(s[0]) then INDENT else "") + IndentRest(s[1..])
  }

  function Indent(s: string): string {
    INDENT + IndentRest(s)
  }

  /** Drops up to two spaces, or one tab, at the head of each line; `start` tells that a line starts here. */
  function Dedent(s: string, start: bool): (r: string)
    ensures |r| <= |s|
  {
    if s == "" then ""
    else if start && INDENT <= s then DedentRest(s[2..])
    else if start && s[0] in {' ', '\t'} then DedentRest(s[1..])
    else [s[0]] + Dedent(s[1..], EndsLine(s[0]))
  }

  /** After the head of a line. */
  function DedentRest(s: string): (r: string)
    ensures |r| <= |s|
  {
    if s == "" then "" else [s[0]] + Dedent(s[1..], EndsLine(s[0]))
  }

  lemma {:induction false} DedentRestIndentRest(s: string)
    ensures DedentRest(IndentRest(s)) == s
  {
    if s != "" {
      DedentRestIndentRest(s[1..]);
      var t, more := IndentRest(s), IndentRest(s[1..]);
      if EndsLine(s[0]) {
        assert t[1..] == INDENT + more;
        DedentIndented(more);
      } else {
        assert t[1..] == more;
        NotAtStart(more);
      }
      assert [s[0]] + s[1..] == s;
    }
  }

  /** At the start of a line, the indentation is dropped whole. */
  lemma DedentIndented(s: string)
    ensures Dedent(INDENT + s, true) == DedentRest(s)
  {
    assert (INDENT + s)[2..] == s;
  }

  lemma NotAtStart(s: string)
    ensures Dedent(s, false) == DedentRest(s)
  {
  }

  /** Dedenting an indented block gives the block back. */
  lemma DedentIndent(s: string)
    ensures Dedent(Indent(s), true) == s
  {
    assert Indent(s)[2..] == IndentRest(s);
    DedentRestIndentRest(s);
  }

  // ----- where the first line starts -----

  function Clamp(n: int, low: int, high: int): int {
    if n < low then low else if n > high then high else n
  }

  /** The last line feed at or before `at`, or -1. */
  function LastFeed(s: string, at: int): (i: int)
    requires at < |s|
    ensures -1 <= i && (i <= at || i == -1) && (i >= 0 ==> s[i] == '\n')
    ensures forall k :: i < k <= at && 0 <= k ==> s[k] != '\n'
    decreases at + 1
  {
    if at < 0 then -1 else if s[at] == '\n' then at else LastFeed(s, at - 1)
  }

  /** A position below 0 counts as 0, as lastIndexOf has it. */
  function LastIndexOfFeed(s: string, at: int): int {
    if s == "" then -1 else LastFeed(s, Clamp(at, 0, |s| - 1))
  }

  function LineStart(value: string, selectionStart: nat): (from: int)
    requires selectionStart <= |value|
    ensures 0 <= from <= |value|
  {
    LastIndexOfFeed(value, selectionStart - 1) + 1
  }

  /** The one case in which `from` lies after the selection's start: an empty first line, with the start in it. */
  predicate OnEmptyFirstLine(value: string, selectionStart: nat) {
    selectionStart == 0 && value != "" && value[0] == '\n'
  }

  lemma LineStartIsRight(value: string, selectionStart: nat)
    requires selectionStart <= |value|
    ensures
      var from := LineStart(value, selectionStart);
      if OnEmptyFirstLine(value, selectionStart) then from == 1
      else
        && from <= selectionStart && (forall k :: from <= k < selectionStart ==> value[k] != '\n')
        && (from == 0 || value[from - 1] == '\n')
  {
  }

  // ----- the edit -----

  datatype Edit = Edit(value: string, start: int, end: int)

  function Slice(s: string, from: int, end: int): string
    requires 0 <= from <= |s| && 0 <= end <= |s|
  {
    if from <= end then s[from..end] else ""
  }

  function Tab(value: string, start: nat, end: nat, shift: bool): Edit
    requires start <= end <= |value|
  {
    if shift || '\n' in value[start..end] then
      var from := LineStart(value, start);
      var block := Slice(value, from, end);
      var replaced := if shift then Dedent(block, true) else Indent(block);
      Edit(value[..from] + replaced + value[end..], Min(start, from + |INDENT|), end + |replaced| - |block|)
    else Edit(value[..start] + INDENT + value[end..], start + |INDENT|, start + |INDENT|)
  }

  /**
   The text before the first covered line and after the selection stays, and the new end is where the latter starts,
   except for Shift+Tab at offset 0 of a text that starts with a line feed.
   */
  lemma TailIsKeptUnlessAtEmptyFirstLine(value: string, start: nat, end: nat, shift: bool)
    requires start <= end <= |value|
    ensures
      var e := Tab(value, start, end, shift);
      (0 <= e.end <= |e.value| && e.value[e.end..] == value[end..])
      <==> !(shift && end == 0 && OnEmptyFirstLine(value, start))
    ensures
      var e, kept := Tab(value, start, end, shift), Min(LineStart(value, start), start);
      kept <= |e.value| && e.value[..kept] == value[..kept]
  {
    LineStartIsRight(value, start);
    var from, e := LineStart(value, start), Tab(value, start, end, shift);
    if shift || '\n' in value[start..end] {
      var block := Slice(value, from, end);
      var replaced := if shift then Dedent(block, true) else Indent(block);
      assert |value[..from] + replaced| == from + |replaced|;
      if from <= end {
        assert e.end == from + |replaced|;
        assert e.value[e.end..] == value[end..];
      } else {
        assert e.end == 0 && |e.value[0..]| == 1 + |value|;
      }
    } else {
      assert e.value[e.end..] == value[end..];
    }
  }

  /** In that case the line feed is doubled. */
  lemma EmptyFirstLineIsDoubled(value: string)
    requires OnEmptyFirstLine(value, 0)
    ensures Tab(value, 0, 0, true) == Edit("\n" + value, 0, 0)
  {
    assert value[..1] == "\n" && value[0..] == value;
  }

  /** After indenting, the line still starts where it did: `before` is the text up to it. */
  lemma LineStartAgain(before: string, rest: string, start: nat)
    requires before == "" || before[|before| - 1] == '\n'
    requires |before| <= start <= |before| + 2 || (start == 0 && before == "\n")
    ensures LineStart(before + INDENT + rest, start) == |before|
  {
    var t := before + INDENT + rest;
    LineStartIsRight(t, start);
    assert t[|before|] == ' ' && t[|before| + 1] == ' ';
    assert before != "" ==> t[|before| - 1] == '\n';
  }

  lemma Parts(s: string, i: nat, j: nat)
    requires i <= j <= |s|
    ensures s[..i] + s[i..j] + s[j..] == s
  {
  }

  lemma MiddleOf(a: string, b: string, c: string)
    ensures (a + b + c)[..|a|] == a && (a + b + c)[|a|..|a| + |b|] == b && (a + b + c)[|a| + |b|..] == c
  {
  }

  lemma TabIndents(value: string, start: nat, end: nat)
    requires start <= end <= |value| && '\n' in value[start..end]
    ensures
      var from := LineStart(value, start);
      && from <= end && (from <= start || (start == 0 && value[..from] == "\n"))
      && (from == 0 || value[from - 1] == '\n')
      && Tab(value, start, end, false)
         == Edit(value[..from] + Indent(value[from..end]) + value[end..], Min(start, from + 2),
                 from + |Indent(value[from..end])|)
  {
    LineStartIsRight(value, start);
  }

  /** Shift+Tab on a block that was indented, wherever in the indentation the selection starts. */
  lemma ShiftTabOnIndented(before: string, block: string, after: string, start: nat)
    requires before == "" || before[|before| - 1] == '\n'
    requires |before| <= start <= |before| + 2 || (start == 0 && before == "\n")
    ensures
      var text, end := before + Indent(block) + after, |before| + |Indent(block)|;
      && start <= end <= |text|
      && Tab(text, start, end, true).value == before + block + after
      && Tab(text, start, end, true).end == |before| + |block|
  {
    var text := before + Indent(block) + after;
    assert text == before + INDENT + (IndentRest(block) + after);
    LineStartAgain(before, IndentRest(block) + after, start);
    MiddleOf(before, Indent(block), after);
    DedentIndent(block);
  }

  lemma UndoneBy(before: string, block: string, after: string, e: Edit)
    requires before == "" || before[|before| - 1] == '\n'
    requires |before| <= e.start <= |before| + 2 || (e.start == 0 && before == "\n")
    requires e.value == before + Indent(block) + after && e.end == |before| + |Indent(block)|
    ensures 0 <= e.start <= e.end <= |e.value|
    ensures Tab(e.value, e.start, e.end, true).value == before + block + after
    ensures Tab(e.value, e.start, e.end, true).end == |before| + |block|
  {
    ShiftTabOnIndented(before, block, after, e.start);
  }

  /** Tab over several lines and then Shift+Tab on the selection it leaves restores the text and its end. */
  lemma ShiftTabUndoesTab(value: string, start: nat, end: nat)
    requires start <= end <= |value| && '\n' in value[start..end]
    ensures
      var e := Tab(value, start, end, false);
      && 0 <= e.start <= e.end <= |e.value|
      && Tab(e.value, e.start, e.end, true).value == value
      && Tab(e.value, e.start, e.end, true).end == end
  {
    var from, e := LineStart(value, start), Tab(value, start, end, false);
    TabIndents(value, start, end);
    var before, block, after := value[..from], value[from..end], value[end..];
    assert e == Edit(before + Indent(block) + after, Min(start, from + 2), |before| + |Indent(block)|);
    Parts(value, from, end);
    UndoneBy(before, block, after, e);
  }

  /** The part of the editor that the handler writes to: the drafts by file, and the selection to restore. */
  class Editor {
    var draft: map<string, string>
    var selected: string
    var pendingSel: (int, int)

    method OnTab(selectionStart: nat, selectionEnd: nat, shift: bool)
      requires selected in draft && selectionStart <= selectionEnd <= |draft[selected]|
      modifies this`draft, this`pendingSel
      ensures
        var e := Tab(old(draft[selected]), selectionStart, selectionEnd, shift);
        draft == old(draft)[selected := e.value] && pendingSel == (e.start, e.end)
    {
      var value := draft[selected];
      ghost var e := Tab(value, selectionStart, selectionEnd, shift);
      if shift || '\n' in value[selectionStart..selectionEnd] {
        var from := LineStart(value, selectionStart);
        var block := Slice(value, from, selectionEnd);
        var replaced := if shift then Dedent(block, true) else Indent(block);
        var next := value[..from] + replaced + value[selectionEnd..];
        assert e == Edit(next, Min(selectionStart, from + |INDENT|), selectionEnd + |replaced| - |block|);
        pendingSel := (Min(selectionStart, from + |INDENT|), selectionEnd + (|replaced| - |block|));
        draft := draft[selected := next];
      } else {
        var next := value[..selectionStart] + INDENT + value[selectionEnd..];
        var caret := selectionStart + |INDENT|;
        assert e == Edit(next, caret, caret);
        pendingSel := (caret, caret);
        draft := draft[selected := next];
      }
    }
  }
}

/** The plain-text segmenter of `internal/pdf/parser.go`: the `Section` and `Document`
    types shared by every other component, the two heading heuristics, the single-pass
    section builder, the even distribution of extracted images and the title rule. */
module Pdf {
  import opened GoStrings
  import opened Wrappers
  import GoPath

  /** One documentation section; `level` is the heading depth. */
  datatype Section = Section(id: string, level: int, heading: string, content: string, images: seq<string>)

  /** A title and the sections in reading order. */
  datatype Document = Document(title: string, sections: seq<Section>)

  /** `fmt.Sprintf("section-%d", n)`. */
  function SectionId(n: nat): string
  {
    "section-" + NatToDecimal(n)
  }

  lemma SectionIdInjective(a: nat, b: nat)
    requires SectionId(a) == SectionId(b)
    ensures a == b
  {
    assert NatToDecimal(a) == SectionId(a)[8..] && NatToDecimal(b) == SectionId(b)[8..];
    NatToDecimalInjective(a, b);
  }

  // ---------------------------------------------------------------------------
  // Line classification
  // ---------------------------------------------------------------------------

  predicate IsGroupChar(c: char) { IsDigit(c) || c == '.' }

  /** The end of the run of digits and dots that starts at `i`. */
  function GroupRunEnd(s: string, i: nat): (j: nat)
    requires i <= |s|
    ensures i <= j <= |s|
    ensures forall k :: i <= k < j ==> IsGroupChar(s[k])
    ensures j < |s| ==> !IsGroupChar(s[j])
    decreases |s| - i
  {
    if i < |s| && IsGroupChar(s[i]) then GroupRunEnd(s, i + 1) else i
  }

  /** The end of the run of RE2 `\s` characters that starts at `i`. */
  function SpaceRunEnd(s: string, i: nat): (j: nat)
    requires i <= |s|
    ensures i <= j <= |s|
    ensures forall k :: i <= k < j ==> IsRegexSpace(s[k])
    ensures j < |s| ==> !IsRegexSpace(s[j])
    decreases |s| - i
  {
    if i < |s| && IsRegexSpace(s[i]) then SpaceRunEnd(s, i + 1) else i
  }

  /** The character-level shape of `(\d+\.)+`: digits and dots, starting with a digit,
      ending with a dot, every other dot followed by a digit. */
  predicate WellFormedGroups(p: string)
  {
    && |p| > 0 && IsDigit(p[0]) && p[|p| - 1] == '.'
    && (forall k :: 0 <= k < |p| ==> IsGroupChar(p[k]))
    && (forall k :: 0 <= k < |p| - 1 && p[k] == '.' ==> IsDigit(p[k + 1]))
  }

  /** `^(\d+\.)+\s+[A-Z]` (parser.go:141) as a scan: the digit-and-dot run must have
      the group shape, be followed by at least one `\s`, and then by `A`-`Z`. */
  predicate IsNumberedHeading(line: string)
  {
    var g := GroupRunEnd(line, 0);
    var w := SpaceRunEnd(line, g);
    WellFormedGroups(line[..g]) && g < w < |line| && IsUpper(line[w])
  }

  // The regular expression itself, written as a grammar, for the equivalence lemma below.

  predicate AllDigits(s: string)
  {
    |s| > 0 && forall k :: 0 <= k < |s| ==> IsDigit(s[k])
  }

  predicate AllRegexSpace(s: string)
  {
    forall k :: 0 <= k < |s| ==> IsRegexSpace(s[k])
  }

  /** `p` is one or more `digits.` groups. */
  ghost predicate DigitGroups(p: string)
    decreases |p|
  {
    exists i :: 0 < i < |p| && AllDigits(p[..i]) && p[i] == '.' && (i + 1 == |p| || DigitGroups(p[i + 1..]))
  }

  /** Some prefix of `line` is `(\d+\.)+`, then `\s+`, then `[A-Z]`. */
  ghost predicate NumberedHeadingMatch(line: string)
  {
    exists g, w :: 0 < g < w < |line| && DigitGroups(line[..g]) && AllRegexSpace(line[g..w]) && IsUpper(line[w])
  }

  /** The index of the first `c` in `s`, or `|s|` when there is none. */
  function IndexOfChar(s: string, c: char): (i: nat)
    ensures i <= |s| && c !in s[..i]
    ensures i < |s| ==> s[i] == c
  {
    if s == [] then 0 else if s[0] == c then 0 else
      var j := IndexOfChar(s[1..], c);
      assert s[..j + 1] == [s[0]] + s[1..][..j];
      j + 1
  }

  lemma {:induction false} DigitGroupsAreWellFormed(p: string)
    requires DigitGroups(p)
    ensures WellFormedGroups(p)
    decreases |p|
  {
    var i :| 0 < i < |p| && AllDigits(p[..i]) && p[i] == '.' && (i + 1 == |p| || DigitGroups(p[i + 1..]));
    assert forall k :: 0 <= k < i ==> IsDigit(p[k]) by {
      forall k | 0 <= k < i ensures IsDigit(p[k]) {
        assert p[k] == p[..i][k];
      }
    }
    if i + 1 < |p| {
      var t := p[i + 1..];
      DigitGroupsAreWellFormed(t);
      assert forall k :: i < k < |p| ==> p[k] == t[k - i - 1];
      assert p[|p| - 1] == t[|t| - 1];
      assert IsDigit(p[i + 1]);
    }
  }

  lemma {:induction false} WellFormedAreDigitGroups(p: string)
    requires WellFormedGroups(p)
    ensures DigitGroups(p)
    decreases |p|
  {
    var i := IndexOfChar(p, '.');
    assert p[..|p|][|p| - 1] == '.';
    assert i < |p|;
    assert AllDigits(p[..i]) by {
      forall k | 0 <= k < i ensures IsDigit(p[..i][k]) {
        assert p[..i][k] in p[..i];
        assert p[..i][k] == p[k];
      }
    }
    if i + 1 < |p| {
      var t := p[i + 1..];
      assert forall k :: 0 <= k < |t| ==> t[k] == p[i + 1 + k];
      assert WellFormedGroups(t);
      WellFormedAreDigitGroups(t);
    }
  }

  lemma DigitGroupsShape(p: string)
    ensures DigitGroups(p) <==> WellFormedGroups(p)
  {
    if DigitGroups(p) { DigitGroupsAreWellFormed(p); }
    if WellFormedGroups(p) { WellFormedAreDigitGroups(p); }
  }

  /** The scan accepts exactly the lines the regular expression matches. */
  lemma NumberedHeadingIsRegex(line: string)
    ensures IsNumberedHeading(line) <==> NumberedHeadingMatch(line)
  {
    var g := GroupRunEnd(line, 0);
    var w := SpaceRunEnd(line, g);
    if IsNumberedHeading(line) {
      DigitGroupsShape(line[..g]);
      assert AllRegexSpace(line[g..w]) by {
        forall k | 0 <= k < w - g ensures IsRegexSpace(line[g..w][k]) {
          assert line[g..w][k] == line[g + k];
        }
      }
    }
    if NumberedHeadingMatch(line) {
      var g', w' :| 0 < g' < w' < |line| && DigitGroups(line[..g']) && AllRegexSpace(line[g'..w']) && IsUpper(line[w']);
      DigitGroupsShape(line[..g']);
      assert forall k :: 0 <= k < g' ==> IsGroupChar(line[k]) by {
        forall k | 0 <= k < g' ensures IsGroupChar(line[k]) { assert line[k] == line[..g'][k]; }
      }
      assert IsRegexSpace(line[g']) by { assert line[g'] == line[g'..w'][0]; }
      assert g == g';
      assert forall k :: g <= k < w' ==> IsRegexSpace(line[k]) by {
        forall k | g <= k < w' ensures IsRegexSpace(line[k]) { assert line[k] == line[g'..w'][k - g]; }
      }
      assert w == w';
    }
  }

  /** Level of a numbered heading: the dots in the first space-delimited token, plus one
      (parser.go:156). */
  function NumberedLevel(line: string): int
  {
    CountChar(Split(line, " ")[0], '.') + 1
  }

  /** `^[A-Z][A-Za-z\s]{3,}$` (parser.go:140). */
  predicate IsTitlePattern(line: string)
  {
    |line| >= 4 && IsUpper(line[0]) && forall k :: 1 <= k < |line| ==> IsLetter(line[k]) || IsRegexSpace(line[k])
  }

  /** What the loop body of parseTextIntoSections decides about one trimmed line. */
  datatype LineKind = Blank | Heading(level: int) | Text

  /** parser.go:144-161: empty lines are skipped, the numbered pattern is tried first,
      then the title pattern with the 100-byte bound; anything else is content. */
  function Classify(line: string): (kind: LineKind)
    ensures kind.Blank? <==> line == ""
    ensures kind.Heading? ==> kind.level >= 1
  {
    if line == "" then Blank
    else if IsNumberedHeading(line) then NumberedLevelFromGroups(line); Heading(NumberedLevel(line))
    else if IsTitlePattern(line) && |line| < 100 then Heading(1)
    else Text
  }

  lemma {:induction false} SplitHeadOnChar(s: string, c: char)
    ensures Split(s, [c])[0] == s[..IndexOfChar(s, c)]
    decreases |s|
  {
    if |s| >= 1 && s[..1] != [c] {
      SplitHeadOnChar(s[1..], c);
      assert s[0] != c;
      assert s[..IndexOfChar(s, c)] == [s[0]] + s[1..][..IndexOfChar(s[1..], c)];
    }
  }

  /** A numbered heading is at least level 2; when a plain space follows the groups, the
      level is the number of groups plus one; it is never capped. */
  lemma NumberedLevelFromGroups(line: string)
    requires IsNumberedHeading(line)
    ensures NumberedLevel(line) >= 2
    ensures var g := GroupRunEnd(line, 0);
      line[g] == ' ' ==> NumberedLevel(line) == CountChar(line[..g], '.') + 1
  {
    var g := GroupRunEnd(line, 0);
    var k := IndexOfChar(line, ' ');
    SplitHeadOnChar(line, ' ');
    assert line[..k] == line[..g] + line[g..k];
    CountCharAppend(line[..g], line[g..k], '.');
    assert line[..g][g - 1] == '.';
    assert line[g] == ' ' ==> k == g;
  }

  // Classification of typical lines: an all-capitals word, a dotted number without its own
  // dot, a numbered heading, a sentence.

  lemma ClassifyAllCapsWord()
    ensures Classify("INTRODUCTION") == Heading(1)
  {
    assert GroupRunEnd("INTRODUCTION", 0) == 0;
  }

  /** "1.1 Overview" is no heading at all: each digit group needs its own dot. */
  lemma ClassifyDottedNumber()
    ensures Classify("1.1 Overview") == Text
  {
    var b := "1.1 Overview";
    assert GroupRunEnd(b, 3) == 3;
    assert GroupRunEnd(b, 0) == 3;
    assert !WellFormedGroups(b[..3]);
  }

  lemma ClassifyNumbered()
    ensures Classify("1. Introduction") == Heading(2)
  {
    var c := "1. Introduction";
    assert GroupRunEnd(c, 2) == 2;
    assert GroupRunEnd(c, 0) == 2;
    assert SpaceRunEnd(c, 3) == 3;
    assert SpaceRunEnd(c, 2) == 3;
    assert c[..2] == "1.";
    assert IsNumberedHeading(c);
    NumberedLevelFromGroups(c);
    assert CountChar("1.", '.') == 1;
  }

  lemma ClassifySentence()
    ensures Classify("Some content here.") == Text
  {
    var d := "Some content here.";
    assert GroupRunEnd(d, 0) == 0;
    assert !IsLetter(d[17]) && !IsRegexSpace(d[17]);
  }

  // ---------------------------------------------------------------------------
  // The section builder, as a function over the lines
  // ---------------------------------------------------------------------------

  /** The variables of parseTextIntoSections' loop: the open section, the local id
      counter and the sections already flushed. */
  datatype PdfState = PdfState(current: Option<Section>, sectionId: nat, sections: seq<Section>)

  const PdfInit := PdfState(None, 0, [])

  /** Content grows by the new line, separated by one space unless it was empty. */
  function AppendLine(content: string, line: string): string
  {
    if content == "" then line else content + " " + line
  }

  /** The sections flushed so far plus the open one, in order. */
  function Flush(st: PdfState): seq<Section>
  {
    st.sections + (if st.current.Some? then [st.current.value] else [])
  }

  /** One iteration of the loop at parser.go:143-195. */
  function PdfStep(st: PdfState, raw: string): PdfState
  {
    var line := TrimSpace(raw);
    StepWith(st, line, Classify(line))
  }

  /** The loop body once the trimmed line has been classified. */
  function StepWith(st: PdfState, line: string, kind: LineKind): PdfState
  {
    match kind
    case Blank => st
    case Heading(level) =>
      PdfState(Some(Section(SectionId(st.sectionId + 1), level, line, "", [])), st.sectionId + 1, Flush(st))
    case Text =>
      if st.current.Some? then
        st.(current := Some(st.current.value.(content := AppendLine(st.current.value.content, line))))
      else
        PdfState(Some(Section(SectionId(st.sectionId + 1), 1, "Introduction", line, [])), st.sectionId + 1, st.sections)
  }

  function PdfRun(st: PdfState, lines: seq<string>): PdfState
    decreases |lines|
  {
    if lines == [] then st else PdfRun(PdfStep(st, lines[0]), lines[1..])
  }

  /** The sections the loop produces, the last open one included (parser.go:198-200). */
  function SegmentLines(lines: seq<string>): seq<Section>
  {
    Flush(PdfRun(PdfInit, lines))
  }

  lemma {:induction false} PdfRunAppend(st: PdfState, a: seq<string>, b: seq<string>)
    ensures PdfRun(st, a + b) == PdfRun(PdfRun(st, a), b)
    decreases |a|
  {
    if a == [] {
      assert a + b == b;
    } else {
      assert (a + b)[1..] == a[1..] + b;
      PdfRunAppend(PdfStep(st, a[0]), a[1..], b);
    }
  }

  lemma PdfRunUnfold(st: PdfState, lines: seq<string>, i: nat)
    requires i < |lines|
    ensures PdfRun(st, lines[i..]) == PdfRun(PdfStep(st, lines[i]), lines[i + 1..])
  {
    assert lines[i..][1..] == lines[i + 1..];
  }

  predicate IsBlank(raw: string) { TrimSpace(raw) == "" }

  function NonBlank(lines: seq<string>): (r: seq<string>)
    ensures |r| <= |lines|
    ensures forall k :: 0 <= k < |r| ==> !IsBlank(r[k])
  {
    if lines == [] then [] else (if IsBlank(lines[0]) then [] else [lines[0]]) + NonBlank(lines[1..])
  }

  /** Lines that are empty after trimming never change the result: the segmentation of
      the input equals that of its non-blank lines. */
  lemma {:induction false} BlankLinesIgnored(st: PdfState, lines: seq<string>)
    ensures PdfRun(st, lines) == PdfRun(st, NonBlank(lines))
    decreases |lines|
  {
    if lines != [] {
      if IsBlank(lines[0]) {
        assert PdfStep(st, lines[0]) == st;
        assert NonBlank(lines) == NonBlank(lines[1..]);
        BlankLinesIgnored(st, lines[1..]);
      } else {
        BlankLinesIgnored(PdfStep(st, lines[0]), lines[1..]);
        var r := NonBlank(lines);
        assert r == [lines[0]] + NonBlank(lines[1..]);
        assert r[0] == lines[0] && r[1..] == NonBlank(lines[1..]);
      }
    }
  }

  lemma SegmentIgnoresBlankLines(lines: seq<string>)
    ensures SegmentLines(lines) == SegmentLines(NonBlank(lines))
  {
    BlankLinesIgnored(PdfInit, lines);
  }

  predicate IsHeadingLine(raw: string) { Classify(TrimSpace(raw)).Heading? }

  predicate IsTextLine(raw: string) { Classify(TrimSpace(raw)).Text? }

  /** The number of heading lines. */
  function HeadingCount(lines: seq<string>): nat
  {
    if lines == [] then 0 else (if IsHeadingLine(lines[0]) then 1 else 0) + HeadingCount(lines[1..])
  }

  /** The first non-blank line is content. */
  predicate LeadsWithText(lines: seq<string>)
    decreases |lines|
  {
    lines != [] && (if IsBlank(lines[0]) then LeadsWithText(lines[1..]) else IsTextLine(lines[0]))
  }

  /** What every state of the loop satisfies: flushed and open sections are numbered
      `section-1`, `section-2`, ... in order by the counter, and all levels are positive. */
  ghost predicate Numbered(st: PdfState)
  {
    var all := Flush(st);
    && |all| == st.sectionId
    && (forall i :: 0 <= i < |all| ==> all[i].id == SectionId(i + 1) && all[i].level >= 1)
  }

  lemma StepWithCounts(st: PdfState, line: string, kind: LineKind)
    requires Numbered(st) && (kind.Heading? ==> kind.level >= 1)
    ensures Numbered(StepWith(st, line, kind))
    ensures StepWith(st, line, kind).sectionId
      == st.sectionId + (if kind.Heading? || (st.current.None? && kind.Text?) then 1 else 0)
    ensures StepWith(st, line, kind).current.Some? <==> st.current.Some? || !kind.Blank?
  {
    var next := StepWith(st, line, kind);
    match kind
    case Blank =>
    case Heading(level) =>
      assert Flush(next) == Flush(st) + [next.current.value];
    case Text =>
      if st.current.Some? {
        assert Flush(st) == st.sections + [st.current.value];
        assert Flush(next) == st.sections + [next.current.value];
        assert forall i :: 0 <= i < |Flush(next)| ==>
          Flush(next)[i].id == Flush(st)[i].id && Flush(next)[i].level == Flush(st)[i].level;
      } else {
        assert Flush(next) == Flush(st) + [next.current.value];
      }
  }

  /** One step keeps the numbering, counts a heading or a leading content line, and never
      closes the open section without opening another. */
  lemma StepCounts(st: PdfState, raw: string)
    requires Numbered(st)
    ensures Numbered(PdfStep(st, raw))
    ensures PdfStep(st, raw).sectionId
      == st.sectionId + (if IsHeadingLine(raw) || (st.current.None? && IsTextLine(raw)) then 1 else 0)
    ensures PdfStep(st, raw).current.Some? <==> st.current.Some? || !IsBlank(raw)
  {
    var line := TrimSpace(raw);
    StepWithCounts(st, line, Classify(line));
  }

  /** The counter after the loop: one per heading, plus one for a leading "Introduction". */
  lemma {:induction false} RunCounts(st: PdfState, lines: seq<string>)
    requires Numbered(st)
    ensures Numbered(PdfRun(st, lines))
    ensures PdfRun(st, lines).sectionId
      == st.sectionId + HeadingCount(lines) + (if st.current.None? && LeadsWithText(lines) then 1 else 0)
    ensures PdfRun(st, lines).current.Some? <==> st.current.Some? || HeadingCount(lines) > 0 || LeadsWithText(lines)
    decreases |lines|
  {
    if lines != [] {
      StepCounts(st, lines[0]);
      RunCounts(PdfStep(st, lines[0]), lines[1..]);
    }
  }

  /** The segmenter's output for any input: as many sections as heading lines, plus one
      when content comes before the first heading, with ids `section-1..section-k`. */
  lemma SegmentCount(lines: seq<string>)
    ensures |SegmentLines(lines)| == HeadingCount(lines) + (if LeadsWithText(lines) then 1 else 0)
    ensures forall i :: 0 <= i < |SegmentLines(lines)| ==>
      SegmentLines(lines)[i].id == SectionId(i + 1) && SegmentLines(lines)[i].level >= 1
  {
    RunCounts(PdfInit, lines);
  }

  /** The ids of one segmentation are pairwise distinct. */
  lemma SegmentIdsUnique(lines: seq<string>)
    ensures forall i, j :: 0 <= i < j < |SegmentLines(lines)| ==> SegmentLines(lines)[i].id != SegmentLines(lines)[j].id
  {
    SegmentCount(lines);
    forall i, j | 0 <= i < j < |SegmentLines(lines)|
      ensures SegmentLines(lines)[i].id != SegmentLines(lines)[j].id
    {
      if SegmentLines(lines)[i].id == SegmentLines(lines)[j].id {
        SectionIdInjective(i + 1, j + 1);
      }
    }
  }

  /** The trimmed content lines, in order. */
  function TextLines(lines: seq<string>): (r: seq<string>)
    ensures forall k :: 0 <= k < |r| ==> r[k] != ""
  {
    if lines == [] then []
    else (if IsTextLine(lines[0]) then [TrimSpace(lines[0])] else []) + TextLines(lines[1..])
  }

  predicate NoHeadings(lines: seq<string>)
  {
    forall k :: 0 <= k < |lines| ==> !IsHeadingLine(lines[k])
  }

  /** `content` extended by `texts`, one space between consecutive pieces. */
  function Joined(content: string, texts: seq<string>): string
  {
    if texts == [] then content
    else if content == "" then Join(texts, " ")
    else content + " " + Join(texts, " ")
  }

  lemma JoinedAppend(content: string, t: string, rest: seq<string>)
    requires t != ""
    ensures Joined(AppendLine(content, t), rest) == Joined(content, [t] + rest)
  {
    if rest != [] {
      assert ([t] + rest)[1..] == rest;
    }
  }

  /** A line that is no heading, seen with a section open, only extends its content. */
  lemma TextStep(st: PdfState, raw: string)
    requires st.current.Some? && !IsHeadingLine(raw)
    ensures PdfStep(st, raw) == st.(current := Some(st.current.value.(content :=
      if IsTextLine(raw) then AppendLine(st.current.value.content, TrimSpace(raw)) else st.current.value.content)))
  {
  }

  /** Over heading-free lines an open section only collects the content lines, joined by
      single spaces; nothing else changes. */
  lemma {:induction false} TextRun(st: PdfState, lines: seq<string>)
    requires st.current.Some? && NoHeadings(lines)
    ensures PdfRun(st, lines)
      == st.(current := Some(st.current.value.(content := Joined(st.current.value.content, TextLines(lines)))))
    decreases |lines|
  {
    if lines != [] {
      var c := st.current.value.content;
      TextStep(st, lines[0]);
      var next := PdfStep(st, lines[0]);
      assert NoHeadings(lines[1..]) by {
        assert forall k :: 0 <= k < |lines[1..]| ==> lines[1..][k] == lines[k + 1];
      }
      TextRun(next, lines[1..]);
      var rest := TextLines(lines[1..]);
      if IsTextLine(lines[0]) {
        assert TextLines(lines) == [TrimSpace(lines[0])] + rest;
        JoinedAppend(c, TrimSpace(lines[0]), rest);
      } else {
        assert TextLines(lines) == rest;
      }
    }
  }

  /** Input without any heading: one "Introduction" section holding all the content
      lines joined by single spaces, or nothing at all when every line is blank. */
  lemma NoHeadingInput(lines: seq<string>)
    requires NoHeadings(lines)
    ensures TextLines(lines) == [] ==> SegmentLines(lines) == []
    ensures TextLines(lines) != [] ==>
      SegmentLines(lines) == [Section("section-1", 1, "Introduction", Join(TextLines(lines), " "), [])]
  {
    NoHeadingRun(lines);
    assert SectionId(1) == "section-1";
  }

  lemma {:induction false} NoHeadingRun(lines: seq<string>)
    requires NoHeadings(lines)
    ensures TextLines(lines) == [] ==> PdfRun(PdfInit, lines) == PdfInit
    ensures TextLines(lines) != [] ==>
      PdfRun(PdfInit, lines) == PdfState(Some(Section(SectionId(1), 1, "Introduction", Join(TextLines(lines), " "), [])), 1, [])
    decreases |lines|
  {
    if lines != [] {
      assert NoHeadings(lines[1..]) by {
        assert forall k :: 0 <= k < |lines[1..]| ==> lines[1..][k] == lines[k + 1];
      }
      var rest := TextLines(lines[1..]);
      if IsTextLine(lines[0]) {
        var t := TrimSpace(lines[0]);
        var next := PdfStep(PdfInit, lines[0]);
        assert next == PdfState(Some(Section(SectionId(1), 1, "Introduction", t, [])), 1, []);
        TextRun(next, lines[1..]);
        assert TextLines(lines) == [t] + rest;
        JoinedAppend("", t, rest);
      } else {
        assert !IsHeadingLine(lines[0]);
        assert PdfStep(PdfInit, lines[0]) == PdfInit;
        assert TextLines(lines) == rest;
        NoHeadingRun(lines[1..]);
      }
    }
  }

  /** A heading line followed by heading-free lines: the open section is flushed and a new
      one opens with the next id, the trimmed line as heading and the content lines after
      it joined by single spaces. */
  lemma HeadingThenText(st: PdfState, heading: string, body: seq<string>)
    requires IsHeadingLine(heading) && NoHeadings(body)
    ensures PdfRun(st, [heading] + body)
      == PdfState(Some(Section(SectionId(st.sectionId + 1), Classify(TrimSpace(heading)).level,
                               TrimSpace(heading), Join(TextLines(body), " "), [])),
                  st.sectionId + 1, Flush(st))
  {
    var next := PdfStep(st, heading);
    assert next == PdfState(Some(Section(SectionId(st.sectionId + 1), Classify(TrimSpace(heading)).level,
                               TrimSpace(heading), "", [])), st.sectionId + 1, Flush(st));
    assert ([heading] + body)[1..] == body;
    assert PdfRun(st, [heading] + body) == PdfRun(next, body);
    TextRun(next, body);
  }

  // ---------------------------------------------------------------------------
  // Image distribution (parser.go:202-221)
  // ---------------------------------------------------------------------------

  function Min(a: int, b: int): int { if a <= b then a else b }

  /** `len(allImages) / len(sections)`, raised to 1 when it is 0. */
  function PerSection(total: nat, count: nat): (per: nat)
    requires count > 0
    ensures per >= 1
    ensures total < count ==> per == 1
    ensures total >= count ==> per * count <= total < (per + 1) * count
  {
    var q := total / count;
    assert total == q * count + total % count;
    assert (q + 1) * count == q * count + count;
    if q == 0 then 1 else q
  }

  /** The base names of `paths`, in order. */
  function Bases(paths: seq<string>): (r: seq<string>)
    ensures |r| == |paths|
  {
    if paths == [] then [] else Bases(paths[..|paths| - 1]) + [GoPath.Base(paths[|paths| - 1])]
  }

  lemma {:induction false} BasesAppend(a: seq<string>, b: seq<string>)
    ensures Bases(a + b) == Bases(a) + Bases(b)
    decreases |b|
  {
    if b != [] {
      var b' := b[..|b| - 1];
      assert (a + b)[..|a + b| - 1] == a + b';
      BasesAppend(a, b');
    } else {
      assert a + b == a;
    }
  }

  /** Each image is recorded by its base name, in the order of the paths. */
  lemma {:induction false} BasesPointwise(paths: seq<string>)
    ensures forall k :: 0 <= k < |paths| ==> Bases(paths)[k] == GoPath.Base(paths[k])
  {
    if paths != [] {
      BasesPointwise(paths[..|paths| - 1]);
    }
  }

  lemma BasesSnoc(images: seq<string>, lo: nat, hi: nat)
    requires lo <= hi < |images|
    ensures Bases(images[lo..hi + 1]) == Bases(images[lo..hi]) + [GoPath.Base(images[hi])]
  {
    assert images[lo..hi + 1][..hi - lo] == images[lo..hi];
  }

  /** The images section `i` receives: `allImages[i*per .. min((i+1)*per, total))`. */
  function Slot(images: seq<string>, per: nat, i: nat): seq<string>
  {
    images[Min(i * per, |images|)..Min((i + 1) * per, |images|)]
  }

  /** Slot `i` starts where slot `i - 1` ended and holds up to `per` images. */
  lemma SlotStep(images: seq<string>, per: nat, i: nat, lo: nat)
    requires lo == Min(i * per, |images|)
    ensures Min(lo + per, |images|) == Min((i + 1) * per, |images|)
    ensures Slot(images, per, i) == images[lo..Min(lo + per, |images|)]
  {
    assert (i + 1) * per == i * per + per;
  }

  /** Every section `i` gets the base names of its slot appended. */
  function DistributeWith(sections: seq<Section>, images: seq<string>, per: nat): (r: seq<Section>)
    ensures |r| == |sections|
    ensures forall i :: 0 <= i < |r| ==> r[i] == sections[i].(images := sections[i].images + Bases(Slot(images, per, i)))
  {
    seq(|sections|, i requires 0 <= i < |sections| =>
      sections[i].(images := sections[i].images + Bases(Slot(images, per, i))))
  }

  /** The distribution the nested loop performs, stated section by section. */
  function Distribute(sections: seq<Section>, images: seq<string>): (r: seq<Section>)
    ensures |r| == |sections|
  {
    if |sections| == 0 || |images| == 0 then sections
    else DistributeWith(sections, images, PerSection(|images|, |sections|))
  }

  /** With no images, or no sections, nothing is assigned. */
  lemma DistributeNothing(sections: seq<Section>, images: seq<string>)
    requires |sections| == 0 || |images| == 0
    ensures Distribute(sections, images) == sections
  {
  }

  /** Distribution only touches image lists, and each section gets at most `per` images. */
  lemma DistributeKeepsSections(sections: seq<Section>, images: seq<string>)
    requires |sections| > 0 && |images| > 0
    ensures var r := Distribute(sections, images);
      forall i :: 0 <= i < |sections| ==>
        && r[i].(images := sections[i].images) == sections[i]
        && |r[i].images| - |sections[i].images| <= PerSection(|images|, |sections|)
  {
    var per := PerSection(|images|, |sections|);
    forall i | 0 <= i < |sections| ensures |Slot(images, per, i)| <= per {
      assert (i + 1) * per == i * per + per;
    }
  }

  /** The slots of the first `k` sections, concatenated. */
  function Slots(images: seq<string>, per: nat, k: nat): seq<string>
  {
    if k == 0 then [] else Slots(images, per, k - 1) + Slot(images, per, k - 1)
  }

  lemma {:induction false} SlotsArePrefix(images: seq<string>, per: nat, k: nat)
    ensures Slots(images, per, k) == images[..Min(k * per, |images|)]
  {
    if k > 0 {
      SlotsArePrefix(images, per, k - 1);
      assert k * per == (k - 1) * per + per;
      var a, b := Min((k - 1) * per, |images|), Min(k * per, |images|);
      assert images[..a] + images[a..b] == images[..b];
    }
  }

  /** The images added to the sections, read in section order, are exactly the first
      `min(total, per * sections)` images, each once and in their original order; the
      rest are never assigned. */
  lemma DistributeOrder(sections: seq<Section>, images: seq<string>)
    requires |sections| > 0 && |images| > 0
    ensures var per := PerSection(|images|, |sections|);
      var r := Distribute(sections, images);
      && (forall i :: 0 <= i < |sections| ==> r[i].images == sections[i].images + Bases(Slot(images, per, i)))
      && Slots(images, per, |sections|) == images[..Min(per * |sections|, |images|)]
  {
    var per := PerSection(|images|, |sections|);
    SlotsArePrefix(images, per, |sections|);
  }

  /** The number of images over all sections. */
  function TotalImages(sections: seq<Section>): nat
  {
    if sections == [] then 0 else TotalImages(sections[..|sections| - 1]) + |sections[|sections| - 1].images|
  }

  lemma SlotLength(images: seq<string>, per: nat, k: nat)
    requires k > 0
    ensures |Slot(images, per, k - 1)| == Min(k * per, |images|) - Min((k - 1) * per, |images|)
  {
    assert k * per == (k - 1) * per + per;
  }

  lemma {:induction false} TotalOfDistribution(sections: seq<Section>, images: seq<string>, per: nat, k: nat)
    requires k <= |sections|
    ensures TotalImages(DistributeWith(sections, images, per)[..k]) == TotalImages(sections[..k]) + Min(k * per, |images|)
  {
    var r := DistributeWith(sections, images, per);
    if k > 0 {
      TotalOfDistribution(sections, images, per, k - 1);
      SlotLength(images, per, k);
      assert r[..k][..k - 1] == r[..k - 1];
      assert sections[..k][..k - 1] == sections[..k - 1];
    }
  }

  /** Total assigned = min(total, per * sections). */
  lemma DistributedTotal(sections: seq<Section>, images: seq<string>)
    requires |sections| > 0 && |images| > 0
    ensures TotalImages(Distribute(sections, images))
      == TotalImages(sections) + Min(PerSection(|images|, |sections|) * |sections|, |images|)
  {
    var per := PerSection(|images|, |sections|);
    TotalOfDistribution(sections, images, per, |sections|);
    assert Distribute(sections, images)[..|sections|] == Distribute(sections, images);
    assert sections[..|sections|] == sections;
    assert |sections| * per == per * |sections|;
  }

  // ---------------------------------------------------------------------------
  // The title rule (parser.go:227-233)
  // ---------------------------------------------------------------------------

  /** `strings.TrimSuffix(base, filepath.Ext(base))`. */
  function Stem(base: string): (r: string)
    ensures r + GoPath.Ext(base) == base
  {
    base[..|base| - |GoPath.Ext(base)|]
  }

  /** `_` and `-` turned into spaces, everything else kept (the two `strings.ReplaceAll`
      calls of extractTitle). */
  function Spaced(stem: string): (title: string)
    ensures |title| == |stem|
    ensures forall k :: 0 <= k < |title| ==> title[k] == if stem[k] == '_' || stem[k] == '-' then ' ' else stem[k]
    ensures '_' !in title && '-' !in title
  {
    var underscores := ReplaceChar(stem, '_', ' ');
    var title := ReplaceChar(underscores, '-', ' ');
    assert forall k :: 0 <= k < |title| ==> title[k] == if stem[k] == '_' || stem[k] == '-' then ' ' else stem[k] by {
      forall k | 0 <= k < |title| ensures title[k] == if stem[k] == '_' || stem[k] == '-' then ' ' else stem[k] {
        assert underscores[k] == if stem[k] == '_' then ' ' else stem[k];
      }
    }
    title
  }

  /** extractTitle: the base name without its extension, `_` and `-` turned into spaces. */
  function ExtractTitle(path: string): (title: string)
    ensures var stem := Stem(GoPath.Base(path));
      && |title| == |stem|
      && (forall k :: 0 <= k < |title| ==> title[k] == if stem[k] == '_' || stem[k] == '-' then ' ' else stem[k])
    ensures '_' !in title && '-' !in title
  {
    Spaced(Stem(GoPath.Base(path)))
  }

  // ---------------------------------------------------------------------------
  // The imperative code
  // ---------------------------------------------------------------------------

  /** The whole of parseTextIntoSections on a sequence of image paths (the `*.png`
      matches followed by the `*.jpg` matches of the image directory). */
  function ParseTextSpec(text: string, allImages: seq<string>): seq<Section>
  {
    Distribute(SegmentLines(Split(text, "\n")), allImages)
  }

  /** The heading test of parseTextIntoSections (parser.go:150-161) for a non-blank line. */
  method HeadingLevel(line: string) returns (isHeading: bool, level: int)
    requires line != ""
    ensures Classify(line) == if isHeading then Heading(level) else Text
  {
    isHeading := false;
    level := 1;
    if IsNumberedHeading(line) {
      isHeading := true;
      level := CountChar(Split(line, " ")[0], '.') + 1;
    } else if IsTitlePattern(line) && |line| < 100 {
      isHeading := true;
      level := 1;
    }
  }

  /** One pass of the line loop of parseTextIntoSections (parser.go:143-195):
      trims the line, then opens a section, extends the open one or skips the line. */
  method SegmentLine(currentSection0: Option<Section>, sectionId0: nat, sections0: seq<Section>, raw: string)
    returns (currentSection: Option<Section>, sectionId: nat, sections: seq<Section>)
    ensures PdfState(currentSection, sectionId, sections) == PdfStep(PdfState(currentSection0, sectionId0, sections0), raw)
  {
    ghost var before := PdfState(currentSection0, sectionId0, sections0);
    currentSection, sectionId, sections := currentSection0, sectionId0, sections0;
    var line := TrimSpace(raw);
    if line == "" {
      return;
    }
    var isHeading, level := HeadingLevel(line);
    ghost var kind := if isHeading then Heading(level) else Text;
    assert PdfStep(before, raw) == StepWith(before, line, kind);
    if isHeading {
      if currentSection.Some? {
        sections := sections + [currentSection.value];
      }
      assert sections == Flush(before);
      sectionId := sectionId + 1;
      currentSection := Some(Section(SectionId(sectionId), level, line, "", []));
    } else if currentSection.Some? {
      var cur := currentSection.value;
      if cur.content != "" {
        cur := cur.(content := cur.content + " ");
      }
      cur := cur.(content := cur.content + line);
      assert cur.content == AppendLine(currentSection0.value.content, line);
      currentSection := Some(cur);
    } else {
      sectionId := sectionId + 1;
      currentSection := Some(Section(SectionId(sectionId), 1, "Introduction", line, []));
    }
    assert PdfState(currentSection, sectionId, sections) == StepWith(before, line, kind);
  }

  /** parseTextIntoSections (parser.go:132-224). */
  method ParseTextIntoSections(text: string, pngFiles: seq<string>, jpgFiles: seq<string>)
    returns (sections: seq<Section>)
    ensures sections == ParseTextSpec(text, pngFiles + jpgFiles)
  {
    sections := [];
    var lines := Split(text, "\n");
    var currentSection: Option<Section> := None;
    var sectionId: nat := 0;
    var i := 0;
    while i < |lines|
      invariant 0 <= i <= |lines|
      invariant PdfRun(PdfState(currentSection, sectionId, sections), lines[i..]) == PdfRun(PdfInit, lines)
    {
      ghost var before := PdfState(currentSection, sectionId, sections);
      currentSection, sectionId, sections := SegmentLine(currentSection, sectionId, sections, lines[i]);
      PdfRunUnfold(before, lines, i);
      i := i + 1;
    }
    if currentSection.Some? {
      sections := sections + [currentSection.value];
    }
    sections := AssociateImages(sections, pngFiles + jpgFiles);
  }

  /** The inner loop of the image distribution (parser.go:213-219): appends to a
      section's image list the base names of up to `per` images starting at `start`. */
  method FillSection(images0: seq<string>, allImages: seq<string>, start: nat, per: nat)
    returns (images: seq<string>, next: nat)
    requires start <= |allImages|
    ensures next == Min(start + per, |allImages|)
    ensures images == images0 + Bases(allImages[start..next])
  {
    images := images0;
    next := start;
    var j := 0;
    while j < per && next < |allImages|
      invariant 0 <= j <= per && next == start + j <= |allImages|
      invariant images == images0 + Bases(allImages[start..next])
    {
      BasesSnoc(allImages, start, next);
      images := images + [GoPath.Base(allImages[next])];
      next := next + 1;
      j := j + 1;
    }
  }

  /** The image loop of parseTextIntoSections (parser.go:202-221), on the section list. */
  method AssociateImages(sections0: seq<Section>, allImages: seq<string>) returns (sections: seq<Section>)
    ensures sections == Distribute(sections0, allImages)
  {
    sections := sections0;
    if |sections| > 0 && |allImages| > 0 {
      var imagesPerSection := |allImages| / |sections|;
      if imagesPerSection == 0 {
        imagesPerSection := 1;
      }
      ghost var per := PerSection(|allImages|, |sections|);
      assert imagesPerSection == per;
      var imgIdx := 0;
      var i := 0;
      while i < |sections|
        invariant 0 <= i <= |sections| == |sections0|
        invariant imgIdx == Min(i * per, |allImages|)
        invariant forall k :: 0 <= k < i ==> sections[k] == sections0[k].(images := sections0[k].images + Bases(Slot(allImages, per, k)))
        invariant forall k :: i <= k < |sections| ==> sections[k] == sections0[k]
      {
        SlotStep(allImages, per, i, imgIdx);
        var filled;
        filled, imgIdx := FillSection(sections[i].images, allImages, imgIdx, imagesPerSection);
        sections := sections[i := sections[i].(images := filled)];
        i := i + 1;
      }
    }
  }

  /** The text Parse hands to the segmenter: each page's text followed by a blank line;
      pages that are null or whose text cannot be read (None) are skipped. */
  function JoinPages(pages: seq<Option<string>>): string
  {
    if pages == [] then ""
    else JoinPages(pages[..|pages| - 1]) + (match pages[|pages| - 1] case Some(t) => t + "\n\n" case None => "")
  }

  /** Parser.Parse (parser.go:49-96) with the PDF library and the file system as inputs:
      the error `os.MkdirAll` and `pdf.Open` report, if any, and the text of each page
      (None for a null page or one whose text cannot be extracted). */
  method Parse(pdfPath: string, mkdirErr: Option<string>, openErr: Option<string>, pages: seq<Option<string>>,
               pngFiles: seq<string>, jpgFiles: seq<string>) returns (res: Result<Document>)
    ensures mkdirErr.Some? ==> res == Err("failed to create image directory: " + mkdirErr.value)
    ensures mkdirErr.None? && openErr.Some? ==> res == Err("failed to open PDF: " + openErr.value)
    ensures mkdirErr.None? && openErr.None? ==>
      res == Ok(Document(ExtractTitle(pdfPath), ParseTextSpec(JoinPages(pages), pngFiles + jpgFiles)))
  {
    if mkdirErr.Some? {
      return Err("failed to create image directory: " + mkdirErr.value);
    }
    if openErr.Some? {
      return Err("failed to open PDF: " + openErr.value);
    }
    var title := ExtractTitle(pdfPath);
    var allText := ExtractText(pages);
    var sections := ParseTextIntoSections(allText, pngFiles, jpgFiles);
    return Ok(Document(title, sections));
  }

  /** The page loop of Parser.Parse (parser.go:72-88). */
  method ExtractText(pages: seq<Option<string>>) returns (allText: string)
    ensures allText == JoinPages(pages)
  {
    allText := "";
    var pageIdx := 0;
    while pageIdx < |pages|
      invariant 0 <= pageIdx <= |pages|
      invariant allText == JoinPages(pages[..pageIdx])
    {
      assert pages[..pageIdx + 1][..pageIdx] == pages[..pageIdx];
      if pages[pageIdx].Some? {
        allText := allText + pages[pageIdx].value + "\n\n";
      }
      pageIdx := pageIdx + 1;
    }
    assert pages[..|pages|] == pages;
  }
}

/** The Markdown segmenter of `internal/md/parser.go`: line classification (front matter,
    code fences, `#` headings, inline images), the single-pass section builder of
    parseFile, and the parser object whose section counter runs on across files. */
module Markdown {
  import opened GoStrings
  import opened Wrappers
  import GoPath
  import Pdf

  // ---------------------------------------------------------------------------
  // `^(#{1,6})\s+(.+)$` (parser.go:72)
  // ---------------------------------------------------------------------------

  /** The end of the run of `#` that starts at `i`. */
  function HashRunEnd(s: string, i: nat): (j: nat)
    requires i <= |s|
    ensures i <= j <= |s|
    ensures forall k :: i <= k < j ==> s[k] == '#'
    ensures j < |s| ==> s[j] != '#'
    decreases |s| - i
  {
    if i < |s| && s[i] == '#' then HashRunEnd(s, i + 1) else i
  }

  /** No newline from `i` on (`.` does not match `\n`, and `$` is the end of the text). */
  predicate NoNewlineFrom(s: string, i: nat)
  {
    forall k :: i <= k < |s| ==> s[k] != '\n'
  }

  /** The heading pattern as a scan. The hash run must be 1 to 6 long (a seventh `#`
      could match neither `#` nor `\s`), followed by at least one `\s`. The `(.+)` group
      starts where the greedy `\s+` stops; when the whitespace reaches the end of the line,
      `\s+` gives back its last character to `.+`, which needs two spaces. */
  predicate IsMdHeading(line: string)
  {
    var h := HashRunEnd(line, 0);
    var e := Pdf.SpaceRunEnd(line, h);
    && 1 <= h <= 6 && h < e
    && if e < |line| then NoNewlineFrom(line, e) else e - h >= 2 && line[|line| - 1] != '\n'
  }

  /** Where the `(.+)` group begins. */
  function CaptureStart(line: string): (c: nat)
    requires IsMdHeading(line)
    ensures HashRunEnd(line, 0) < c < |line|
  {
    var e := Pdf.SpaceRunEnd(line, HashRunEnd(line, 0));
    if e < |line| then e else |line| - 1
  }

  /** `strings.TrimSpace(matches[2])`. */
  function MdHeadingText(line: string): string
    requires IsMdHeading(line)
  {
    TrimSpace(line[CaptureStart(line)..])
  }

  /** One way the regular expression can match: `h` hashes, `\s` up to `e`, then at least
      one character and no newline up to the end. */
  predicate MdHeadingMatch(line: string, h: nat, e: nat)
  {
    && 1 <= h <= 6 && h < e < |line|
    && (forall k :: 0 <= k < h ==> line[k] == '#')
    && (forall k :: h <= k < e ==> IsRegexSpace(line[k]))
    && NoNewlineFrom(line, e)
  }

  /** The scan accepts exactly the lines the expression matches; its groups are the ones
      RE2 reports: the only possible hash count, and the latest possible start of `(.+)`
      (greedy `\s+`). */
  lemma MdHeadingIsRegex(line: string)
    ensures IsMdHeading(line) <==> exists h: nat, e: nat :: MdHeadingMatch(line, h, e)
    ensures IsMdHeading(line) ==> MdHeadingMatch(line, HashRunEnd(line, 0), CaptureStart(line))
    ensures IsMdHeading(line) ==>
      forall h: nat, e: nat :: MdHeadingMatch(line, h, e) ==> h == HashRunEnd(line, 0) && e <= CaptureStart(line)
  {
    var hh := HashRunEnd(line, 0);
    var ee := Pdf.SpaceRunEnd(line, hh);
    forall h: nat, e: nat | MdHeadingMatch(line, h, e)
      ensures IsMdHeading(line) && h == hh && e <= CaptureStart(line)
    {
      assert line[h] != '#';
      assert hh == h;
      assert e <= ee;
    }
    if IsMdHeading(line) {
      assert MdHeadingMatch(line, hh, CaptureStart(line));
    }
  }

  // ---------------------------------------------------------------------------
  // `!\[([^\]]*)\]\(([^)]+)\)` (parser.go:73)
  // ---------------------------------------------------------------------------

  /** The index of the first `c` at or after `i`, or `|s|`. */
  function IndexFrom(s: string, i: nat, c: char): (j: nat)
    requires i <= |s|
    ensures i <= j <= |s|
    ensures forall k :: i <= k < j ==> s[k] != c
    ensures j < |s| ==> s[j] == c
    decreases |s| - i
  {
    if i < |s| && s[i] != c then IndexFrom(s, i + 1, c) else i
  }

  /** A match: where it ends and its second group. */
  datatype ImageMatch = ImageMatch(end: nat, path: string)

  /** The image pattern tried at `i`: `![`, anything but `]` up to the first `]`, `(`, then
      at least one character that is not `)` up to the first `)`. */
  function MatchImageAt(line: string, i: nat): (m: Option<ImageMatch>)
    requires i <= |line|
    ensures m.Some? ==> i + 5 < m.value.end + 1 <= |line| + 1 && m.value.path != [] && ')' !in m.value.path
  {
    if i + 1 < |line| && line[i] == '!' && line[i + 1] == '[' then
      var j := IndexFrom(line, i + 2, ']');
      if j + 1 < |line| && line[j + 1] == '(' then
        var k := IndexFrom(line, j + 2, ')');
        if j + 2 < k < |line| then
          var path := line[j + 2..k];
          assert forall q :: 0 <= q < |path| ==> path[q] == line[j + 2 + q];
          Some(ImageMatch(k + 1, path))
        else None
      else None
    else None
  }

  /** The text of one image reference with the given alt text and path. */
  predicate ImageRef(t: string, alt: string, path: string)
  {
    t == "![" + alt + "](" + path + ")" && ']' !in alt && ')' !in path && path != ""
  }

  /** The first `c` from `i` is at `j` when `j` holds `c` and nothing before it does. */
  lemma IndexFromIs(s: string, i: nat, c: char, j: nat)
    requires i <= j < |s| && s[j] == c
    requires forall k :: i <= k < j ==> s[k] != c
    ensures IndexFrom(s, i, c) == j
  {
  }

  /** The characters of an image reference, position by position. */
  lemma ImageRefShape(t: string, alt: string, path: string)
    requires ImageRef(t, alt, path)
    ensures |t| == 5 + |alt| + |path|
    ensures t[0] == '!' && t[1] == '[' && t[2 + |alt|] == ']' && t[3 + |alt|] == '(' && t[|t| - 1] == ')'
    ensures forall q :: 2 <= q < 2 + |alt| ==> t[q] != ']'
    ensures forall q :: 4 + |alt| <= q < |t| - 1 ==> t[q] != ')'
    ensures t[4 + |alt|..|t| - 1] == path
  {
    forall q | 2 <= q < 2 + |alt| ensures t[q] != ']' {
      assert t[q] == alt[q - 2];
      assert alt[q - 2] in alt;
    }
    forall q | 4 + |alt| <= q < |t| - 1 ensures t[q] != ')' {
      assert t[q] == path[q - 4 - |alt|];
      assert path[q - 4 - |alt|] in path;
    }
  }

  /** The same facts, read at their positions in the whole line. */
  lemma ImageRefInLine(line: string, i: nat, n: nat, alt: string, path: string)
    requires i <= n <= |line| && ImageRef(line[i..n], alt, path)
    ensures var j := i + 2 + |alt|; var k := j + 2 + |path|;
      && k + 1 == n
      && line[i] == '!' && line[i + 1] == '[' && line[j] == ']' && line[j + 1] == '(' && line[k] == ')'
      && (forall q :: i + 2 <= q < j ==> line[q] != ']')
      && (forall q :: j + 2 <= q < k ==> line[q] != ')')
      && line[j + 2..k] == path
  {
    var t := line[i..n];
    ImageRefShape(t, alt, path);
    var j := i + 2 + |alt|;
    var k := j + 2 + |path|;
    assert line[i] == t[0] && line[i + 1] == t[1] && line[j] == t[2 + |alt|] && line[j + 1] == t[3 + |alt|];
    assert line[k] == t[|t| - 1];
    forall q | i + 2 <= q < j ensures line[q] != ']' {
      assert line[q] == t[q - i];
    }
    forall q | j + 2 <= q < k ensures line[q] != ')' {
      assert line[q] == t[q - i];
    }
    SliceOfSlice(line, i, n, 4 + |alt|, |t| - 1);
  }

  /** The scan at `i` succeeds when `]` at `j` and `)` at `k` are the first ones after
      the opening `![` and `(`. */
  lemma MatchImageAtFrom(line: string, i: nat, j: nat, k: nat)
    requires i + 2 <= j && j + 2 < k < |line|
    requires line[i] == '!' && line[i + 1] == '[' && line[j] == ']' && line[j + 1] == '(' && line[k] == ')'
    requires forall q :: i + 2 <= q < j ==> line[q] != ']'
    requires forall q :: j + 2 <= q < k ==> line[q] != ')'
    ensures MatchImageAt(line, i) == Some(ImageMatch(k + 1, line[j + 2..k]))
  {
    IndexFromIs(line, i + 2, ']', j);
    IndexFromIs(line, j + 2, ')', k);
  }

  /** Every image reference starting at `i` is the one the scan finds there: the alt text
      cannot reach past the first `]`, nor the path past the first `)`. */
  lemma MatchImageAtComplete(line: string, i: nat, n: nat, alt: string, path: string)
    requires i <= n <= |line| && ImageRef(line[i..n], alt, path)
    ensures MatchImageAt(line, i) == Some(ImageMatch(n, path))
  {
    ImageRefInLine(line, i, n, alt, path);
    MatchImageAtFrom(line, i, i + 2 + |alt|, i + 4 + |alt| + |path|);
  }

  /** What the scan finds at `i` is an image reference: its alt text runs from `i + 2` to
      the first `]`. */
  lemma MatchImageAtSound(line: string, i: nat)
    requires i <= |line| && MatchImageAt(line, i).Some?
    ensures var m := MatchImageAt(line, i).value;
      ImageRef(line[i..m.end], line[i + 2..m.end - |m.path| - 3], m.path)
  {
    var m := MatchImageAt(line, i).value;
    var j := IndexFrom(line, i + 2, ']');
    var k := IndexFrom(line, j + 2, ')');
    assert m.end == k + 1 && m.path == line[j + 2..k];
    var a := line[i + 2..j];
    assert ']' !in a by {
      forall q | 0 <= q < |a| ensures a[q] != ']' {
        assert a[q] == line[i + 2 + q];
      }
    }
    var t := line[i..m.end];
    SliceOfSlice(line, i, m.end, 2, j - i);
    SliceOfSlice(line, i, m.end, j - i + 2, k - i);
    ImageRefFromParts(t, a, m.path);
  }

  /** A string laid out as `![alt](path)` is that concatenation. */
  lemma ImageRefFromParts(t: string, alt: string, path: string)
    requires |t| == 5 + |alt| + |path|
    requires t[0] == '!' && t[1] == '[' && t[2 + |alt|] == ']' && t[3 + |alt|] == '(' && t[|t| - 1] == ')'
    requires t[2..2 + |alt|] == alt && t[4 + |alt|..|t| - 1] == path
    ensures t == "![" + alt + "](" + path + ")"
  {
    var r := "![" + alt + "](" + path + ")";
    forall q | 0 <= q < |t| ensures t[q] == r[q] {
      if 2 <= q < 2 + |alt| {
        assert t[q] == t[2..2 + |alt|][q - 2];
      } else if 4 + |alt| <= q < |t| - 1 {
        assert t[q] == t[4 + |alt|..|t| - 1][q - 4 - |alt|];
      }
    }
  }

  /** `FindAllStringSubmatch(line, -1)`, second groups only: leftmost matches, each search
      resuming where the previous match ended. */
  function ImagePaths(line: string, i: nat): (paths: seq<string>)
    requires i <= |line|
    ensures forall k :: 0 <= k < |paths| ==> paths[k] != [] && ')' !in paths[k]
    decreases |line| - i
  {
    if i == |line| then []
    else match MatchImageAt(line, i)
      case Some(m) => [m.path] + ImagePaths(line, m.end)
      case None => ImagePaths(line, i + 1)
  }

  /** A line without `!` has no image references. */
  lemma {:induction false} NoBangNoImages(line: string, i: nat)
    requires i <= |line| && forall k :: i <= k < |line| ==> line[k] != '!'
    ensures ImagePaths(line, i) == []
    decreases |line| - i
  {
    if i < |line| {
      NoBangNoImages(line, i + 1);
    }
  }

  /** The base names of the paths whose copy succeeded, in order (parser.go:132-141);
      `copied` stands for `copyImage(imagePath, filePath) == nil`. */
  function Kept(paths: seq<string>, copied: (string, string) -> bool, filePath: string): (r: seq<string>)
    ensures |r| <= |paths|
  {
    if paths == [] then []
    else
      var last := paths[|paths| - 1];
      Kept(paths[..|paths| - 1], copied, filePath) + (if copied(last, filePath) then [GoPath.Base(last)] else [])
  }

  /** When every copy succeeds, every reference is kept: the images are the base names
      of the matched paths, in match order. */
  lemma {:induction false} KeptAll(paths: seq<string>, copied: (string, string) -> bool, filePath: string)
    requires forall k :: 0 <= k < |paths| ==> copied(paths[k], filePath)
    ensures Kept(paths, copied, filePath) == Pdf.Bases(paths)
  {
    if paths != [] {
      KeptAll(paths[..|paths| - 1], copied, filePath);
    }
  }

  // ---------------------------------------------------------------------------
  // The line loop of parseFile, as a function over the lines
  // ---------------------------------------------------------------------------

  /** The loop variables of parseFile plus the parser's counter (`nextId`). The open
      section's `content` stays empty; it is filled from `buffer` when it is flushed. */
  datatype MdState = MdState(current: Option<Pdf.Section>, buffer: string, inCode: bool, inFront: bool,
                             lineNum: nat, nextId: nat, sections: seq<Pdf.Section>)

  function MdInit(startId: nat): MdState
  {
    MdState(None, "", false, false, 0, startId, [])
  }

  /** What the loop body does with a line, decided in the order of parser.go:82-128. */
  datatype MdLine = FrontStart | FrontMatter | Fence | Code | HeadingLine(level: nat, text: string) | Plain

  predicate IsFence(line: string) { HasPrefix(line, "```") }

  function MdClassify(st: MdState, line: string): (kind: MdLine)
    ensures kind == FrontStart <==> st.lineNum == 0 && line == "---"
    ensures kind.HeadingLine? ==> 1 <= kind.level <= 6 && !st.inFront && !st.inCode && IsMdHeading(line)
    ensures kind == Plain ==> !st.inFront && !st.inCode && !IsFence(line) && !IsMdHeading(line)
  {
    if st.lineNum == 0 && line == "---" then FrontStart
    else if st.inFront then FrontMatter
    else if IsFence(line) then Fence
    else if st.inCode then Code
    else if IsMdHeading(line) then HeadingLine(HashRunEnd(line, 0), MdHeadingText(line))
    else Plain
  }

  /** The section list after the open section, if any, is flushed with its content taken
      from the trimmed buffer. */
  function FlushInto(st: MdState): seq<Pdf.Section>
  {
    if st.current.Some? then st.sections + [st.current.value.(content := TrimSpace(st.buffer))] else st.sections
  }

  function MdStepWith(st: MdState, line: string, kind: MdLine, copied: (string, string) -> bool,
                      filePath: string): MdState
  {
    var st := st.(lineNum := st.lineNum + 1);
    match kind
    case FrontStart => st.(inFront := true)
    case FrontMatter => st.(inFront := line != "---")
    case Fence => st.(inCode := !st.inCode, buffer := st.buffer + line + "\n")
    case Code => st.(buffer := st.buffer + line + "\n")
    case HeadingLine(level, text) =>
      st.(current := Some(Pdf.Section(Pdf.SectionId(st.nextId + 1), level, text, "", [])),
          nextId := st.nextId + 1,
          buffer := if st.current.Some? then "" else st.buffer,
          sections := FlushInto(st))
    case Plain =>
      if st.current.Some? then
        var c := st.current.value;
        st.(current := Some(c.(images := c.images + Kept(ImagePaths(line, 0), copied, filePath))),
            buffer := st.buffer + line + " ")
      else st
  }

  function MdStep(st: MdState, line: string, copied: (string, string) -> bool, filePath: string): MdState
  {
    MdStepWith(st, line, MdClassify(st, line), copied, filePath)
  }

  function MdRun(st: MdState, lines: seq<string>, copied: (string, string) -> bool, filePath: string): MdState
    decreases |lines|
  {
    if lines == [] then st else MdRun(MdStep(st, lines[0], copied, filePath), lines[1..], copied, filePath)
  }

  /** The state after the scanner loop over a whole file, starting from counter `startId`. */
  function SegmentFile(startId: nat, lines: seq<string>, copied: (string, string) -> bool, filePath: string): MdState
  {
    MdRun(MdInit(startId), lines, copied, filePath)
  }

  /** The sections of a file once the last one is saved (parser.go:152-155). */
  function MdFinish(st: MdState): seq<Pdf.Section>
  {
    FlushInto(st)
  }

  lemma {:induction false} MdRunAppend(st: MdState, a: seq<string>, b: seq<string>,
                                       copied: (string, string) -> bool, filePath: string)
    ensures MdRun(st, a + b, copied, filePath) == MdRun(MdRun(st, a, copied, filePath), b, copied, filePath)
    decreases |a|
  {
    if a == [] {
      assert a + b == b;
    } else {
      assert (a + b)[1..] == a[1..] + b;
      MdRunAppend(MdStep(st, a[0], copied, filePath), a[1..], b, copied, filePath);
    }
  }

  lemma MdRunUnfold(st: MdState, lines: seq<string>, i: nat, copied: (string, string) -> bool, filePath: string)
    requires i < |lines|
    ensures MdRun(st, lines[i..], copied, filePath)
      == MdRun(MdStep(st, lines[i], copied, filePath), lines[i + 1..], copied, filePath)
  {
    assert lines[i..][1..] == lines[i + 1..];
  }

  // ---------------------------------------------------------------------------
  // Properties of the line loop
  // ---------------------------------------------------------------------------

  /** Inside front matter, lines up to the closing `---` only advance the line number. */
  lemma {:induction false} FrontMatterRun(st: MdState, lines: seq<string>, copied: (string, string) -> bool, filePath: string)
    requires st.inFront
    requires forall k :: 0 <= k < |lines| ==> lines[k] != "---"
    ensures MdRun(st, lines, copied, filePath) == st.(lineNum := st.lineNum + |lines|)
    decreases |lines|
  {
    if lines != [] {
      var next := MdStep(st, lines[0], copied, filePath);
      assert next == st.(lineNum := st.lineNum + 1);
      FrontMatterRun(next, lines[1..], copied, filePath);
    }
  }

  /** When the first line is `---`, everything up to and including the next `---` is
      discarded: parsing goes on as if the file began after it. */
  lemma FrontMatterDiscarded(startId: nat, lines: seq<string>, close: nat, copied: (string, string) -> bool, filePath: string)
    requires 0 < close < |lines| && lines[0] == "---" && lines[close] == "---"
    requires forall k :: 0 < k < close ==> lines[k] != "---"
    ensures SegmentFile(startId, lines, copied, filePath)
      == MdRun(MdInit(startId).(lineNum := close + 1), lines[close + 1..], copied, filePath)
  {
    var init := MdInit(startId);
    var entered := init.(inFront := true, lineNum := 1);
    assert MdStep(init, lines[0], copied, filePath) == entered;
    var inner := lines[1..close];
    assert forall k :: 0 <= k < |inner| ==> inner[k] != "---" by {
      forall k | 0 <= k < |inner| ensures inner[k] != "---" {
        assert inner[k] == lines[k + 1];
      }
    }
    FrontMatterRun(entered, inner, copied, filePath);
    var before := entered.(lineNum := close);
    assert MdStep(before, lines[close], copied, filePath) == init.(lineNum := close + 1);
    assert lines[1..] == inner + ([lines[close]] + lines[close + 1..]);
    MdRunAppend(entered, inner, [lines[close]] + lines[close + 1..], copied, filePath);
  }

  /** Front matter that is never closed swallows the whole file: no section at all. */
  lemma UnclosedFrontMatter(startId: nat, lines: seq<string>, copied: (string, string) -> bool, filePath: string)
    requires |lines| > 0 && lines[0] == "---"
    requires forall k :: 0 < k < |lines| ==> lines[k] != "---"
    ensures MdFinish(SegmentFile(startId, lines, copied, filePath)) == []
    ensures SegmentFile(startId, lines, copied, filePath).nextId == startId
  {
    var init := MdInit(startId);
    var entered := init.(inFront := true, lineNum := 1);
    assert MdStep(init, lines[0], copied, filePath) == entered;
    assert forall k :: 0 <= k < |lines[1..]| ==> lines[1..][k] != "---" by {
      forall k | 0 <= k < |lines[1..]| ensures lines[1..][k] != "---" {
        assert lines[1..][k] == lines[k + 1];
      }
    }
    FrontMatterRun(entered, lines[1..], copied, filePath);
  }

  /** The lines as written into the buffer inside a fenced block: each followed by `\n`. */
  function Verbatim(lines: seq<string>): string
  {
    if lines == [] then "" else lines[0] + "\n" + Verbatim(lines[1..])
  }

  /** Inside a fenced block, lines go into the buffer verbatim and are never tested for
      headings or images: nothing but the buffer and the line number changes. */
  lemma {:induction false} CodeRun(st: MdState, lines: seq<string>, copied: (string, string) -> bool, filePath: string)
    requires st.inCode && !st.inFront
    requires st.lineNum == 0 && lines != [] ==> lines[0] != "---"
    requires forall k :: 0 <= k < |lines| ==> !IsFence(lines[k])
    ensures MdRun(st, lines, copied, filePath)
      == st.(buffer := st.buffer + Verbatim(lines), lineNum := st.lineNum + |lines|)
    decreases |lines|
  {
    if lines != [] {
      assert !IsFence(lines[0]);
      assert MdClassify(st, lines[0]) == Code;
      var next := MdStepWith(st, lines[0], Code, copied, filePath);
      assert next == st.(buffer := st.buffer + lines[0] + "\n", lineNum := st.lineNum + 1);
      CodeRun(next, lines[1..], copied, filePath);
      assert st.buffer + lines[0] + "\n" + Verbatim(lines[1..]) == st.buffer + Verbatim(lines);
    }
  }

  /** Outside front matter, a fence line toggles code mode; it is never the opening `---`. */
  lemma ClassifyFence(st: MdState, line: string)
    requires !st.inFront && IsFence(line)
    ensures MdClassify(st, line) == Fence
  {
    assert line[..3][0] == '`';
  }

  /** A whole fenced block outside front matter: the opening fence, the body and the
      closing fence are appended verbatim and the parser is outside code again after it. */
  lemma FencedBlock(st: MdState, open: string, body: seq<string>, close: string,
                    copied: (string, string) -> bool, filePath: string)
    requires !st.inCode && !st.inFront
    requires IsFence(open) && IsFence(close)
    requires forall k :: 0 <= k < |body| ==> !IsFence(body[k])
    ensures MdRun(st, [open] + body + [close], copied, filePath)
      == st.(buffer := st.buffer + Verbatim([open] + body + [close]), lineNum := st.lineNum + |body| + 2)
  {
    ClassifyFence(st, open);
    var s1 := MdStepWith(st, open, Fence, copied, filePath);
    assert s1 == st.(inCode := true, buffer := st.buffer + open + "\n", lineNum := st.lineNum + 1);
    CodeRun(s1, body, copied, filePath);
    var s2 := s1.(buffer := s1.buffer + Verbatim(body), lineNum := s1.lineNum + |body|);
    ClassifyFence(s2, close);
    var s3 := MdStepWith(s2, close, Fence, copied, filePath);
    assert s3 == st.(buffer := s2.buffer + close + "\n", lineNum := st.lineNum + |body| + 2);
    MdRunAppend(st, [open] + body, [close], copied, filePath);
    MdRunAppend(st, [open], body, copied, filePath);
    assert ([open] + body)[1..] == body;
    assert [open] + body + [close] == [open] + (body + [close]);
    VerbatimAppend(body, [close]);
    assert Verbatim([open] + (body + [close])) == open + "\n" + Verbatim(body + [close]);
    assert Verbatim([close]) == close + "\n";
  }

  lemma {:induction false} VerbatimAppend(a: seq<string>, b: seq<string>)
    ensures Verbatim(a + b) == Verbatim(a) + Verbatim(b)
    decreases |a|
  {
    if a == [] {
      assert a + b == b;
    } else {
      assert (a + b)[1..] == a[1..] + b;
      VerbatimAppend(a[1..], b);
    }
  }

  /** Ordinary lines before the first heading leave no trace: only the line number moves. */
  lemma {:induction false} TextBeforeFirstHeading(st: MdState, lines: seq<string>, copied: (string, string) -> bool, filePath: string)
    requires st.current.None? && !st.inCode && !st.inFront
    requires st.lineNum == 0 && lines != [] ==> lines[0] != "---"
    requires forall k :: 0 <= k < |lines| ==> !IsFence(lines[k]) && !IsMdHeading(lines[k])
    ensures MdRun(st, lines, copied, filePath) == st.(lineNum := st.lineNum + |lines|)
    decreases |lines|
  {
    if lines != [] {
      var next := MdStep(st, lines[0], copied, filePath);
      assert MdClassify(st, lines[0]) == Plain;
      assert next == st.(lineNum := st.lineNum + 1);
      TextBeforeFirstHeading(next, lines[1..], copied, filePath);
    }
  }

  /** A processed line with a section open: its images whose copy succeeds are appended,
      left to right, and the line itself still goes into the buffer followed by a space. */
  lemma PlainLine(st: MdState, line: string, copied: (string, string) -> bool, filePath: string)
    requires st.current.Some? && !st.inCode && !st.inFront
    requires !IsFence(line) && !IsMdHeading(line) && (st.lineNum == 0 ==> line != "---")
    ensures var next := MdStep(st, line, copied, filePath);
      && next.current == Some(st.current.value.(images := st.current.value.images + Kept(ImagePaths(line, 0), copied, filePath)))
      && next.buffer == st.buffer + line + " "
      && next.sections == st.sections && next.nextId == st.nextId
  {
    assert MdClassify(st, line) == Plain;
  }

  /** The buffer is emptied only when a section is flushed, and a flushed section gets the
      trimmed buffer as its content; otherwise the buffer only grows and the section list
      does not change. */
  lemma BufferResetOnlyAtFlush(st: MdState, line: string, copied: (string, string) -> bool, filePath: string)
    ensures var next := MdStep(st, line, copied, filePath);
      || (HasPrefix(next.buffer, st.buffer) && next.sections == st.sections)
      || (st.current.Some? && next.buffer == ""
          && next.sections == st.sections + [st.current.value.(content := TrimSpace(st.buffer))])
  {
    StepWithResetsOnlyAtFlush(st, line, MdClassify(st, line), copied, filePath);
  }

  lemma StepWithResetsOnlyAtFlush(st: MdState, line: string, kind: MdLine, copied: (string, string) -> bool, filePath: string)
    ensures var next := MdStepWith(st, line, kind, copied, filePath);
      || (HasPrefix(next.buffer, st.buffer) && next.sections == st.sections)
      || (st.current.Some? && next.buffer == ""
          && next.sections == st.sections + [st.current.value.(content := TrimSpace(st.buffer))])
  {
    var next := MdStepWith(st, line, kind, copied, filePath);
    match kind
    case HeadingLine(_, _) =>
      if st.current.None? {
        assert next.buffer == st.buffer;
      }
    case Fence =>
      assert next.buffer[..|st.buffer|] == st.buffer;
    case Code =>
      assert next.buffer[..|st.buffer|] == st.buffer;
    case Plain =>
      if st.current.Some? {
        assert next.buffer[..|st.buffer|] == st.buffer;
      }
    case FrontStart =>
    case FrontMatter =>
  }

  /** The first heading keeps whatever the buffer holds (parser.go:112-118 only flush and
      reset it when a section is open) and opens the section after the counter. */
  lemma FirstHeadingKeepsBuffer(st: MdState, heading: string, copied: (string, string) -> bool, filePath: string)
    requires st.current.None? && !st.inCode && !st.inFront && IsMdHeading(heading)
    ensures var next := MdStep(st, heading, copied, filePath);
      && next.buffer == st.buffer && next.sections == st.sections && next.nextId == st.nextId + 1
      && next.current == Some(Pdf.Section(Pdf.SectionId(st.nextId + 1), HashRunEnd(heading, 0), MdHeadingText(heading), "", []))
  {
    ClassifyHeading(st, heading);
  }

  /** A fenced block seen before the first heading stays in the buffer when that heading
      opens the first section, so it becomes the front of that section's content. */
  lemma FenceBeforeFirstHeading(st: MdState, open: string, body: seq<string>, close: string, heading: string,
                                copied: (string, string) -> bool, filePath: string)
    requires st.current.None? && !st.inCode && !st.inFront
    requires IsFence(open) && IsFence(close) && IsMdHeading(heading)
    requires forall k :: 0 <= k < |body| ==> !IsFence(body[k])
    ensures var next := MdRun(st, [open] + body + [close] + [heading], copied, filePath);
      && next.buffer == st.buffer + Verbatim([open] + body + [close])
      && next.sections == st.sections && next.nextId == st.nextId + 1
      && next.current == Some(Pdf.Section(Pdf.SectionId(st.nextId + 1), HashRunEnd(heading, 0), MdHeadingText(heading), "", []))
  {
    var block := [open] + body + [close];
    var s := st.(buffer := st.buffer + Verbatim(block), lineNum := st.lineNum + |body| + 2);
    assert s.current.None? && !s.inCode && !s.inFront;
    FenceThenLine(st, open, body, close, heading, copied, filePath);
    FirstHeadingKeepsBuffer(s, heading, copied, filePath);
    var next := MdStep(s, heading, copied, filePath);
    assert MdRun(st, block + [heading], copied, filePath) == next;
  }

  /** The line after a fenced block is read in the state the block leaves. */
  lemma FenceThenLine(st: MdState, open: string, body: seq<string>, close: string, line: string,
                      copied: (string, string) -> bool, filePath: string)
    requires !st.inCode && !st.inFront
    requires IsFence(open) && IsFence(close)
    requires forall k :: 0 <= k < |body| ==> !IsFence(body[k])
    ensures MdRun(st, [open] + body + [close] + [line], copied, filePath)
      == MdStep(st.(buffer := st.buffer + Verbatim([open] + body + [close]), lineNum := st.lineNum + |body| + 2), line, copied, filePath)
  {
    var block := [open] + body + [close];
    FencedBlock(st, open, body, close, copied, filePath);
    MdRunAppend(st, block, [line], copied, filePath);
    assert [line][1..] == [];
  }

  /** Outside front matter and code, a line the heading pattern matches is a heading. */
  lemma ClassifyHeading(st: MdState, line: string)
    requires !st.inCode && !st.inFront && IsMdHeading(line)
    ensures MdClassify(st, line) == HeadingLine(HashRunEnd(line, 0), MdHeadingText(line))
  {
    assert line[0] == '#';
    assert !IsFence(line);
  }

  // ---------------------------------------------------------------------------
  // Section numbering
  // ---------------------------------------------------------------------------

  predicate GoodLevel(s: Pdf.Section) { 1 <= s.level <= 6 }

  /** Sections (flushed and open) carry consecutive ids from `startId + 1` on, the counter
      is the id of the last one, and every level is a hash count. */
  ghost predicate Numbered(st: MdState, startId: nat)
  {
    && st.nextId == startId + |st.sections| + (if st.current.Some? then 1 else 0)
    && (forall i :: 0 <= i < |st.sections| ==> st.sections[i].id == Pdf.SectionId(startId + i + 1))
    && (forall i :: 0 <= i < |st.sections| ==> GoodLevel(st.sections[i]))
    && (st.current.Some? ==> st.current.value.id == Pdf.SectionId(st.nextId) && GoodLevel(st.current.value))
  }

  /** A heading flushes the open section, whose id is the counter, and opens the next one. */
  lemma HeadingKeepsNumbered(st: MdState, line: string, level: nat, text: string, startId: nat,
                             copied: (string, string) -> bool, filePath: string)
    requires Numbered(st, startId) && 1 <= level <= 6
    ensures Numbered(MdStepWith(st, line, HeadingLine(level, text), copied, filePath), startId)
  {
    var next := MdStepWith(st, line, HeadingLine(level, text), copied, filePath);
    var secs := FlushInto(st);
    assert next.sections == secs && next.nextId == st.nextId + 1;
    assert next.current == Some(Pdf.Section(Pdf.SectionId(st.nextId + 1), level, text, "", []));
    assert |secs| == |st.sections| + (if st.current.Some? then 1 else 0);
    forall i | 0 <= i < |secs| ensures secs[i].id == Pdf.SectionId(startId + i + 1) && GoodLevel(secs[i]) {
      if i < |st.sections| {
        assert secs[i] == st.sections[i];
      } else {
        assert secs[i] == st.current.value.(content := TrimSpace(st.buffer));
      }
    }
  }

  lemma StepWithKeepsNumbered(st: MdState, line: string, kind: MdLine, startId: nat,
                               copied: (string, string) -> bool, filePath: string)
    requires Numbered(st, startId)
    requires kind.HeadingLine? ==> 1 <= kind.level <= 6
    ensures Numbered(MdStepWith(st, line, kind, copied, filePath), startId)
  {
    var next := MdStepWith(st, line, kind, copied, filePath);
    match kind
    case HeadingLine(level, text) =>
      HeadingKeepsNumbered(st, line, level, text, startId, copied, filePath);
    case Plain =>
      assert next.sections == st.sections && next.nextId == st.nextId;
      assert next.current.Some? ==> next.current.value.id == st.current.value.id
                                    && next.current.value.level == st.current.value.level;
    case FrontStart =>
      assert next.sections == st.sections && next.nextId == st.nextId && next.current == st.current;
    case FrontMatter =>
      assert next.sections == st.sections && next.nextId == st.nextId && next.current == st.current;
    case Fence =>
      assert next.sections == st.sections && next.nextId == st.nextId && next.current == st.current;
    case Code =>
      assert next.sections == st.sections && next.nextId == st.nextId && next.current == st.current;
  }

  lemma StepKeepsNumbered(st: MdState, line: string, startId: nat, copied: (string, string) -> bool, filePath: string)
    requires Numbered(st, startId)
    ensures Numbered(MdStep(st, line, copied, filePath), startId)
  {
    StepWithKeepsNumbered(st, line, MdClassify(st, line), startId, copied, filePath);
  }

  lemma {:induction false} RunKeepsNumbered(st: MdState, lines: seq<string>, startId: nat,
                                            copied: (string, string) -> bool, filePath: string)
    requires Numbered(st, startId)
    ensures Numbered(MdRun(st, lines, copied, filePath), startId)
    decreases |lines|
  {
    if lines != [] {
      StepKeepsNumbered(st, lines[0], startId, copied, filePath);
      RunKeepsNumbered(MdStep(st, lines[0], copied, filePath), lines[1..], startId, copied, filePath);
    }
  }

  /** The sections of one file are numbered `section-(startId+1)`, `section-(startId+2)`, …
      in order; the counter ends at the last of them; levels lie in 1..6. */
  lemma FileSectionsNumbered(startId: nat, lines: seq<string>, copied: (string, string) -> bool, filePath: string)
    ensures var st := SegmentFile(startId, lines, copied, filePath);
      var secs := MdFinish(st);
      && st.nextId == startId + |secs|
      && (forall i :: 0 <= i < |secs| ==> secs[i].id == Pdf.SectionId(startId + i + 1) && GoodLevel(secs[i]))
  {
    RunKeepsNumbered(MdInit(startId), lines, startId, copied, filePath);
  }

  // ---------------------------------------------------------------------------
  // Several files, and the directory filter
  // ---------------------------------------------------------------------------

  /** What opening and scanning a file yields: the error `os.Open` reports, or the lines
      the scanner delivered and the error it stopped with, if any. */
  datatype FileRead = OpenFailed(err: string) | Scanned(lines: seq<string>, scanErr: Option<string>)

  /** The result of ParseFiles and where the parser's counter ends up, error or not. */
  datatype FilesOutcome = FilesOutcome(result: Result<seq<Pdf.Section>>, nextId: nat)

  function ParseErr(file: string, err: string): string
  {
    "failed to parse " + file + ": " + err
  }

  /** parseFile on one file with the counter at `startId`: its sections or its error, and
      the counter afterwards. */
  function ParseOne(startId: nat, file: string, fs: string -> FileRead, copied: (string, string) -> bool): FilesOutcome
  {
    match fs(file)
    case OpenFailed(e) => FilesOutcome(Err(e), startId)
    case Scanned(lines, scanErr) =>
      var st := SegmentFile(startId, lines, copied, file);
      FilesOutcome(if scanErr.Some? then Err(scanErr.value) else Ok(MdFinish(st)), st.nextId)
  }

  /** The files in order, each continuing the counter; the first failure ends the run. */
  function ParseFilesFrom(startId: nat, files: seq<string>, fs: string -> FileRead,
                          copied: (string, string) -> bool): FilesOutcome
    decreases |files|
  {
    if files == [] then FilesOutcome(Ok([]), startId)
    else
      var one := ParseOne(startId, files[0], fs, copied);
      if one.result.Err? then FilesOutcome(Err(ParseErr(files[0], one.result.message)), one.nextId)
      else Combined(one.result.value, ParseFilesFrom(one.nextId, files[1..], fs, copied))
  }

  /** Sections numbered consecutively from `startId + 1`, with levels 1..6. */
  ghost predicate Consecutive(secs: seq<Pdf.Section>, startId: nat)
  {
    forall i :: 0 <= i < |secs| ==> secs[i].id == Pdf.SectionId(startId + i + 1) && GoodLevel(secs[i])
  }

  /** One file's sections are numbered from `startId + 1` on and the counter ends at the last. */
  lemma ParseOneNumbered(startId: nat, file: string, fs: string -> FileRead, copied: (string, string) -> bool)
    ensures var one := ParseOne(startId, file, fs, copied);
      one.result.Ok? ==> one.nextId == startId + |one.result.value| && Consecutive(one.result.value, startId)
  {
    if fs(file).Scanned? {
      FileSectionsNumbered(startId, fs(file).lines, copied, file);
    }
  }

  /** The ids continue from file to file: over all files they are `section-(startId+1)`
      onwards, in order, and the counter ends at the last one. */
  lemma {:induction false} FilesNumbered(startId: nat, files: seq<string>, fs: string -> FileRead,
                                         copied: (string, string) -> bool)
    ensures var out := ParseFilesFrom(startId, files, fs, copied);
      out.result.Ok? ==> out.nextId == startId + |out.result.value| && Consecutive(out.result.value, startId)
    decreases |files|
  {
    if files != [] {
      var one := ParseOne(startId, files[0], fs, copied);
      if one.result.Ok? {
        ParseOneNumbered(startId, files[0], fs, copied);
        FilesNumbered(one.nextId, files[1..], fs, copied);
        var rest := ParseFilesFrom(one.nextId, files[1..], fs, copied);
        assert ParseFilesFrom(startId, files, fs, copied) == Combined(one.result.value, rest);
        if rest.result.Ok? {
          ConsecutiveAppend(one.result.value, rest.result.value, startId);
        }
      }
    }
  }

  lemma ConsecutiveAppend(first: seq<Pdf.Section>, rest: seq<Pdf.Section>, startId: nat)
    requires Consecutive(first, startId) && Consecutive(rest, startId + |first|)
    ensures Consecutive(first + rest, startId)
  {
    var all := first + rest;
    forall i | 0 <= i < |all| ensures all[i].id == Pdf.SectionId(startId + i + 1) && GoodLevel(all[i]) {
      if i >= |first| {
        assert all[i] == rest[i - |first|];
      }
    }
  }

  /** Consecutive ids are pairwise distinct. */
  lemma ConsecutiveUnique(secs: seq<Pdf.Section>, startId: nat)
    requires Consecutive(secs, startId)
    ensures forall i, j :: 0 <= i < j < |secs| ==> secs[i].id != secs[j].id
  {
    forall i, j | 0 <= i < j < |secs| ensures secs[i].id != secs[j].id {
      if secs[i].id == secs[j].id {
        Pdf.SectionIdInjective(startId + i + 1, startId + j + 1);
      }
    }
  }

  /** An entry `filepath.Walk` hands to the callback: path, base name, kind, and the error
      reported for it, if any. */
  datatype WalkEntry = WalkEntry(path: string, name: string, isDir: bool, err: Option<string>)

  /** The filter of ParseDirectory (parser.go:200). */
  predicate IsMarkdownFile(e: WalkEntry)
  {
    !e.isDir && HasSuffix(e.name, ".md") && e.name != "README.md"
  }

  /** The callback over the entries: the first error aborts the walk, otherwise the paths
      of the entries that pass the filter, in walk order. */
  function WalkFiles(entries: seq<WalkEntry>): (r: Result<seq<string>>)
    ensures r.Ok? ==> |r.value| <= |entries|
  {
    if entries == [] then Ok([])
    else
      var rest := WalkFiles(entries[..|entries| - 1]);
      var e := entries[|entries| - 1];
      if rest.Err? then rest
      else if e.err.Some? then Err(e.err.value)
      else Ok(rest.value + if IsMarkdownFile(e) then [e.path] else [])
  }

  /** Without errors the walk keeps exactly the entries that pass the filter, in order:
      each kept path belongs to a `.md` file other than README.md. */
  lemma {:induction false} WalkFilesFilter(entries: seq<WalkEntry>)
    requires forall k :: 0 <= k < |entries| ==> entries[k].err.None?
    ensures WalkFiles(entries).Ok?
    ensures forall p :: p in WalkFiles(entries).value ==>
      exists k :: 0 <= k < |entries| && entries[k].path == p && IsMarkdownFile(entries[k])
    ensures forall k :: 0 <= k < |entries| && IsMarkdownFile(entries[k]) ==> entries[k].path in WalkFiles(entries).value
  {
    if entries != [] {
      var init := entries[..|entries| - 1];
      WalkFilesFilter(init);
      var e := entries[|entries| - 1];
      forall p | p in WalkFiles(entries).value
        ensures exists k :: 0 <= k < |entries| && entries[k].path == p && IsMarkdownFile(entries[k])
      {
        if p in WalkFiles(init).value {
          var k :| 0 <= k < |init| && init[k].path == p && IsMarkdownFile(init[k]);
          assert entries[k] == init[k];
        } else {
          assert entries[|entries| - 1].path == p;
        }
      }
      forall k | 0 <= k < |entries| && IsMarkdownFile(entries[k])
        ensures entries[k].path in WalkFiles(entries).value
      {
        if k < |init| {
          assert init[k] == entries[k];
        }
      }
    }
  }

  /** The first error stops the walk whatever follows. */
  lemma WalkStopsAtError(entries: seq<WalkEntry>, more: seq<WalkEntry>)
    requires WalkFiles(entries).Err?
    ensures WalkFiles(entries + more) == WalkFiles(entries)
    decreases |more|
  {
    if more != [] {
      WalkStopsAtError(entries, more[..|more| - 1]);
      assert (entries + more)[..|entries + more| - 1] == entries + more[..|more| - 1];
    } else {
      assert entries + more == entries;
    }
  }

  // ---------------------------------------------------------------------------
  // The parser object
  // ---------------------------------------------------------------------------

  /** `md.Parser`: the counter runs on across every file this parser reads. The output
      and image directories only name where `copyImage` writes, so they are inputs of the
      `copied` oracle here. */
  class MarkdownParser {
    var sectionId: nat

    /** NewParser. */
    constructor ()
      ensures sectionId == 0
    {
      sectionId := 0;
    }

    /** parseFile (parser.go:55-162). The file system is `fs`, and `copied(path, file)`
        says whether copyImage succeeds. The counter advances for every heading, also when
        the scanner then reports an error. */
    method ParseFile(filePath: string, fs: string -> FileRead, copied: (string, string) -> bool)
      returns (res: Result<seq<Pdf.Section>>)
      modifies this
      ensures FilesOutcome(res, sectionId) == ParseOne(old(sectionId), filePath, fs, copied)
    {
      var file := fs(filePath);
      if file.OpenFailed? {
        return Err(file.err);
      }
      var lines := file.lines;
      ghost var startId := sectionId;
      var sections: seq<Pdf.Section> := [];
      var currentSection: Option<Pdf.Section> := None;
      var contentBuilder := "";
      var inCodeBlock := false;
      var inFrontMatter := false;
      var lineNum: nat := 0;
      var i := 0;
      while i < |lines|
        invariant 0 <= i <= |lines|
        invariant MdRun(MdState(currentSection, contentBuilder, inCodeBlock, inFrontMatter, lineNum, sectionId, sections),
                        lines[i..], copied, filePath)
               == SegmentFile(startId, lines, copied, filePath)
      {
        ghost var before := MdState(currentSection, contentBuilder, inCodeBlock, inFrontMatter, lineNum, sectionId, sections);
        currentSection, contentBuilder, inCodeBlock, inFrontMatter, lineNum, sections :=
          ScanLine(currentSection, contentBuilder, inCodeBlock, inFrontMatter, lineNum, sections, lines[i], copied, filePath);
        MdRunUnfold(before, lines, i, copied, filePath);
        i := i + 1;
      }
      ghost var final := MdState(currentSection, contentBuilder, inCodeBlock, inFrontMatter, lineNum, sectionId, sections);
      assert final == SegmentFile(startId, lines, copied, filePath);
      if currentSection.Some? {
        sections := sections + [currentSection.value.(content := TrimSpace(contentBuilder))];
      }
      assert sections == MdFinish(final);
      if file.scanErr.Some? {
        return Err(file.scanErr.value);
      }
      return Ok(sections);
    }

    /** One pass of the scanner loop of parseFile (parser.go:78-148). */
    method ScanLine(currentSection0: Option<Pdf.Section>, buffer0: string, inCode0: bool, inFront0: bool,
                    lineNum0: nat, sections0: seq<Pdf.Section>, line: string,
                    copied: (string, string) -> bool, filePath: string)
      returns (currentSection: Option<Pdf.Section>, buffer: string, inCode: bool, inFront: bool,
               lineNum: nat, sections: seq<Pdf.Section>)
      modifies this
      ensures MdState(currentSection, buffer, inCode, inFront, lineNum, sectionId, sections)
        == MdStep(MdState(currentSection0, buffer0, inCode0, inFront0, lineNum0, old(sectionId), sections0),
                  line, copied, filePath)
    {
      ghost var before := MdState(currentSection0, buffer0, inCode0, inFront0, lineNum0, sectionId, sections0);
      ghost var kind := MdClassify(before, line);
      ghost var after := MdStepWith(before, line, kind, copied, filePath);
      assert MdStep(before, line, copied, filePath) == after;
      currentSection, buffer, inCode, inFront, lineNum, sections :=
        currentSection0, buffer0, inCode0, inFront0, lineNum0 + 1, sections0;
      if lineNum == 1 && line == "---" {
        assert kind == FrontStart;
        inFront := true;
        assert MdState(currentSection, buffer, inCode, inFront, lineNum, sectionId, sections) == after;
        return;
      }
      if inFront {
        assert kind == FrontMatter;
        if line == "---" {
          inFront := false;
        }
        assert MdState(currentSection, buffer, inCode, inFront, lineNum, sectionId, sections) == after;
        return;
      }
      if IsFence(line) {
        assert kind == Fence;
        inCode := !inCode;
        buffer := buffer + line + "\n";
        assert MdState(currentSection, buffer, inCode, inFront, lineNum, sectionId, sections) == after;
        return;
      }
      if inCode {
        assert kind == Code;
        buffer := buffer + line + "\n";
        assert MdState(currentSection, buffer, inCode, inFront, lineNum, sectionId, sections) == after;
        return;
      }
      currentSection, buffer, lineNum, sections :=
        ScanContent(currentSection0, buffer0, lineNum0, sections0, line, copied, filePath);
    }

    /** The heading and content branches of the scanner loop (parser.go:108-148), for a line
        outside front matter and code that is not a fence. */
    method ScanContent(currentSection0: Option<Pdf.Section>, buffer0: string, lineNum0: nat,
                       sections0: seq<Pdf.Section>, line: string,
                       copied: (string, string) -> bool, filePath: string)
      returns (currentSection: Option<Pdf.Section>, buffer: string, lineNum: nat, sections: seq<Pdf.Section>)
      requires !(lineNum0 == 0 && line == "---") && !IsFence(line)
      modifies this
      ensures MdState(currentSection, buffer, false, false, lineNum, sectionId, sections)
        == MdStep(MdState(currentSection0, buffer0, false, false, lineNum0, old(sectionId), sections0),
                  line, copied, filePath)
    {
      ghost var before := MdState(currentSection0, buffer0, false, false, lineNum0, sectionId, sections0);
      if IsMdHeading(line) {
        var level := HashRunEnd(line, 0);
        var heading := MdHeadingText(line);
        assert MdClassify(before, line) == HeadingLine(level, heading);
        currentSection, buffer, lineNum, sections :=
          OpenSection(currentSection0, buffer0, lineNum0, sections0, line, level, heading, copied, filePath);
      } else {
        assert MdClassify(before, line) == Plain;
        currentSection, buffer, lineNum := PlainText(currentSection0, buffer0, lineNum0, sections0, line, copied, filePath);
        sections := sections0;
      }
    }

    /** A heading line (parser.go:108-128): the open section is flushed and a new one opened
        under the next id. */
    method OpenSection(currentSection0: Option<Pdf.Section>, buffer0: string, lineNum0: nat,
                       sections0: seq<Pdf.Section>, line: string, level: nat, heading: string,
                       copied: (string, string) -> bool, filePath: string)
      returns (currentSection: Option<Pdf.Section>, buffer: string, lineNum: nat, sections: seq<Pdf.Section>)
      modifies this
      ensures MdState(currentSection, buffer, false, false, lineNum, sectionId, sections)
        == MdStepWith(MdState(currentSection0, buffer0, false, false, lineNum0, old(sectionId), sections0),
                      line, HeadingLine(level, heading), copied, filePath)
    {
      currentSection, buffer, lineNum, sections := currentSection0, buffer0, lineNum0 + 1, sections0;
      if currentSection.Some? {
        sections := sections + [currentSection.value.(content := TrimSpace(buffer))];
        buffer := "";
      }
      sectionId := sectionId + 1;
      currentSection := Some(Pdf.Section(Pdf.SectionId(sectionId), level, heading, "", []));
    }

    /** A content line (parser.go:131-148): with a section open, its copied images are added
        to it and the line to the buffer; before the first heading it is dropped. */
    method PlainText(currentSection0: Option<Pdf.Section>, buffer0: string, lineNum0: nat,
                     ghost sections: seq<Pdf.Section>, line: string,
                     copied: (string, string) -> bool, filePath: string)
      returns (currentSection: Option<Pdf.Section>, buffer: string, lineNum: nat)
      ensures MdState(currentSection, buffer, false, false, lineNum, sectionId, sections)
        == MdStepWith(MdState(currentSection0, buffer0, false, false, lineNum0, sectionId, sections),
                      line, Plain, copied, filePath)
    {
      currentSection, buffer, lineNum := currentSection0, buffer0, lineNum0 + 1;
      var imagePaths := ImagePaths(line, 0);
      if currentSection.Some? {
        var images := AddImages(currentSection.value.images, imagePaths, copied, filePath);
        currentSection := Some(currentSection.value.(images := images));
        buffer := buffer + line + " ";
      }
    }

    /** The match loop of parseFile (parser.go:132-141) for an open section. */
    method AddImages(images0: seq<string>, imagePaths: seq<string>, copied: (string, string) -> bool, filePath: string)
      returns (images: seq<string>)
      ensures images == images0 + Kept(imagePaths, copied, filePath)
    {
      images := images0;
      var m := 0;
      while m < |imagePaths|
        invariant 0 <= m <= |imagePaths|
        invariant images == images0 + Kept(imagePaths[..m], copied, filePath)
      {
        assert imagePaths[..m + 1][..m] == imagePaths[..m];
        if copied(imagePaths[m], filePath) {
          images := images + [GoPath.Base(imagePaths[m])];
        }
        m := m + 1;
      }
      assert imagePaths[..|imagePaths|] == imagePaths;
    }

    /** ParseFiles (parser.go:31-52); `mkdirErr` is what `os.MkdirAll` reports. */
    method ParseFiles(files: seq<string>, mkdirErr: Option<string>, fs: string -> FileRead,
                      copied: (string, string) -> bool) returns (res: Result<Pdf.Document>)
      modifies this
      ensures mkdirErr.Some? ==>
        res == Err("failed to create image directory: " + mkdirErr.value) && sectionId == old(sectionId)
      ensures mkdirErr.None? ==>
        var out := ParseFilesFrom(old(sectionId), files, fs, copied);
        && sectionId == out.nextId
        && res == if out.result.Ok? then Ok(Pdf.Document("Documentation", out.result.value)) else Err(out.result.message)
    {
      if mkdirErr.Some? {
        return Err("failed to create image directory: " + mkdirErr.value);
      }
      ghost var startId := sectionId;
      var all: seq<Pdf.Section> := [];
      var i := 0;
      assert files[0..] == files;
      CombinedNothing(ParseFilesFrom(startId, files, fs, copied));
      while i < |files|
        invariant 0 <= i <= |files|
        invariant Combined(all, ParseFilesFrom(sectionId, files[i..], fs, copied)) == ParseFilesFrom(startId, files, fs, copied)
      {
        ghost var id0 := sectionId;
        ParseFilesUnfold(id0, files, i, fs, copied);
        var sections := ParseFile(files[i], fs, copied);
        if sections.Err? {
          return Err(ParseErr(files[i], sections.message));
        }
        CombinedAssoc(all, sections.value, ParseFilesFrom(sectionId, files[i + 1..], fs, copied));
        all := all + sections.value;
        i := i + 1;
      }
      assert files[|files|..] == [] && all + [] == all;
      return Ok(Pdf.Document("Documentation", all));
    }

    /** ParseDirectory (parser.go:193-216): the walk, then ParseFiles on what it kept. */
    method ParseDirectory(dir: string, entries: seq<WalkEntry>, mkdirErr: Option<string>, fs: string -> FileRead,
                          copied: (string, string) -> bool) returns (res: Result<Pdf.Document>)
      modifies this
      ensures WalkFiles(entries).Err? ==> res == Err(WalkFiles(entries).message) && sectionId == old(sectionId)
      ensures WalkFiles(entries) == Ok([]) ==>
        res == Err("no markdown files found in " + dir) && sectionId == old(sectionId)
      ensures WalkFiles(entries).Ok? && WalkFiles(entries).value != [] && mkdirErr.None? ==>
        var out := ParseFilesFrom(old(sectionId), WalkFiles(entries).value, fs, copied);
        && sectionId == out.nextId
        && res == if out.result.Ok? then Ok(Pdf.Document("Documentation", out.result.value)) else Err(out.result.message)
      ensures WalkFiles(entries).Ok? && WalkFiles(entries).value != [] && mkdirErr.Some? ==>
        res == Err("failed to create image directory: " + mkdirErr.value) && sectionId == old(sectionId)
    {
      var files: seq<string> := [];
      var i := 0;
      while i < |entries|
        invariant 0 <= i <= |entries|
        invariant WalkFiles(entries[..i]) == Ok(files)
      {
        assert entries[..i + 1][..i] == entries[..i] && entries[..i + 1][i] == entries[i];
        if entries[i].err.Some? {
          WalkStopsAtError(entries[..i + 1], entries[i + 1..]);
          assert entries[..i + 1] + entries[i + 1..] == entries;
          return Err(entries[i].err.value);
        }
        if IsMarkdownFile(entries[i]) {
          files := files + [entries[i].path];
        } else {
          assert files + [] == files;
        }
        i := i + 1;
      }
      assert entries[..|entries|] == entries;
      if |files| == 0 {
        return Err("no markdown files found in " + dir);
      }
      res := ParseFiles(files, mkdirErr, fs, copied);
    }
  }

  lemma CombinedAssoc(a: seq<Pdf.Section>, b: seq<Pdf.Section>, out: FilesOutcome)
    ensures Combined(a, Combined(b, out)) == Combined(a + b, out)
  {
    if out.result.Ok? {
      assert a + (b + out.result.value) == a + b + out.result.value;
    }
  }

  lemma ParseFilesUnfold(startId: nat, files: seq<string>, i: nat, fs: string -> FileRead, copied: (string, string) -> bool)
    requires i < |files|
    ensures var one := ParseOne(startId, files[i], fs, copied);
      ParseFilesFrom(startId, files[i..], fs, copied)
      == if one.result.Err? then FilesOutcome(Err(ParseErr(files[i], one.result.message)), one.nextId)
         else Combined(one.result.value, ParseFilesFrom(one.nextId, files[i + 1..], fs, copied))
  {
    assert files[i..][0] == files[i] && files[i..][1..] == files[i + 1..];
  }

  lemma CombinedNothing(out: FilesOutcome)
    ensures Combined([], out) == out
  {
    if out.result.Ok? {
      assert [] + out.result.value == out.result.value;
    }
  }

  /** Sections `acc` already collected, followed by the outcome of the remaining files. */
  function Combined(acc: seq<Pdf.Section>, out: FilesOutcome): FilesOutcome
  {
    if out.result.Ok? then out.(result := Ok(acc + out.result.value)) else out
  }
}

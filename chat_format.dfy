/** `formatChatMessage` of `static/script.js`: the chat answer is HTML-escaped, passed
    through the inline Markdown replacements, and then turned line by line into
    paragraphs and ordered or unordered lists. The output is modelled as a sequence of
    pieces (`Piece`), each of which is one string the script pushes to `result`. */
module ChatFormat {
  import opened Wrappers
  import opened GoStrings

  // ---------------------------------------------------------------------------
  // JavaScript whitespace and trim
  // ---------------------------------------------------------------------------

  /** What `String.prototype.trim` removes and what `\s` matches in a JavaScript regular
      expression: the ECMAScript WhiteSpace and LineTerminator characters. */
  predicate JsSpace(c: char)
  {
    c == '\t' || c == '\n' || c == '\U{000B}' || c == '\U{000C}' || c == '\r' || c == ' '
    || c == '\U{00A0}' || c == '\U{1680}' || ('\U{2000}' <= c <= '\U{200A}')
    || c == '\U{2028}' || c == '\U{2029}' || c == '\U{202F}' || c == '\U{205F}'
    || c == '\U{3000}' || c == '\U{FEFF}'
  }

  predicate AllJsSpace(s: string)
  {
    forall k :: 0 <= k < |s| ==> JsSpace(s[k])
  }

  function JsLeading(s: string): (n: nat)
    ensures n <= |s|
    ensures forall k :: 0 <= k < n ==> JsSpace(s[k])
    ensures n < |s| ==> !JsSpace(s[n])
  {
    if s != [] && JsSpace(s[0]) then 1 + JsLeading(s[1..]) else 0
  }

  function JsTrailStart(s: string): (n: nat)
    ensures n <= |s|
    ensures forall k :: n <= k < |s| ==> JsSpace(s[k])
    ensures n > 0 ==> !JsSpace(s[n - 1])
  {
    if s != [] && JsSpace(s[|s| - 1]) then JsTrailStart(s[..|s| - 1]) else |s|
  }

  /** `String.prototype.trim`: the longest infix that neither starts nor ends with
      whitespace, and whose removed ends are all whitespace. */
  function JsTrim(s: string): (r: string)
    ensures |r| <= |s|
    ensures r != [] ==> !JsSpace(r[0]) && !JsSpace(r[|r| - 1])
    ensures r == [] <==> forall k :: 0 <= k < |s| ==> JsSpace(s[k])
    ensures var i := JsLeading(s);
      i + |r| <= |s| && r == s[i..i + |r|] && AllJsSpace(s[..i]) && AllJsSpace(s[i + |r|..])
  {
    var i := JsLeading(s);
    var t := s[i..];
    var n := JsTrailStart(t);
    var head, tail := s[..i], s[i + n..];
    assert AllJsSpace(head) by {
      forall k | 0 <= k < |head| ensures JsSpace(head[k]) { assert head[k] == s[k]; }
    }
    assert AllJsSpace(tail) by {
      forall k | 0 <= k < |tail| ensures JsSpace(tail[k]) { assert tail[k] == t[n + k]; }
    }
    assert t[..n] == s[i..i + n];
    t[..n]
  }

  // ---------------------------------------------------------------------------
  // Escaping
  // ---------------------------------------------------------------------------

  /** `s.replace(/c/g, rep)` for a one-character pattern. */
  function ReplaceAll(s: string, c: char, rep: string): string
  {
    if s == [] then [] else (if s[0] == c then rep else [s[0]]) + ReplaceAll(s[1..], c, rep)
  }

  lemma {:induction false} ReplaceAllAppend(a: string, b: string, c: char, rep: string)
    ensures ReplaceAll(a + b, c, rep) == ReplaceAll(a, c, rep) + ReplaceAll(b, c, rep)
    decreases |a|
  {
    if a == [] {
      assert a + b == b;
    } else {
      assert (a + b)[1..] == a[1..] + b;
      ReplaceAllAppend(a[1..], b, c, rep);
      AppendAssoc(if a[0] == c then rep else [a[0]], ReplaceAll(a[1..], c, rep), ReplaceAll(b, c, rep));
    }
  }

  lemma {:induction false} ReplaceAllAbsent(s: string, c: char, rep: string)
    requires c !in s
    ensures ReplaceAll(s, c, rep) == s
    decreases |s|
  {
    if s != [] {
      ReplaceAllAbsent(s[1..], c, rep);
      assert [s[0]] + s[1..] == s;
    }
  }

  /** The three replacements of the script, `&` first (script.js:224-227). */
  function Escape(text: string): string
  {
    ReplaceAll(ReplaceAll(ReplaceAll(text, '&', "&amp;"), '<', "&lt;"), '>', "&gt;")
  }

  /** The entity one character stands for in the escaped text. */
  function EntityOf(c: char): string
  {
    if c == '&' then "&amp;" else if c == '<' then "&lt;" else if c == '>' then "&gt;" else [c]
  }

  /** Escaping character by character. */
  function EscapeEach(text: string): (r: string)
    ensures forall k :: 0 <= k < |r| ==> r[k] != '<' && r[k] != '>'
  {
    if text == [] then [] else EntityOf(text[0]) + EscapeEach(text[1..])
  }

  lemma ReplaceOne(c: char, d: char, rep: string)
    ensures ReplaceAll([c], d, rep) == if c == d then rep else [c]
  {
    assert [c][1..] == [];
  }

  lemma EscapeChar(c: char)
    ensures ReplaceAll(ReplaceAll(ReplaceAll([c], '&', "&amp;"), '<', "&lt;"), '>', "&gt;") == EntityOf(c)
  {
    ReplaceOne(c, '&', "&amp;");
    if c == '&' {
      ReplaceAllAbsent("&amp;", '<', "&lt;");
      ReplaceAllAbsent("&amp;", '>', "&gt;");
    } else {
      ReplaceOne(c, '<', "&lt;");
      if c == '<' {
        ReplaceAllAbsent("&lt;", '>', "&gt;");
      } else {
        ReplaceOne(c, '>', "&gt;");
      }
    }
  }

  /** Because `&` is replaced first, the inserted entities are never escaped again: the
      three passes turn each `&`, `<` and `>` into exactly one entity and keep every
      other character. */
  lemma {:induction false} EscapeIsEach(text: string)
    ensures Escape(text) == EscapeEach(text)
    decreases |text|
  {
    if text != [] {
      var c, rest := text[0], text[1..];
      assert text == [c] + rest;
      ReplaceAllAppend([c], rest, '&', "&amp;");
      var a1, b1 := ReplaceAll([c], '&', "&amp;"), ReplaceAll(rest, '&', "&amp;");
      ReplaceAllAppend(a1, b1, '<', "&lt;");
      var a2, b2 := ReplaceAll(a1, '<', "&lt;"), ReplaceAll(b1, '<', "&lt;");
      ReplaceAllAppend(a2, b2, '>', "&gt;");
      EscapeChar(c);
      EscapeIsEach(rest);
    }
  }

  // ---------------------------------------------------------------------------
  // Line classification
  // ---------------------------------------------------------------------------

  /** The end of the run of digits from `i`. */
  function DigitRunEnd(s: string, i: nat): (j: nat)
    requires i <= |s|
    ensures i <= j <= |s|
    ensures forall k :: i <= k < j ==> IsDigit(s[k])
    ensures j < |s| ==> !IsDigit(s[j])
    decreases |s| - i
  {
    if i < |s| && IsDigit(s[i]) then DigitRunEnd(s, i + 1) else i
  }

  /** `/^\d+\.\s/`, decided by scanning: digits, then a full stop, then whitespace. */
  predicate IsOrderedItem(line: string)
  {
    var d := DigitRunEnd(line, 0);
    d >= 1 && d + 1 < |line| && line[d] == '.' && JsSpace(line[d + 1])
  }

  /** The regular expression itself: some non-empty digit prefix followed by `.` and a
      whitespace character. */
  ghost predicate OrderedMatch(line: string, d: nat)
  {
    1 <= d && d + 1 < |line| && (forall k :: 0 <= k < d ==> IsDigit(line[k])) && line[d] == '.' && JsSpace(line[d + 1])
  }

  /** The scan decides the regular expression, and the match is unique, so removing it
      (`line.replace(/^\d+\.\s/, '')`) leaves what follows the scanned prefix. */
  lemma OrderedItemIsRegex(line: string)
    ensures IsOrderedItem(line) <==> exists d :: OrderedMatch(line, d)
    ensures forall d :: OrderedMatch(line, d) ==> d == DigitRunEnd(line, 0)
  {
    var e := DigitRunEnd(line, 0);
    forall d | OrderedMatch(line, d) ensures d == e {
    }
    if IsOrderedItem(line) {
      assert OrderedMatch(line, e);
    }
  }

  /** `/^[-*]\s/`. */
  predicate IsBulletItem(line: string)
  {
    |line| >= 2 && (line[0] == '-' || line[0] == '*') && JsSpace(line[1])
  }

  /** What one trimmed line is. */
  datatype LineKind = Ordered(content: string) | Bullet(content: string) | Blank | Text(line: string)

  function ChatClassify(line: string): LineKind
  {
    if IsOrderedItem(line) then Ordered(line[DigitRunEnd(line, 0) + 2..])
    else if IsBulletItem(line) then Bullet(line[2..])
    else if line == "" then Blank
    else Text(line)
  }

  // ---------------------------------------------------------------------------
  // The list and paragraph state machine
  // ---------------------------------------------------------------------------

  /** One string pushed to `result`. */
  datatype Piece = OpenOl | CloseOl | OpenUl | CloseUl | Item(text: string) | Para(lines: seq<string>)

  function PieceHtml(p: Piece): string
  {
    match p
    case OpenOl => "<ol>"
    case CloseOl => "</ol>"
    case OpenUl => "<ul>"
    case CloseUl => "</ul>"
    case Item(t) => "<li>" + t + "</li>"
    case Para(ls) => "<p>" + Join(ls, " ") + "</p>"
  }

  /** The strings of the pieces, in order. */
  function Html(pieces: seq<Piece>): (r: seq<string>)
    ensures |r| == |pieces|
    ensures forall i :: 0 <= i < |pieces| ==> r[i] == PieceHtml(pieces[i])
  {
    if pieces == [] then [] else Html(pieces[..|pieces| - 1]) + [PieceHtml(pieces[|pieces| - 1])]
  }

  lemma HtmlSnoc(pieces: seq<Piece>, p: Piece)
    ensures Html(pieces + [p]) == Html(pieces) + [PieceHtml(p)]
  {
    assert (pieces + [p])[..|pieces|] == pieces;
  }

  /** The loop variables of formatChatMessage: the pieces pushed so far, the two list
      flags and the pending paragraph lines. */
  datatype FmtState = FmtState(out: seq<Piece>, inOl: bool, inUl: bool, para: seq<string>)

  const FmtInit := FmtState([], false, false, [])

  /** The pending paragraph is pushed, if there is one. */
  function FlushPara(out: seq<Piece>, para: seq<string>): seq<Piece>
  {
    if para != [] then out + [Para(para)] else out
  }

  /** Open lists are closed, the ordered one first. */
  function CloseLists(out: seq<Piece>, inOl: bool, inUl: bool): seq<Piece>
  {
    var o := if inOl then out + [CloseOl] else out;
    if inUl then o + [CloseUl] else o
  }

  /** One line of the loop (script.js:249-324), given its kind. */
  function FmtStepWith(st: FmtState, kind: LineKind): FmtState
  {
    match kind
    case Ordered(content) =>
      var o := FlushPara(st.out, st.para);
      if st.inOl then FmtState(o + [Item(content)], true, st.inUl, [])
      else
        var o' := if st.inUl then o + [CloseUl] else o;
        FmtState(o' + [OpenOl] + [Item(content)], true, false, [])
    case Bullet(content) =>
      var o := FlushPara(st.out, st.para);
      if st.inUl then FmtState(o + [Item(content)], st.inOl, true, [])
      else
        var o' := if st.inOl then o + [CloseOl] else o;
        FmtState(o' + [OpenUl] + [Item(content)], false, true, [])
    case Blank =>
      FmtState(FlushPara(CloseLists(st.out, st.inOl, st.inUl), st.para), false, false, [])
    case Text(line) =>
      FmtState(CloseLists(st.out, st.inOl, st.inUl), false, false, st.para + [line])
  }

  function FmtStep(st: FmtState, raw: string): FmtState
  {
    FmtStepWith(st, ChatClassify(JsTrim(raw)))
  }

  function FmtRun(st: FmtState, lines: seq<string>): FmtState
    decreases |lines|
  {
    if lines == [] then st else FmtRun(FmtStep(st, lines[0]), lines[1..])
  }

  lemma FmtRunUnfold(st: FmtState, lines: seq<string>, i: nat)
    requires i < |lines|
    ensures FmtRun(st, lines[i..]) == FmtRun(FmtStep(st, lines[i]), lines[i + 1..])
  {
    assert lines[i..][1..] == lines[i + 1..];
  }

  /** After the loop (script.js:328-336): open lists closed, the paragraph pushed. */
  function Finish(st: FmtState): seq<Piece>
  {
    FlushPara(CloseLists(st.out, st.inOl, st.inUl), st.para)
  }

  /** The pieces of the lines of a message. */
  function FormatLines(lines: seq<string>): seq<Piece>
  {
    Finish(FmtRun(FmtInit, lines))
  }

  /** The HTML formatChatMessage returns; `inline` stands for the bold, italic, code and
      code block replacements (script.js:230-239). */
  function FormatChat(text: string, inline: string -> string): string
  {
    Join(Html(FormatLines(Split(inline(Escape(text)), "\n"))), "")
  }

  // ---------------------------------------------------------------------------
  // Well-formedness: lists never nest or overlap, and every tag is closed
  // ---------------------------------------------------------------------------

  /** Where the output is: outside any list, or inside an `<ol>` or an `<ul>`. */
  datatype Mode = Outside | InOl | InUl

  /** What a piece allows: a list opens only outside lists and closes only itself, items
      appear only inside a list, and non-empty paragraphs only outside. */
  function Next(m: Mode, p: Piece): Option<Mode>
  {
    match p
    case OpenOl => if m == Outside then Some(InOl) else None
    case CloseOl => if m == InOl then Some(Outside) else None
    case OpenUl => if m == Outside then Some(InUl) else None
    case CloseUl => if m == InUl then Some(Outside) else None
    case Item(_) => if m != Outside then Some(m) else None
    case Para(ls) => if m == Outside && ls != [] then Some(m) else None
  }

  /** Reads the pieces from the start; `None` if one of them is out of place. */
  function Scan(pieces: seq<Piece>): Option<Mode>
  {
    if pieces == [] then Some(Outside)
    else
      match Scan(pieces[..|pieces| - 1])
      case None => None
      case Some(m) => Next(m, pieces[|pieces| - 1])
  }

  lemma ScanSnoc(pieces: seq<Piece>, p: Piece)
    ensures Scan(pieces + [p]) == if Scan(pieces).None? then None else Next(Scan(pieces).value, p)
  {
    assert (pieces + [p])[..|pieces|] == pieces;
  }

  function ModeOf(st: FmtState): Mode
  {
    if st.inOl then InOl else if st.inUl then InUl else Outside
  }

  /** What holds between lines: at most one list is open, a pending paragraph means no
      list is open, and the pieces so far read well up to the open list. */
  predicate FmtInv(st: FmtState)
  {
    && !(st.inOl && st.inUl)
    && (st.para != [] ==> !st.inOl && !st.inUl)
    && Scan(st.out) == Some(ModeOf(st))
  }

  lemma FlushParaScan(out: seq<Piece>, para: seq<string>)
    requires Scan(out) == Some(Outside)
    ensures Scan(FlushPara(out, para)) == Some(Outside)
  {
    if para != [] {
      ScanSnoc(out, Para(para));
    }
  }

  lemma CloseListsScan(st: FmtState)
    requires FmtInv(st)
    ensures Scan(CloseLists(st.out, st.inOl, st.inUl)) == Some(Outside)
  {
    if st.inOl {
      ScanSnoc(st.out, CloseOl);
    } else if st.inUl {
      ScanSnoc(st.out, CloseUl);
    }
  }

  lemma OrderedKeepsInv(st: FmtState, content: string)
    requires FmtInv(st)
    ensures FmtInv(FmtStepWith(st, Ordered(content)))
  {
    var o := FlushPara(st.out, st.para);
    if st.para != [] {
      FlushParaScan(st.out, st.para);
    }
    assert Scan(o) == Some(ModeOf(st));
    if st.inOl {
      ScanSnoc(o, Item(content));
    } else {
      var o' := if st.inUl then o + [CloseUl] else o;
      if st.inUl {
        ScanSnoc(o, CloseUl);
      }
      ScanSnoc(o', OpenOl);
      ScanSnoc(o' + [OpenOl], Item(content));
    }
  }

  lemma BulletKeepsInv(st: FmtState, content: string)
    requires FmtInv(st)
    ensures FmtInv(FmtStepWith(st, Bullet(content)))
  {
    var o := FlushPara(st.out, st.para);
    if st.para != [] {
      FlushParaScan(st.out, st.para);
    }
    assert Scan(o) == Some(ModeOf(st));
    if st.inUl {
      ScanSnoc(o, Item(content));
    } else {
      var o' := if st.inOl then o + [CloseOl] else o;
      if st.inOl {
        ScanSnoc(o, CloseOl);
      }
      ScanSnoc(o', OpenUl);
      ScanSnoc(o' + [OpenUl], Item(content));
    }
  }

  /** Every line keeps the invariant. */
  lemma StepKeepsInv(st: FmtState, kind: LineKind)
    requires FmtInv(st)
    ensures FmtInv(FmtStepWith(st, kind))
  {
    match kind
    case Ordered(content) => OrderedKeepsInv(st, content);
    case Bullet(content) => BulletKeepsInv(st, content);
    case Blank =>
      CloseListsScan(st);
      FlushParaScan(CloseLists(st.out, st.inOl, st.inUl), st.para);
    case Text(_) =>
      CloseListsScan(st);
  }

  lemma {:induction false} RunKeepsInv(st: FmtState, lines: seq<string>)
    requires FmtInv(st)
    ensures FmtInv(FmtRun(st, lines))
    decreases |lines|
  {
    if lines != [] {
      StepKeepsInv(st, ChatClassify(JsTrim(lines[0])));
      RunKeepsInv(FmtStep(st, lines[0]), lines[1..]);
    }
  }

  /** Whatever the message, `inOrderedList` and `inUnorderedList` are never both set,
      and the output is well formed: no list inside another, no item outside a list,
      no paragraph inside one, and every opened list closed. */
  lemma FormatWellFormed(lines: seq<string>)
    ensures var st := FmtRun(FmtInit, lines); !(st.inOl && st.inUl)
    ensures Scan(FormatLines(lines)) == Some(Outside)
  {
    RunKeepsInv(FmtInit, lines);
    var st := FmtRun(FmtInit, lines);
    CloseListsScan(st);
    FlushParaScan(CloseLists(st.out, st.inOl, st.inUl), st.para);
  }

  // ---------------------------------------------------------------------------
  // Nothing is lost: the text of every line reaches the output, in order
  // ---------------------------------------------------------------------------

  function PieceText(p: Piece): seq<string>
  {
    match p
    case Item(t) => [t]
    case Para(ls) => ls
    case _ => []
  }

  /** The texts carried by the pieces, in order. */
  function Texts(pieces: seq<Piece>): seq<string>
  {
    if pieces == [] then [] else Texts(pieces[..|pieces| - 1]) + PieceText(pieces[|pieces| - 1])
  }

  lemma TextsSnoc(pieces: seq<Piece>, p: Piece)
    ensures Texts(pieces + [p]) == Texts(pieces) + PieceText(p)
  {
    assert (pieces + [p])[..|pieces|] == pieces;
  }

  /** The text one line contributes: an item's content without its marker, a text line
      itself, nothing for a blank line. */
  function KindText(kind: LineKind): seq<string>
  {
    match kind
    case Ordered(c) => [c]
    case Bullet(c) => [c]
    case Blank => []
    case Text(l) => [l]
  }

  function LinesText(lines: seq<string>): seq<string>
  {
    if lines == [] then [] else KindText(ChatClassify(JsTrim(lines[0]))) + LinesText(lines[1..])
  }

  lemma AssocSeq(a: seq<string>, b: seq<string>, c: seq<string>)
    ensures a + (b + c) == (a + b) + c
  {
  }

  lemma FlushParaTexts(out: seq<Piece>, para: seq<string>)
    ensures Texts(FlushPara(out, para)) == Texts(out) + para
  {
    if para != [] {
      TextsSnoc(out, Para(para));
    } else {
      assert Texts(out) + para == Texts(out);
    }
  }

  lemma CloseListsTexts(out: seq<Piece>, inOl: bool, inUl: bool)
    ensures Texts(CloseLists(out, inOl, inUl)) == Texts(out)
  {
    var o := if inOl then out + [CloseOl] else out;
    if inOl {
      TextsSnoc(out, CloseOl);
    }
    if inUl {
      TextsSnoc(o, CloseUl);
    }
  }

  lemma OpenTexts(o: seq<Piece>, close: bool, c: Piece, op: Piece, content: string)
    requires c == CloseOl || c == CloseUl
    requires op == OpenOl || op == OpenUl
    ensures Texts((if close then o + [c] else o) + [op] + [Item(content)]) == Texts(o) + [content]
  {
    var o' := if close then o + [c] else o;
    if close {
      TextsSnoc(o, c);
    }
    TextsSnoc(o', op);
    TextsSnoc(o' + [op], Item(content));
  }

  /** An ordered item adds its content after the pending text. */
  lemma OrderedTexts(st: FmtState, content: string)
    ensures var next := FmtStepWith(st, Ordered(content));
      Texts(next.out) + next.para == Texts(st.out) + st.para + [content]
  {
    var o := FlushPara(st.out, st.para);
    FlushParaTexts(st.out, st.para);
    var next := FmtStepWith(st, Ordered(content));
    if st.inOl {
      assert next.out == o + [Item(content)];
      TextsSnoc(o, Item(content));
    } else {
      assert next.out == (if st.inUl then o + [CloseUl] else o) + [OpenOl] + [Item(content)];
      OpenTexts(o, st.inUl, CloseUl, OpenOl, content);
    }
    assert next.para == [];
    assert Texts(next.out) + next.para == Texts(o) + [content];
  }

  /** A bullet item adds its content after the pending text. */
  lemma BulletTexts(st: FmtState, content: string)
    ensures var next := FmtStepWith(st, Bullet(content));
      Texts(next.out) + next.para == Texts(st.out) + st.para + [content]
  {
    var o := FlushPara(st.out, st.para);
    FlushParaTexts(st.out, st.para);
    var next := FmtStepWith(st, Bullet(content));
    if st.inUl {
      assert next.out == o + [Item(content)];
      TextsSnoc(o, Item(content));
    } else {
      assert next.out == (if st.inOl then o + [CloseOl] else o) + [OpenUl] + [Item(content)];
      OpenTexts(o, st.inOl, CloseOl, OpenUl, content);
    }
    assert next.para == [];
    assert Texts(next.out) + next.para == Texts(o) + [content];
  }

  /** One line adds its text after the pending text: the pieces' texts followed by the
      pending paragraph grow by exactly that line's text. */
  lemma StepTexts(st: FmtState, kind: LineKind)
    ensures var next := FmtStepWith(st, kind);
      Texts(next.out) + next.para == Texts(st.out) + st.para + KindText(kind)
  {
    match kind
    case Ordered(c) => OrderedTexts(st, c);
    case Bullet(c) => BulletTexts(st, c);
    case Blank =>
      CloseListsTexts(st.out, st.inOl, st.inUl);
      FlushParaTexts(CloseLists(st.out, st.inOl, st.inUl), st.para);
    case Text(l) =>
      CloseListsTexts(st.out, st.inOl, st.inUl);
      AssocSeq(Texts(st.out), st.para, [l]);
  }

  lemma {:induction false} RunTexts(st: FmtState, lines: seq<string>)
    ensures var end := FmtRun(st, lines);
      Texts(end.out) + end.para == Texts(st.out) + st.para + LinesText(lines)
    decreases |lines|
  {
    if lines == [] {
      assert Texts(st.out) + st.para + [] == Texts(st.out) + st.para;
    } else {
      var kind := ChatClassify(JsTrim(lines[0]));
      StepTexts(st, kind);
      RunTexts(FmtStep(st, lines[0]), lines[1..]);
      AssocSeq(Texts(st.out) + st.para, KindText(kind), LinesText(lines[1..]));
    }
  }

  /** The output carries the text of every line, in order: each item's content with its
      marker removed and each text line, with every blank line dropped. */
  lemma FormatKeepsText(lines: seq<string>)
    ensures Texts(FormatLines(lines)) == LinesText(lines)
  {
    RunTexts(FmtInit, lines);
    var st := FmtRun(FmtInit, lines);
    assert Texts(st.out) + st.para == LinesText(lines) by {
      assert Texts(FmtInit.out) + FmtInit.para == [];
    }
    CloseListsTexts(st.out, st.inOl, st.inUl);
    FlushParaTexts(CloseLists(st.out, st.inOl, st.inUl), st.para);
  }

  // ---------------------------------------------------------------------------
  // Paragraph grouping: a paragraph is a maximal run of text lines
  // ---------------------------------------------------------------------------

  /** The line groups of the paragraphs among the pieces, in order. */
  function Paras(pieces: seq<Piece>): seq<seq<string>>
  {
    if pieces == [] then []
    else Paras(pieces[..|pieces| - 1]) + (if pieces[|pieces| - 1].Para? then [pieces[|pieces| - 1].lines] else [])
  }

  lemma ParasSnoc(pieces: seq<Piece>, p: Piece)
    ensures Paras(pieces + [p]) == Paras(pieces) + (if p.Para? then [p.lines] else [])
  {
    assert (pieces + [p])[..|pieces|] == pieces;
  }

  /** A run of text lines as a group: none when it is empty. */
  function Closed(run: seq<string>): seq<seq<string>>
  {
    if run == [] then [] else [run]
  }

  /** The maximal runs of consecutive text lines, `run` being the one under way: a blank
      line or a list item ends it. */
  function TextRuns(run: seq<string>, lines: seq<string>): seq<seq<string>>
    decreases |lines|, 0
  {
    if lines == [] then Closed(run) else KindRuns(run, ChatClassify(JsTrim(lines[0])), lines[1..])
  }

  /** The runs once a line of the given kind has been read. */
  function KindRuns(run: seq<string>, kind: LineKind, rest: seq<string>): seq<seq<string>>
    decreases |rest|, 1
  {
    match kind
    case Text(l) => TextRuns(run + [l], rest)
    case _ => Closed(run) + TextRuns([], rest)
  }

  /** Every run is non-empty, so two paragraphs are always separated by another line. */
  lemma {:induction false} TextRunsNonEmpty(run: seq<string>, lines: seq<string>)
    ensures forall i :: 0 <= i < |TextRuns(run, lines)| ==> TextRuns(run, lines)[i] != []
    decreases |lines|
  {
    if lines != [] {
      match ChatClassify(JsTrim(lines[0]))
      case Text(l) =>
        assert TextRuns(run, lines) == TextRuns(run + [l], lines[1..]);
        TextRunsNonEmpty(run + [l], lines[1..]);
      case _ =>
        assert TextRuns(run, lines) == Closed(run) + TextRuns([], lines[1..]);
        TextRunsNonEmpty([], lines[1..]);
        var r := TextRuns([], lines[1..]);
        assert forall i :: 0 <= i < |Closed(run) + r| ==> (Closed(run) + r)[i] != [] by {
          forall i | 0 <= i < |Closed(run) + r|
            ensures (Closed(run) + r)[i] != []
          {
            if i >= |Closed(run)| {
              assert (Closed(run) + r)[i] == r[i - |Closed(run)|];
            }
          }
        }
    }
  }

  lemma FlushParaParas(out: seq<Piece>, para: seq<string>)
    ensures Paras(FlushPara(out, para)) == Paras(out) + Closed(para)
  {
    if para != [] {
      ParasSnoc(out, Para(para));
    }
  }

  lemma CloseListsParas(out: seq<Piece>, inOl: bool, inUl: bool)
    ensures Paras(CloseLists(out, inOl, inUl)) == Paras(out)
  {
    var o := if inOl then out + [CloseOl] else out;
    if inOl {
      ParasSnoc(out, CloseOl);
    }
    if inUl {
      ParasSnoc(o, CloseUl);
    }
  }

  lemma OpenParas(o: seq<Piece>, close: bool, c: Piece, op: Piece, content: string)
    requires c == CloseOl || c == CloseUl
    requires op == OpenOl || op == OpenUl
    ensures Paras((if close then o + [c] else o) + [op] + [Item(content)]) == Paras(o)
  {
    var o' := if close then o + [c] else o;
    if close {
      ParasSnoc(o, c);
    }
    ParasSnoc(o', op);
    ParasSnoc(o' + [op], Item(content));
  }

  /** A list item pushes the pending paragraph and no other. */
  lemma ItemParas(st: FmtState, kind: LineKind)
    requires kind.Ordered? || kind.Bullet?
    ensures var next := FmtStepWith(st, kind);
      Paras(next.out) == Paras(st.out) + Closed(st.para) && next.para == []
  {
    var o := FlushPara(st.out, st.para);
    FlushParaParas(st.out, st.para);
    match kind
    case Ordered(c) =>
      if st.inOl {
        ParasSnoc(o, Item(c));
      } else {
        OpenParas(o, st.inUl, CloseUl, OpenOl, c);
      }
    case Bullet(c) =>
      if st.inUl {
        ParasSnoc(o, Item(c));
      } else {
        OpenParas(o, st.inOl, CloseOl, OpenUl, c);
      }
  }

  /** One step of the loop: what it pushes and keeps pending gives the same runs. */
  lemma StepParas(st: FmtState, kind: LineKind, rest: seq<string>)
    ensures var next := FmtStepWith(st, kind);
      Paras(next.out) + TextRuns(next.para, rest) == Paras(st.out) + KindRuns(st.para, kind, rest)
  {
    var next := FmtStepWith(st, kind);
    match kind
    case Text(l) =>
      CloseListsParas(st.out, st.inOl, st.inUl);
    case Blank =>
      CloseListsParas(st.out, st.inOl, st.inUl);
      FlushParaParas(CloseLists(st.out, st.inOl, st.inUl), st.para);
      AssocRuns(Paras(st.out), Closed(st.para), TextRuns([], rest));
    case Ordered(c) =>
      ItemParas(st, kind);
      AssocRuns(Paras(st.out), Closed(st.para), TextRuns([], rest));
    case Bullet(c) =>
      ItemParas(st, kind);
      AssocRuns(Paras(st.out), Closed(st.para), TextRuns([], rest));
  }

  lemma AssocRuns(a: seq<seq<string>>, b: seq<seq<string>>, c: seq<seq<string>>)
    ensures a + b + c == a + (b + c)
  { }

  /** The loop from any state: the paragraphs already pushed, then the runs that the
      pending lines and the remaining lines make. */
  lemma {:induction false} RunParas(st: FmtState, lines: seq<string>)
    ensures Paras(Finish(FmtRun(st, lines))) == Paras(st.out) + TextRuns(st.para, lines)
    decreases |lines|
  {
    if lines == [] {
      CloseListsParas(st.out, st.inOl, st.inUl);
      FlushParaParas(CloseLists(st.out, st.inOl, st.inUl), st.para);
    } else {
      var kind := ChatClassify(JsTrim(lines[0]));
      RunParas(FmtStepWith(st, kind), lines[1..]);
      StepParas(st, kind, lines[1..]);
    }
  }

  /** The paragraphs of a message are exactly the maximal runs of its text lines, in
      order: a blank line or a list item ends the paragraph under way. */
  lemma ParagraphsAreTextRuns(lines: seq<string>)
    ensures Paras(FormatLines(lines)) == TextRuns([], lines)
  {
    RunParas(FmtInit, lines);
    assert Paras(FmtInit.out) == [] && FmtInit.para == [];
  }

  /** A blank line between two text lines makes two paragraphs. */
  lemma BlankSplitsParagraph(x: string, y: string)
    requires ChatClassify(JsTrim(x)) == Text(x) && ChatClassify(JsTrim(y)) == Text(y)
    ensures Paras(FormatLines([x, "", y])) == [[x], [y]]
  {
    ParagraphsAreTextRuns([x, "", y]);
    EmptyIsBlank();
    BlankSplitsRun(x, "", y);
  }

  /** Two text lines with no blank line between them make a single paragraph. */
  lemma LinesJoinParagraph(x: string, y: string)
    requires ChatClassify(JsTrim(x)) == Text(x) && ChatClassify(JsTrim(y)) == Text(y)
    ensures Paras(FormatLines([x, y])) == [[x, y]]
  {
    ParagraphsAreTextRuns([x, y]);
    TwoLinesOneRun(x, y);
  }

  lemma EmptyIsBlank()
    ensures ChatClassify(JsTrim("")) == Blank
  {
    assert JsTrim("") == "";
  }

  lemma TwoLinesOneRun(x: string, y: string)
    requires ChatClassify(JsTrim(x)) == Text(x) && ChatClassify(JsTrim(y)) == Text(y)
    ensures TextRuns([], [x, y]) == [[x, y]]
  {
    assert [x, y][1..] == [y] && [y][1..] == [];
    assert [] + [x] == [x] && [x] + [y] == [x, y];
    calc {
      TextRuns([], [x, y]);
      KindRuns([], Text(x), [y]);
      TextRuns([x], [y]);
      KindRuns([x], Text(y), []);
      TextRuns([x, y], []);
    }
  }

  lemma BlankSplitsRun(x: string, blank: string, y: string)
    requires ChatClassify(JsTrim(x)) == Text(x) && ChatClassify(JsTrim(y)) == Text(y)
    requires ChatClassify(JsTrim(blank)) == Blank
    ensures TextRuns([], [x, blank, y]) == [[x], [y]]
  {
    var lines := [x, blank, y];
    assert lines[1..] == [blank, y] && lines[1..][1..] == [y] && [y][1..] == [];
    assert [] + [x] == [x] && [] + [y] == [y];
    calc {
      TextRuns([], lines);
      KindRuns([], Text(x), [blank, y]);
      TextRuns([x], [blank, y]);
      KindRuns([x], Blank, [y]);
      Closed([x]) + TextRuns([], [y]);
      { assert TextRuns([], [y]) == KindRuns([], Text(y), []); }
      [[x]] + TextRuns([y], []);
    }
  }

  /** A list item first pushes the pending paragraph, then, if its own kind of list is
      not open, closes the other kind and opens its own, and then pushes the item. */
  lemma ItemOrder(st: FmtState, kind: LineKind)
    requires FmtInv(st) && (kind.Ordered? || kind.Bullet?)
    ensures var next := FmtStepWith(st, kind);
      var sameOpen := if kind.Ordered? then st.inOl else st.inUl;
      var otherOpen := if kind.Ordered? then st.inUl else st.inOl;
      next.out == FlushPara(st.out, st.para)
        + (if sameOpen then [] else (if otherOpen then [if kind.Ordered? then CloseUl else CloseOl] else [])
                                    + [if kind.Ordered? then OpenOl else OpenUl])
        + [Item(kind.content)]
      && next.para == [] && next.inOl == kind.Ordered? && next.inUl == kind.Bullet?
  {
    var o := FlushPara(st.out, st.para);
    if kind.Ordered? {
      if !st.inOl {
        if st.inUl {
          assert o + [CloseUl] + [OpenOl] + [Item(kind.content)] == o + ([CloseUl] + [OpenOl]) + [Item(kind.content)];
        } else {
          assert o + [OpenOl] + [Item(kind.content)] == o + ([] + [OpenOl]) + [Item(kind.content)];
        }
      } else {
        assert o + [] == o;
      }
    } else {
      if !st.inUl {
        if st.inOl {
          assert o + [CloseOl] + [OpenUl] + [Item(kind.content)] == o + ([CloseOl] + [OpenUl]) + [Item(kind.content)];
        } else {
          assert o + [OpenUl] + [Item(kind.content)] == o + ([] + [OpenUl]) + [Item(kind.content)];
        }
      } else {
        assert o + [] == o;
      }
    }
  }

  // ---------------------------------------------------------------------------
  // The script's loop
  // ---------------------------------------------------------------------------

  /** formatChatMessage (script.js:222-339). */
  method FormatChatMessage(text: string, inline: string -> string) returns (html: string)
    ensures html == FormatChat(text, inline)
  {
    var formatted := ReplaceAll(text, '&', "&amp;");
    formatted := ReplaceAll(formatted, '<', "&lt;");
    formatted := ReplaceAll(formatted, '>', "&gt;");
    formatted := inline(formatted);
    var lines := Split(formatted, "\n");
    var result: seq<string> := [];
    var inOrderedList := false;
    var inUnorderedList := false;
    var currentParagraph: seq<string> := [];
    ghost var out: seq<Piece> := [];
    var i := 0;
    while i < |lines|
      invariant 0 <= i <= |lines|
      invariant result == Html(out)
      invariant FmtRun(FmtState(out, inOrderedList, inUnorderedList, currentParagraph), lines[i..])
        == FmtRun(FmtInit, lines)
    {
      FmtRunUnfold(FmtState(out, inOrderedList, inUnorderedList, currentParagraph), lines, i);
      result, inOrderedList, inUnorderedList, currentParagraph, out :=
        FormatLine(result, inOrderedList, inUnorderedList, currentParagraph, out, lines[i]);
      i := i + 1;
    }
    result, out := CloseRemaining(result, inOrderedList, inUnorderedList, currentParagraph, out);
    html := Join(result, "");
  }

  /** The end of formatChatMessage (script.js:328-336). */
  method CloseRemaining(result0: seq<string>, inOl: bool, inUl: bool, para: seq<string>, ghost out0: seq<Piece>)
    returns (result: seq<string>, ghost out: seq<Piece>)
    requires result0 == Html(out0)
    ensures out == Finish(FmtState(out0, inOl, inUl, para)) && result == Html(out)
  {
    result, out := result0, out0;
    if inOl {
      HtmlSnoc(out, CloseOl);
      result, out := result + ["</ol>"], out + [CloseOl];
    }
    if inUl {
      HtmlSnoc(out, CloseUl);
      result, out := result + ["</ul>"], out + [CloseUl];
    }
    if para != [] {
      HtmlSnoc(out, Para(para));
      result, out := result + ["<p>" + Join(para, " ") + "</p>"], out + [Para(para)];
    }
  }

  /** One iteration of the loop (script.js:249-324). */
  method FormatLine(result0: seq<string>, inOl0: bool, inUl0: bool, para0: seq<string>, ghost out0: seq<Piece>, raw: string)
    returns (result: seq<string>, inOl: bool, inUl: bool, para: seq<string>, ghost out: seq<Piece>)
    requires result0 == Html(out0)
    ensures result == Html(out)
    ensures FmtState(out, inOl, inUl, para) == FmtStep(FmtState(out0, inOl0, inUl0, para0), raw)
  {
    var line := JsTrim(raw);
    if IsOrderedItem(line) {
      var d := DigitRunEnd(line, 0);
      assert ChatClassify(line) == Ordered(line[d + 2..]);
      result, inOl, inUl, para, out := ListLine(result0, inOl0, inUl0, para0, out0, true, line[d + 2..]);
    } else if IsBulletItem(line) {
      assert ChatClassify(line) == Bullet(line[2..]);
      result, inOl, inUl, para, out := ListLine(result0, inOl0, inUl0, para0, out0, false, line[2..]);
    } else if line == "" {
      assert ChatClassify(line) == Blank;
      result, inOl, inUl, para, out := BlankLine(result0, inOl0, inUl0, para0, out0);
    } else {
      assert ChatClassify(line) == Text(line);
      result, out := CloseOpenLists(result0, inOl0, inUl0, out0);
      inOl, inUl := false, false;
      para := para0 + [line];
    }
  }

  /** An empty line (script.js:296-309). */
  method BlankLine(result0: seq<string>, inOl0: bool, inUl0: bool, para0: seq<string>, ghost out0: seq<Piece>)
    returns (result: seq<string>, inOl: bool, inUl: bool, para: seq<string>, ghost out: seq<Piece>)
    requires result0 == Html(out0)
    ensures result == Html(out)
    ensures FmtState(out, inOl, inUl, para) == FmtStepWith(FmtState(out0, inOl0, inUl0, para0), Blank)
  {
    result, out := CloseOpenLists(result0, inOl0, inUl0, out0);
    inOl, inUl := false, false;
    para := [];
    if para0 != [] {
      HtmlSnoc(out, Para(para0));
      result, out := result + ["<p>" + Join(para0, " ") + "</p>"], out + [Para(para0)];
    }
  }

  /** Closes the open lists of a blank or text line (script.js:297-304, 313-320). */
  method CloseOpenLists(result0: seq<string>, inOl: bool, inUl: bool, ghost out0: seq<Piece>)
    returns (result: seq<string>, ghost out: seq<Piece>)
    requires result0 == Html(out0)
    ensures out == CloseLists(out0, inOl, inUl) && result == Html(out)
  {
    result, out := result0, out0;
    if inOl {
      HtmlSnoc(out, CloseOl);
      result, out := result + ["</ol>"], out + [CloseOl];
    }
    if inUl {
      HtmlSnoc(out, CloseUl);
      result, out := result + ["</ul>"], out + [CloseUl];
    }
  }

  /** An ordered (`ordered`) or unordered list item (script.js:252-294). */
  method ListLine(result0: seq<string>, inOl0: bool, inUl0: bool, para0: seq<string>, ghost out0: seq<Piece>,
                  ordered: bool, content: string)
    returns (result: seq<string>, inOl: bool, inUl: bool, para: seq<string>, ghost out: seq<Piece>)
    requires result0 == Html(out0)
    ensures result == Html(out)
    ensures FmtState(out, inOl, inUl, para)
      == FmtStepWith(FmtState(out0, inOl0, inUl0, para0), if ordered then Ordered(content) else Bullet(content))
  {
    result, out := result0, out0;
    inOl, inUl := inOl0, inUl0;
    if para0 != [] {
      HtmlSnoc(out, Para(para0));
      result, out := result + ["<p>" + Join(para0, " ") + "</p>"], out + [Para(para0)];
    }
    para := [];
    if ordered {
      if !inOl {
        if inUl {
          HtmlSnoc(out, CloseUl);
          result, out := result + ["</ul>"], out + [CloseUl];
          inUl := false;
        }
        HtmlSnoc(out, OpenOl);
        result, out := result + ["<ol>"], out + [OpenOl];
        inOl := true;
      }
    } else {
      if !inUl {
        if inOl {
          HtmlSnoc(out, CloseOl);
          result, out := result + ["</ol>"], out + [CloseOl];
          inOl := false;
        }
        HtmlSnoc(out, OpenUl);
        result, out := result + ["<ul>"], out + [OpenUl];
        inUl := true;
      }
    }
    HtmlSnoc(out, Item(content));
    result, out := result + ["<li>" + content + "</li>"], out + [Item(content)];
  }
}

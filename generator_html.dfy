/** The page generator of `internal/generator/html.go`: the navigation menu and the
    `formatContent` template function, which turns a section's content into paragraphs. */
module GeneratorHtml {
  import opened Wrappers
  import opened GoStrings
  import Pdf

  /** One navigation menu entry. */
  datatype NavItem = NavItem(id: string, heading: string, level: int)

  /** What the template is executed on. */
  datatype PageData = PageData(title: string, sections: seq<Pdf.Section>, navigationItems: seq<NavItem>)

  /** The menu entry of a section. */
  function NavOf(s: Pdf.Section): NavItem
  {
    NavItem(s.id, s.heading, s.level)
  }

  /** The navigation loop of Generate (html.go:49-56): one entry per section, by index. */
  method NavigationItems(sections: seq<Pdf.Section>) returns (items: seq<NavItem>)
    ensures |items| == |sections|
    ensures forall i :: 0 <= i < |sections| ==>
      items[i].id == sections[i].id && items[i].heading == sections[i].heading && items[i].level == sections[i].level
  {
    var navItems := new NavItem[|sections|];
    for i := 0 to |sections|
      invariant forall k :: 0 <= k < i ==> navItems[k] == NavOf(sections[k])
    {
      var section := sections[i];
      navItems[i] := NavItem(section.id, section.heading, section.level);
    }
    items := navItems[..];
  }

  // ---------------------------------------------------------------------------
  // template.HTMLEscapeString
  // ---------------------------------------------------------------------------

  /** The replacement `template.HTMLEscapeString` makes for one byte. NUL becomes the
      Unicode replacement character U+FFFD, which is one `char` here. */
  function EscapeChar(c: char): string
  {
    if c == '"' then "&#34;"
    else if c == '\'' then "&#39;"
    else if c == '&' then "&amp;"
    else if c == '<' then "&lt;"
    else if c == '>' then "&gt;"
    else if c == '\0' then "\U{FFFD}"
    else [c]
  }

  /** The characters that never reach the page unescaped. */
  predicate IsSpecial(c: char)
  {
    c == '"' || c == '\'' || c == '&' || c == '<' || c == '>' || c == '\0'
  }

  /** `template.HTMLEscapeString`. */
  function HtmlEscape(s: string): (r: string)
    ensures forall k :: 0 <= k < |r| ==> r[k] != '<' && r[k] != '>' && r[k] != '"' && r[k] != '\'' && r[k] != '\0'
    ensures |r| >= |s|
  {
    if s == [] then [] else EscapeChar(s[0]) + HtmlEscape(s[1..])
  }

  /** Reads escaped text back: the five entities `HtmlEscape` writes become their
      characters again; everything else is kept. */
  function Unescape(s: string): string
    decreases |s|
  {
    if s == [] then []
    else if |s| >= 5 && s[0] == '&' && s[1] == '#' && s[2] == '3' && s[3] == '4' && s[4] == ';' then
      "\"" + Unescape(s[5..])
    else if |s| >= 5 && s[0] == '&' && s[1] == '#' && s[2] == '3' && s[3] == '9' && s[4] == ';' then
      "'" + Unescape(s[5..])
    else if |s| >= 5 && s[0] == '&' && s[1] == 'a' && s[2] == 'm' && s[3] == 'p' && s[4] == ';' then
      "&" + Unescape(s[5..])
    else if |s| >= 4 && s[0] == '&' && s[1] == 'l' && s[2] == 't' && s[3] == ';' then
      "<" + Unescape(s[4..])
    else if |s| >= 4 && s[0] == '&' && s[1] == 'g' && s[2] == 't' && s[3] == ';' then
      ">" + Unescape(s[4..])
    else [s[0]] + Unescape(s[1..])
  }

  lemma UnescapeStep(c: char, rest: string)
    requires c != '\0'
    ensures Unescape(EscapeChar(c) + rest) == [c] + Unescape(rest)
  {
    if IsSpecial(c) {
      UnescapeEntity(c, rest);
    } else {
      var t := [c] + rest;
      assert t[0] == c && t[1..] == rest;
    }
  }

  lemma UnescapeEntity(c: char, rest: string)
    requires IsSpecial(c) && c != '\0'
    ensures Unescape(EscapeChar(c) + rest) == [c] + Unescape(rest)
  {
    var e := EscapeChar(c);
    var t := e + rest;
    assert t[|e|..] == rest;
    assert forall k :: 0 <= k < |e| ==> t[k] == e[k];
  }

  /** Escaping loses nothing on text without NUL: unescaping gives it back. */
  lemma {:induction false} UnescapeEscape(s: string)
    requires '\0' !in s
    ensures Unescape(HtmlEscape(s)) == s
    decreases |s|
  {
    if s != [] {
      UnescapeEscape(s[1..]);
      UnescapeStep(s[0], HtmlEscape(s[1..]));
      assert [s[0]] + s[1..] == s;
    }
  }

  // ---------------------------------------------------------------------------
  // formatContent
  // ---------------------------------------------------------------------------

  /** The paragraph texts `formatContent` makes of the pieces of `Split(content, ". ")`:
      every piece is trimmed, blank pieces are dropped, and a piece that was followed by
      the separator gets its full stop back unless it already ends with one. */
  function Paragraphs(pieces: seq<string>): (texts: seq<string>)
    ensures |texts| <= |pieces|
  {
    if pieces == [] then [] else ParagraphOf(pieces[0], |pieces| > 1) + Paragraphs(pieces[1..])
  }

  /** The paragraph one piece makes, if any; `followed` says whether the separator came after it. */
  function ParagraphOf(piece: string, followed: bool): (texts: seq<string>)
    ensures |texts| <= 1
  {
    var p := TrimSpace(piece);
    if p == "" then [] else [Sentence(p, followed)]
  }

  /** A trimmed, non-blank piece as a paragraph: its full stop is given back when the
      separator followed it, unless it already ends with one. */
  function Sentence(p: string, followed: bool): string
  {
    if followed && !HasSuffix(p, ".") then p + "." else p
  }

  lemma RenderCons(texts: seq<string>, rest: seq<string>)
    requires |texts| <= 1
    ensures Render(texts + rest) == Render(texts) + Render(rest)
  {
    if texts != [] {
      assert (texts + rest)[1..] == rest;
      assert texts[1..] == [];
    } else {
      assert texts + rest == rest;
    }
  }

  /** One piece of the loop: its paragraph, then those of the pieces after it. */
  lemma RenderStep(pieces: seq<string>, i: nat)
    requires i < |pieces|
    ensures Render(Paragraphs(pieces[i..]))
      == Render(ParagraphOf(pieces[i], i < |pieces| - 1)) + Render(Paragraphs(pieces[i + 1..]))
  {
    assert pieces[i..][1..] == pieces[i + 1..];
    RenderCons(ParagraphOf(pieces[i], i < |pieces| - 1), Paragraphs(pieces[i + 1..]));
  }

  /** The HTML of the paragraph texts, in order. */
  function Render(texts: seq<string>): string
  {
    if texts == [] then "" else "<p>" + HtmlEscape(texts[0]) + "</p>\n" + Render(texts[1..])
  }

  /** The output of `formatContent`. */
  function FormatContent(content: string): string
  {
    Render(Paragraphs(Split(content, ". ")))
  }

  /** Every paragraph text is non-blank: it starts with a non-space and ends with a
      non-space, and each one but those of the last piece ends with a full stop. */
  lemma {:induction false} ParagraphsShape(pieces: seq<string>)
    ensures forall k :: 0 <= k < |Paragraphs(pieces)| ==>
      Paragraphs(pieces)[k] != [] && !IsSpace(Paragraphs(pieces)[k][0])
      && !IsSpace(Paragraphs(pieces)[k][|Paragraphs(pieces)[k]| - 1])
    ensures |pieces| > 1 && TrimSpace(pieces[0]) != "" ==>
      HasSuffix(Paragraphs(pieces)[0], ".")
    decreases |pieces|
  {
    if pieces != [] {
      ParagraphsShape(pieces[1..]);
      var p := TrimSpace(pieces[0]);
      if p != "" && |pieces| > 1 && !HasSuffix(p, ".") {
        assert (p + ".")[0] == p[0];
        assert (p + ".")[|p + "."| - 1] == '.';
      }
    }
  }

  /** Every paragraph that comes from a piece followed by the separator ends with a full
      stop: only the last piece can end without one. */
  lemma {:induction false} ParagraphsEndWithStop(pieces: seq<string>)
    ensures forall k :: 0 <= k < |Paragraphs(pieces)| && (pieces != [] && TrimSpace(pieces[|pieces| - 1]) != "" ==> k < |Paragraphs(pieces)| - 1) ==>
      HasSuffix(Paragraphs(pieces)[k], ".")
    decreases |pieces|
  {
    if pieces != [] {
      ParagraphsEndWithStop(pieces[1..]);
      ParagraphsShape(pieces);
      if |pieces| > 1 {
        assert pieces[1..][|pieces[1..]| - 1] == pieces[|pieces| - 1];
      }
    }
  }

  /** The last piece is never given a full stop: when it is not blank, the last paragraph
      is that piece trimmed, as it was. */
  lemma ParagraphsLast(pieces: seq<string>)
    requires pieces != [] && TrimSpace(pieces[|pieces| - 1]) != ""
    ensures |Paragraphs(pieces)| >= 1
    ensures Paragraphs(pieces)[|Paragraphs(pieces)| - 1] == TrimSpace(pieces[|pieces| - 1])
  {
    ParagraphOfLast(pieces[|pieces| - 1]);
    ParagraphsEndWith(pieces, TrimSpace(pieces[|pieces| - 1]));
  }

  /** The last paragraph is the one the last piece makes on its own, when it makes one. */
  lemma {:induction false} ParagraphsEndWith(pieces: seq<string>, last: string)
    requires pieces != [] && ParagraphOf(pieces[|pieces| - 1], false) == [last]
    ensures Paragraphs(pieces) != [] && Paragraphs(pieces)[|Paragraphs(pieces)| - 1] == last
    decreases |pieces|
  {
    if |pieces| > 1 {
      var tail := pieces[1..];
      assert tail[|tail| - 1] == pieces[|pieces| - 1];
      ParagraphsEndWith(tail, last);
      ParagraphsLastStep(pieces);
    } else {
      ParagraphsCons(pieces);
      assert pieces[1..] == [];
    }
  }

  /** A piece in front leaves the last paragraph of the pieces after it the last one. */
  lemma ParagraphsLastStep(pieces: seq<string>)
    requires |pieces| > 1 && Paragraphs(pieces[1..]) != []
    ensures Paragraphs(pieces) != []
    ensures Paragraphs(pieces)[|Paragraphs(pieces)| - 1] == Paragraphs(pieces[1..])[|Paragraphs(pieces[1..])| - 1]
  {
    ParagraphsCons(pieces);
    LastOfAppend(Paragraphs(pieces), ParagraphOf(pieces[0], true), Paragraphs(pieces[1..]));
  }

  lemma LastOfAppend<T>(s: seq<T>, a: seq<T>, b: seq<T>)
    requires s == a + b && b != []
    ensures s != [] && s[|s| - 1] == b[|b| - 1]
  {
  }

  /** `Paragraphs` one piece at a time. */
  lemma ParagraphsCons(pieces: seq<string>)
    requires pieces != []
    ensures Paragraphs(pieces) == ParagraphOf(pieces[0], |pieces| > 1) + Paragraphs(pieces[1..])
  {
  }

  /** A piece that is not followed by the separator keeps its trimmed text as it is. */
  lemma ParagraphOfLast(piece: string)
    requires TrimSpace(piece) != ""
    ensures ParagraphOf(piece, false) == [TrimSpace(piece)]
  {
  }

  /** The number of pieces that are not blank once trimmed. */
  function NonBlankCount(pieces: seq<string>): nat
  {
    if pieces == [] then 0 else (if TrimSpace(pieces[0]) == "" then 0 else 1) + NonBlankCount(pieces[1..])
  }

  lemma ParagraphOfSize(piece: string, followed: bool)
    ensures |ParagraphOf(piece, followed)| == if TrimSpace(piece) == "" then 0 else 1
  {
  }

  /** There is one paragraph per non-blank piece. */
  lemma {:induction false} ParagraphsCount(pieces: seq<string>)
    ensures |Paragraphs(pieces)| == NonBlankCount(pieces)
    decreases |pieces|
  {
    if pieces != [] {
      ParagraphsCons(pieces);
      ParagraphOfSize(pieces[0], |pieces| > 1);
      ParagraphsCount(pieces[1..]);
    }
  }

  /** The paragraph of a non-blank piece `k` comes after one paragraph for each non-blank
      piece before it. It is the piece trimmed, with a full stop added exactly when the
      separator followed the piece and the trimmed piece does not already end with one;
      in particular a piece ending in "." never gets a second one. */
  lemma ParagraphAt(pieces: seq<string>, k: nat)
    requires k < |pieces| && TrimSpace(pieces[k]) != ""
    ensures var j, t := NonBlankCount(pieces[..k]), TrimSpace(pieces[k]);
      && j < |Paragraphs(pieces)|
      && (k < |pieces| - 1 && !HasSuffix(t, ".") ==> Paragraphs(pieces)[j] == t + ".")
      && (k == |pieces| - 1 || HasSuffix(t, ".") ==> Paragraphs(pieces)[j] == t)
  {
    ParagraphIndex(pieces, k, Sentence(TrimSpace(pieces[k]), k < |pieces| - 1));
  }

  /** The paragraph piece `k` makes on its own, `x`, sits after one paragraph for each
      non-blank piece before it. */
  lemma {:induction false} ParagraphIndex(pieces: seq<string>, k: nat, x: string)
    requires k < |pieces| && ParagraphOf(pieces[k], k < |pieces| - 1) == [x]
    ensures NonBlankCount(pieces[..k]) < |Paragraphs(pieces)|
    ensures Paragraphs(pieces)[NonBlankCount(pieces[..k])] == x
    decreases k
  {
    if k == 0 {
      ParagraphIndexFirst(pieces, x);
    } else {
      ParagraphIndex(pieces[1..], k - 1, x);
      ParagraphIndexStep(pieces, k, x);
    }
  }

  lemma ParagraphIndexFirst(pieces: seq<string>, x: string)
    requires pieces != [] && ParagraphOf(pieces[0], |pieces| > 1) == [x]
    ensures NonBlankCount(pieces[..0]) < |Paragraphs(pieces)| && Paragraphs(pieces)[NonBlankCount(pieces[..0])] == x
  {
    ParagraphsCons(pieces);
    assert pieces[..0] == [];
    IndexInAppend(Paragraphs(pieces), [], [x] + Paragraphs(pieces[1..]), 0);
  }

  lemma ParagraphIndexStep(pieces: seq<string>, k: nat, x: string)
    requires 0 < k < |pieces|
    requires var tail := pieces[1..]; NonBlankCount(tail[..k - 1]) < |Paragraphs(tail)| && Paragraphs(tail)[NonBlankCount(tail[..k - 1])] == x
    ensures NonBlankCount(pieces[..k]) < |Paragraphs(pieces)| && Paragraphs(pieces)[NonBlankCount(pieces[..k])] == x
  {
    var tail := pieces[1..];
    ParagraphsCons(pieces);
    NonBlankPrefix(pieces, k);
    IndexInAppend(Paragraphs(pieces), ParagraphOf(pieces[0], |pieces| > 1), Paragraphs(tail), NonBlankCount(tail[..k - 1]));
  }

  /** Counting the non-blank pieces of a prefix one piece at a time. */
  lemma NonBlankPrefix(pieces: seq<string>, k: nat)
    requires 0 < k <= |pieces|
    ensures NonBlankCount(pieces[..k]) == |ParagraphOf(pieces[0], |pieces| > 1)| + NonBlankCount(pieces[1..][..k - 1])
  {
    assert pieces[..k][1..] == pieces[1..][..k - 1];
    assert pieces[..k][0] == pieces[0];
    ParagraphOfSize(pieces[0], |pieces| > 1);
  }

  lemma IndexInAppend<T>(s: seq<T>, a: seq<T>, b: seq<T>, i: nat)
    requires s == a + b && i < |b|
    ensures |a| + i < |s| && s[|a| + i] == b[i]
  {
  }

  /** Every piece of a split string is made of characters of that string, so a blank
      string splits into blank pieces. */
  lemma {:induction false} SplitOfBlank(s: string, sep: string)
    requires |sep| > 0 && AllSpace(s)
    ensures forall k :: 0 <= k < |Split(s, sep)| ==> AllSpace(Split(s, sep)[k])
    decreases |s|
  {
    if |s| < |sep| {
    } else if s[..|sep|] == sep {
      SplitOfBlank(s[|sep|..], sep);
      var rest := Split(s[|sep|..], sep);
      assert forall k :: 1 <= k < |[""] + rest| ==> ([""] + rest)[k] == rest[k - 1];
    } else {
      SplitOfBlank(s[1..], sep);
      var rest := Split(s[1..], sep);
      assert AllSpace([s[0]] + rest[0]);
      assert forall k :: 1 <= k < |rest| ==> ([[s[0]] + rest[0]] + rest[1..])[k] == rest[k];
    }
  }

  /** Blank pieces make no paragraphs. */
  lemma {:induction false} ParagraphsOfBlank(pieces: seq<string>)
    requires forall k :: 0 <= k < |pieces| ==> AllSpace(pieces[k])
    ensures Paragraphs(pieces) == []
    decreases |pieces|
  {
    if pieces != [] {
      ParagraphsOfBlank(pieces[1..]);
    }
  }

  /** Blank content (the empty string included) becomes no HTML at all. */
  lemma FormatBlank(content: string)
    requires AllSpace(content)
    ensures FormatContent(content) == ""
  {
    SplitOfBlank(content, ". ");
    ParagraphsOfBlank(Split(content, ". "));
  }

  /** Content without a full stop is one paragraph: the trimmed content, escaped. */
  lemma FormatWithoutStop(content: string)
    requires '.' !in content && !AllSpace(content)
    ensures FormatContent(content) == "<p>" + HtmlEscape(TrimSpace(content)) + "</p>\n"
  {
    SplitWithoutSep(content, ". ");
    var t := TrimSpace(content);
    ParagraphsCons([content]);
    assert [content][1..] == [];
    ParagraphOfLast(content);
    assert Paragraphs([content]) == [t];
    RenderOne(t);
  }

  lemma RenderOne(text: string)
    ensures Render([text]) == "<p>" + HtmlEscape(text) + "</p>\n"
  {
    assert [text][1..] == [];
  }

  /** The loop of `formatContent` (html.go:72-86). */
  method FormatContentLoop(content: string) returns (formatted: string)
    ensures formatted == FormatContent(content)
  {
    var paragraphs := Split(content, ". ");
    formatted := "";
    var i := 0;
    while i < |paragraphs|
      invariant 0 <= i <= |paragraphs|
      invariant Render(Paragraphs(paragraphs)) == formatted + Render(Paragraphs(paragraphs[i..]))
    {
      var piece := FormatPiece(paragraphs[i], i < |paragraphs| - 1);
      RenderStep(paragraphs, i);
      ghost var later := Render(Paragraphs(paragraphs[i + 1..]));
      AppendAssoc(formatted, piece, later);
      formatted := formatted + piece;
      i := i + 1;
    }
  }

  /** One iteration of the loop of `formatContent` (html.go:75-84). */
  method FormatPiece(piece: string, followed: bool) returns (html: string)
    ensures html == Render(ParagraphOf(piece, followed))
  {
    html := "";
    var p := TrimSpace(piece);
    if p != "" {
      if followed && !HasSuffix(p, ".") {
        p := p + ".";
      }
      html := "<p>" + HtmlEscape(p) + "</p>\n";
      assert [p][1..] == [];
    }
  }

  /** Generate (html.go:42-108). Creating the directory, parsing the template, creating
      `index.html` and executing the template are given by the errors they report; on
      success the result is the data the page is rendered from. */
  method Generate(doc: Pdf.Document, mkdirErr: Option<string>, templateErr: Option<string>,
                  createErr: Option<string>, executeErr: Option<string>)
    returns (r: Result<PageData>)
    ensures mkdirErr.Some? ==> r == Err("failed to create output directory: " + mkdirErr.value)
    ensures mkdirErr.None? && templateErr.Some? ==> r == Err("failed to parse template: " + templateErr.value)
    ensures mkdirErr.None? && templateErr.None? && createErr.Some? ==>
      r == Err("failed to create output file: " + createErr.value)
    ensures mkdirErr.None? && templateErr.None? && createErr.None? && executeErr.Some? ==>
      r == Err("failed to execute template: " + executeErr.value)
    ensures mkdirErr.None? && templateErr.None? && createErr.None? && executeErr.None? ==>
      r.Ok? && r.value.title == doc.title && r.value.sections == doc.sections
      && |r.value.navigationItems| == |doc.sections|
      && forall i :: 0 <= i < |doc.sections| ==> r.value.navigationItems[i] == NavOf(doc.sections[i])
  {
    if mkdirErr.Some? {
      return Err("failed to create output directory: " + mkdirErr.value);
    }
    var navItems := NavigationItems(doc.sections);
    var pageData := PageData(doc.title, doc.sections, navItems);
    if templateErr.Some? {
      return Err("failed to parse template: " + templateErr.value);
    }
    if createErr.Some? {
      return Err("failed to create output file: " + createErr.value);
    }
    if executeErr.Some? {
      return Err("failed to execute template: " + executeErr.value);
    }
    return Ok(pageData);
  }
}

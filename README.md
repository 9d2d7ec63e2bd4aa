# docTrainerGO core, modelled in Dafny

docTrainerGO turns a PDF or a directory of Markdown files into a small documentation
site. It has three stages:

1. A segmenter splits the text into `Section`s. Each section has an id, a level, a heading,
   content and images.
2. Generators write `data/content.json` with the totals, one JSON file per section, a
   search index with 200-byte previews, and an HTML page. The page has a navigation list,
   and `formatContent` turns each section's content into paragraphs.
3. A server answers `/api/chat`. It builds a documentation context from `content.json`,
   cut to its first 15000 bytes plus a continuation marker, and asks a language model. The browser script renders the answer
   as escaped HTML with lists and paragraphs.

The model has one module per source file:

| module | models |
|---|---|
| `Pdf` | `internal/pdf/parser.go` |
| `Markdown` | `internal/md/parser.go`; the parser object is a `class` whose `sectionId` field the methods update |
| `Search` | `internal/search/index.go` |
| `GeneratorData` | `internal/generator/data.go` |
| `GeneratorHtml` | `internal/generator/html.go` |
| `Server` | `internal/server/server.go` |
| `ChatFormat` | `formatChatMessage` of `static/script.js` |

Three modules hold the Go library behaviour the core relies on:

- `GoStrings`: `strings.TrimSpace`, `Split`, `Join`, `HasPrefix` and `Sprintf("%d")`.
- `GoPath`: `filepath.Base` and `Ext`.
- `Wrappers`: `Option` and `Result`.

Every regular expression of the core is a scanning predicate. Four patterns also have a
reference definition, stated as "there is a split of the line such that …", and a lemma
proves the scan and the definition agree:

- the numbered heading `^(\d+\.)+\s+[A-Z]`;
- the Markdown heading `^(#{1,6})\s+(.+)$`;
- the image reference `!\[([^\]]*)\]\(([^)]+)\)`;
- the ordered list item `^\d+\.\s`.

The fixed-shape patterns are written directly as predicates: the title pattern
`^[A-Z][A-Za-z\s]{3,}$`, the fence `` ^``` ``, the front-matter line `^---$` and the bullet
`^[-*]\s`.

Every loop is a method. Each method is proved equal to a specification function. The
function is a fold of one step over the input lines. The lemmas state the properties of
that function.

File systems, the PDF library, the language model and the JSON decoder are parameters:

- an error each step may report, as an `Option<string>`;
- a function from a file name to what reading it gives;
- a function from a query to the model's answer.

Go strings are byte strings. Here they are `seq<char>` with one character per byte.

## Model

| member | source | states |
|---|---|---|
| Pdf.SectionIdInjective | internal/pdf/parser.go:172 | `section-%d` ids of different counters differ |
| Pdf.NumberedHeadingIsRegex | internal/pdf/parser.go:141 | the scan accepts exactly the lines that `^(\d+\.)+\s+[A-Z]` matches: digit groups each ending in a dot, whitespace, then a capital |
| Pdf.DigitGroupsShape | internal/pdf/parser.go:141 | a run of digits and dots is a sequence of `\d+\.` groups iff it starts with a digit, ends with a dot and has no two dots together |
| Pdf.Classify | internal/pdf/parser.go:144-161 | a line is blank exactly when it is empty; every heading level is at least 1 |
| Pdf.NumberedLevelFromGroups | internal/pdf/parser.go:155-156 | a numbered heading has level at least 2; when a space follows the groups, the level is the number of dots plus one, with no cap at 6 |
| Pdf.ClassifyAllCapsWord | internal/pdf/parser.go:140-160 | "INTRODUCTION" is a level-1 heading by the title pattern |
| Pdf.ClassifyDottedNumber | internal/pdf/parser.go:140-161 | "1.1 Overview" is content: the second digit group has no dot of its own and the line does not start with a capital |
| Pdf.ClassifyNumbered | internal/pdf/parser.go:141-156 | "1. Introduction" is a level-2 heading |
| Pdf.ClassifySentence | internal/pdf/parser.go:140-161 | "Some content here." is content: the final dot breaks the title pattern |
| Pdf.PdfRunAppend | internal/pdf/parser.go:143-195 | the line loop over `a + b` is the loop over `a`, then over `b` |
| Pdf.BlankLinesIgnored | internal/pdf/parser.go:144-147 | lines that are only whitespace leave every loop variable unchanged |
| Pdf.SegmentIgnoresBlankLines | internal/pdf/parser.go:143-200 | the sections of an input equal the sections of its non-blank lines |
| Pdf.RunCounts | internal/pdf/parser.go:163-193 | the loop keeps the ids `section-1..section-n` in order; each heading and a leading content line add one to the counter |
| Pdf.SegmentCount | internal/pdf/parser.go:132-200 | one section per heading line, plus one "Introduction" when content comes first; ids are `section-(i+1)` and levels are positive |
| Pdf.SegmentIdsUnique | internal/pdf/parser.go:163-193 | the ids of one segmentation are pairwise distinct |
| Pdf.TextRun | internal/pdf/parser.go:178-183 | over heading-free lines the open section only gathers the trimmed content lines, joined by single spaces |
| Pdf.NoHeadingInput | internal/pdf/parser.go:184-200 | input without headings gives nothing, or one `section-1` "Introduction" of level 1 holding every content line joined by spaces |
| Pdf.HeadingThenText | internal/pdf/parser.go:163-183 | a heading flushes the open section and opens the next id, with the trimmed line as heading and the following content as its body |
| Pdf.PerSection | internal/pdf/parser.go:209-212 | images per section is at least 1; it is 1 when there are fewer images than sections, and otherwise the largest `per` with `per * sections <= images` |
| Pdf.BasesPointwise | internal/pdf/parser.go:217 | each assigned image is recorded by its base name, in path order |
| Pdf.DistributeWith | internal/pdf/parser.go:215-220 | section `i` gains the base names of images `[i*per, min((i+1)*per, total))`, and nothing else changes |
| Pdf.DistributeNothing | internal/pdf/parser.go:208 | with no sections or no images the sections are returned unchanged |
| Pdf.DistributeKeepsSections | internal/pdf/parser.go:208-221 | distribution changes only image lists, and each section gains at most `per` images |
| Pdf.DistributeOrder | internal/pdf/parser.go:214-220 | the images handed out, read in section order, are exactly the first `min(per*sections, total)` images, each once |
| Pdf.DistributedTotal | internal/pdf/parser.go:208-221 | the total number of images grows by `min(per*sections, total)` |
| Pdf.Stem | internal/pdf/parser.go:229 | the stem followed by the extension gives back the base name, so the stem is the base name with its extension cut off |
| Pdf.Spaced | internal/pdf/parser.go:230-231 | `_` and `-` become spaces and every other byte is kept, so no `_` or `-` remains |
| Pdf.ExtractTitle | internal/pdf/parser.go:227-233 | the title is the base name without its extension, with `_` and `-` turned into spaces |
| Pdf.HeadingLevel | internal/pdf/parser.go:150-161 | the imperative heading test agrees with `Classify` |
| Pdf.SegmentLine | internal/pdf/parser.go:144-194 | one loop pass is one step of the specification fold |
| Pdf.ParseTextIntoSections | internal/pdf/parser.go:132-224 | the result is the segmentation of the `\n`-split text, distributed over the png matches followed by the jpg matches |
| Pdf.FillSection | internal/pdf/parser.go:216-219 | the inner loop appends the base names of images `[start, min(start+per, total))` |
| Pdf.AssociateImages | internal/pdf/parser.go:202-221 | the nested loop computes `Distribute` |
| Pdf.ExtractText | internal/pdf/parser.go:71-90 | the text is every readable page followed by a blank line; null or unreadable pages are skipped |
| Pdf.Parse | internal/pdf/parser.go:49-96 | the mkdir and open errors carry their messages; otherwise the document is the title rule plus the segmentation of the page text |
| Markdown.MdHeadingIsRegex | internal/md/parser.go:72 | the scan accepts exactly the lines `^(#{1,6})\s+(.+)$` matches; the level is the hash run, and no match puts the capture after the one the scan picks |
| Markdown.MatchImageAtComplete | internal/md/parser.go:73 | every `![alt](path)` occurrence that starts at `i` is found by the scan, with its path |
| Markdown.MatchImageAtSound | internal/md/parser.go:73 | everything the scan finds is an `![alt](path)` occurrence |
| Markdown.NoBangNoImages | internal/md/parser.go:131 | a line without `!` has no image references |
| Markdown.KeptAll | internal/md/parser.go:132-141 | when every copy succeeds, the images kept are exactly the base names of the matched paths, in match order |
| Markdown.MdClassify | internal/md/parser.go:81-128 | front matter opens only on line 1 with `---`; headings and plain lines occur only outside front matter and code blocks |
| Markdown.MdRunAppend | internal/md/parser.go:77-149 | the scanner loop over `a + b` is the loop over `a`, then over `b` |
| Markdown.FrontMatterRun | internal/md/parser.go:86-91 | inside front matter, lines other than `---` only advance the line counter |
| Markdown.FrontMatterDiscarded | internal/md/parser.go:82-91 | a front-matter block closed by `---` is dropped whole; parsing resumes after it |
| Markdown.UnclosedFrontMatter | internal/md/parser.go:82-155 | front matter that never closes swallows the whole file: no sections and no ids |
| Markdown.CodeRun | internal/md/parser.go:101-105 | inside a code block every line is copied verbatim with a newline |
| Markdown.FencedBlock | internal/md/parser.go:94-105 | a fenced block, fences included, goes verbatim into the buffer and never starts a section |
| Markdown.TextBeforeFirstHeading | internal/md/parser.go:130-148 | before the first heading plain lines are dropped |
| Markdown.PlainLine | internal/md/parser.go:130-148 | a plain line adds the copied images of its references to the open section and appends the line and a space to the buffer |
| Markdown.BufferResetOnlyAtFlush | internal/md/parser.go:108-148 | the buffer only grows, except when a section is flushed with the trimmed buffer as content |
| Markdown.FirstHeadingKeepsBuffer | internal/md/parser.go:108-128 | the first heading keeps the buffer, so text gathered before it (a code block) lands in the first section |
| Markdown.FenceBeforeFirstHeading | internal/md/parser.go:94-128 | a fenced block before the first heading is still in the buffer, verbatim, when that heading opens the first section with the next id |
| Markdown.ClassifyHeading | internal/md/parser.go:108-119 | outside front matter and code, a heading line is classified with its hash count and trimmed text |
| Markdown.RunKeepsNumbered | internal/md/parser.go:117-126 | the loop keeps flushed and open sections numbered consecutively by the parser's counter |
| Markdown.FileSectionsNumbered | internal/md/parser.go:55-162 | a file's sections carry ids `startId+1..` in order, with levels 1..6, and the counter ends at the last id |
| Markdown.ParseOneNumbered | internal/md/parser.go:55-162 | a file parsed without error advances the counter by its section count, with consecutive ids |
| Markdown.FilesNumbered | internal/md/parser.go:43-49 | across files the counter keeps going, so all sections are consecutively numbered |
| Markdown.ConsecutiveUnique | internal/md/parser.go:117-122 | consecutively numbered sections have pairwise distinct ids |
| Markdown.WalkFiles | internal/md/parser.go:196-204 | at most as many files as walk entries |
| Markdown.WalkFilesFilter | internal/md/parser.go:200 | kept paths are exactly the non-directory `*.md` entries other than `README.md` |
| Markdown.WalkStopsAtError | internal/md/parser.go:196-208 | once the walk reports an error, later entries do not change the result |
| Markdown.MarkdownParser.constructor | internal/md/parser.go:21-28 | a new parser starts its counter at 0 |
| Markdown.MarkdownParser.ParseFile | internal/md/parser.go:55-162 | result and new counter are those of the file specification `ParseOne` |
| Markdown.MarkdownParser.ScanLine | internal/md/parser.go:78-148 | one scanner pass is one step of the specification fold |
| Markdown.MarkdownParser.ScanContent | internal/md/parser.go:107-148 | the heading and content branches are one step of the fold |
| Markdown.MarkdownParser.OpenSection | internal/md/parser.go:108-128 | a heading flushes the open section and opens one with the next id |
| Markdown.MarkdownParser.PlainText | internal/md/parser.go:130-148 | a content line is one `Plain` step of the fold |
| Markdown.MarkdownParser.AddImages | internal/md/parser.go:132-141 | the retained base names are appended in match order |
| Markdown.MarkdownParser.ParseFiles | internal/md/parser.go:31-52 | mkdir failure is reported with its message; otherwise the result is the specification over the files, titled "Documentation", and the first file error is wrapped with its name |
| Markdown.MarkdownParser.ParseDirectory | internal/md/parser.go:193-216 | walk errors are passed on, no `.md` file gives "no markdown files found in", a mkdir failure gives its error; in these cases the counter is unchanged; otherwise the result is ParseFiles on the kept paths |
| Search.Preview | internal/search/index.go:43-47 | content up to 200 bytes is kept; longer content keeps its first 200 bytes followed by "..." |
| Search.ItemOf | internal/search/index.go:49-54 | id, heading and level are copied, and the content becomes its preview |
| Search.PreviewIsPrefix | internal/search/index.go:45-47 | a preview is the content or a prefix of it plus "..." |
| Search.PreviewIdempotent | internal/search/index.go:45-47 | previewing a preview changes nothing |
| Search.BuildItems | internal/search/index.go:40-55 | one item per section, in section order |
| Search.Generate | internal/search/index.go:38-78 | the create and encode errors carry their messages; otherwise the index is the item list |
| GeneratorData.ImageTotalAppend | internal/generator/data.go:65 | the image total adds up over a concatenation |
| GeneratorData.ImageTotalOfData | internal/generator/data.go:55-66 | the stored sections have the same image total as the document |
| GeneratorData.NoImagesTotal | internal/generator/data.go:65-75 | a document without images has a total of 0 |
| GeneratorData.BuildContent | internal/generator/data.go:55-76 | each section is copied in order; totalSections is the count and totalImages the sum of image counts |
| GeneratorData.SectionFiles | internal/generator/data.go:93 | section `i` is saved to `<id>.json` |
| GeneratorData.SaveAllSucceed | internal/generator/data.go:92-97 | no error iff every save succeeds, and then every section file is written in order |
| GeneratorData.SaveFirstFailure | internal/generator/data.go:92-97 | at the first failing save, the earlier files are written and the error names that section |
| GeneratorData.SaveAll | internal/generator/data.go:92-97 | the section loop computes `SaveSections` |
| GeneratorData.Generate | internal/generator/data.go:47-101 | each directory and content.json error carries its message and writes no section; otherwise the section saves follow `SaveSections` |
| GeneratorHtml.NavigationItems | internal/generator/html.go:49-56 | one navigation item per section, in order, with its id, heading and level |
| GeneratorHtml.HtmlEscape | internal/generator/html.go:83 | the escaped text holds no `<`, `>`, `"`, `'` or NUL and is never shorter |
| GeneratorHtml.UnescapeEscape | internal/generator/html.go:83 | without NUL, escaping is undone by decoding the five entities |
| GeneratorHtml.ParagraphsShape | internal/generator/html.go:72-81 | every paragraph is non-empty and starts and ends with a non-space; a non-blank first piece followed by another piece gives a paragraph ending in "." |
| GeneratorHtml.ParagraphsCount | internal/generator/html.go:74-78 | there is one paragraph per non-blank piece of the split; blank pieces are skipped |
| GeneratorHtml.ParagraphAt | internal/generator/html.go:74-81 | the non-blank piece k gives the paragraph at index "number of non-blank pieces before k"; that paragraph is the trimmed piece with one "." added exactly when another piece follows and the trimmed piece does not already end in ".", and otherwise the trimmed piece itself |
| GeneratorHtml.ParagraphsEndWithStop | internal/generator/html.go:79-81 | every paragraph ends with "." except the one a non-blank last piece gives |
| GeneratorHtml.ParagraphsLast | internal/generator/html.go:74-81 | a non-blank last piece is the last paragraph, trimmed and with no "." added |
| GeneratorHtml.ParagraphsOfBlank | internal/generator/html.go:75-78 | blank pieces give no paragraph |
| GeneratorHtml.FormatBlank | internal/generator/html.go:70-87 | whitespace-only content formats to nothing |
| GeneratorHtml.FormatWithoutStop | internal/generator/html.go:70-87 | content without a dot becomes one escaped, trimmed `<p>` paragraph |
| GeneratorHtml.FormatContentLoop | internal/generator/html.go:72-86 | the loop computes `FormatContent`: each non-blank piece of the `". "` split, trimmed, given back its "." when another piece follows and it does not already end in ".", escaped, and written as `<p>…</p>` and a newline |
| GeneratorHtml.FormatPiece | internal/generator/html.go:75-84 | one iteration renders the piece's paragraph, or nothing for a blank piece |
| GeneratorHtml.Generate | internal/generator/html.go:42-108 | each I/O error carries its message; otherwise the page has the document's title and sections and the navigation items |
| Server.Limit | internal/server/server.go:185-187 | a context up to 15000 bytes is kept; a longer one keeps its first 15000 bytes followed by the continuation marker |
| Server.LimitIdempotent | internal/server/server.go:185-187 | cutting a cut context changes nothing |
| Server.SectionsTextAppend | internal/server/server.go:177-180 | the section text splits at every section boundary |
| Server.SectionInContext | internal/server/server.go:177-180 | each section's `## heading` block appears whole, in document order, where the text of the earlier sections ends |
| Server.ShortContextKept | internal/server/server.go:172-187 | a document whose context fits is passed on whole: header, then every section |
| Server.ContextBounded | internal/server/server.go:158-190 | a context exists iff content.json opens and decodes, and it never exceeds 15000 bytes plus the marker |
| Server.LoadDocumentationContext | internal/server/server.go:158-190 | the open and parse errors carry their messages; otherwise the result is the limited context |
| Server.BuildContext | internal/server/server.go:172-182 | the builder writes the title line, the totals line, then each section in order |
| Server.ChatOk | internal/server/server.go:97-155 | status 200 iff the request is OPTIONS, or a POST with a non-empty prompt, the chat enabled and the model answering |
| Server.ChatQuery | internal/server/server.go:133-146 | the model is asked iff every check passes, with the user's prompt and the stored context, or the fallback text when it cannot be loaded |
| Server.ChatErrors | internal/server/server.go:110-199 | every non-200 reply is the plain 405 text or a JSON error with an empty answer; a 200 JSON reply has no error |
| Server.HandleChat | internal/server/server.go:97-155 | the handler's reply and query are those of `Chat`, check by check: 200, 405, 503, 400, 400, 500, 200 |
| ChatFormat.JsTrim | static/script.js:249 | the trimmed line is an infix of the line with only whitespace removed before and after it; it starts and ends with non-whitespace, and is empty iff the line is all whitespace |
| ChatFormat.EscapeIsEach | static/script.js:224-227 | the three global replacements, `&` first, equal per-character escaping, so no entity is escaped twice |
| ChatFormat.EscapeEach | static/script.js:224-227 | escaped text holds no `<` or `>` |
| ChatFormat.OrderedItemIsRegex | static/script.js:252-270 | the scan accepts exactly the lines `^\d+\.\s` matches, and the prefix it removes is the unique match |
| ChatFormat.Html | static/script.js:255-335 | the pushed strings are, index by index, the HTML of the pieces: `<ol>`, `</ol>`, `<ul>`, `</ul>`, `<li>…</li>` and `<p>` plus lines joined by spaces plus `</p>` |
| ChatFormat.FormatWellFormed | static/script.js:243-336 | the two list flags are never both set, and the output opens and closes `<ol>` and `<ul>` properly, with items only inside a list and nothing left open |
| ChatFormat.RunKeepsInv | static/script.js:248-325 | each loop pass keeps the invariant: at most one list is open, and a pending paragraph means none is |
| ChatFormat.FormatKeepsText | static/script.js:248-336 | the item and paragraph texts of the output are the list item contents and text lines of the input, in order |
| ChatFormat.ParagraphsAreTextRuns | static/script.js:248-336 | the paragraphs of the output are exactly the maximal runs of consecutive text lines, in order: a blank line or a list item ends the run under way |
| ChatFormat.TextRunsNonEmpty | static/script.js:334-336 | no run is empty, so no empty paragraph is ever pushed |
| ChatFormat.BlankSplitsParagraph | static/script.js:296-309 | a text line, a blank line and a text line give two paragraphs of one line each |
| ChatFormat.LinesJoinParagraph | static/script.js:310-324 | two consecutive text lines give one paragraph holding both |
| ChatFormat.ItemOrder | static/script.js:252-294 | a list item first flushes the paragraph, then closes the other list, opens its own if needed, and then adds the item |
| ChatFormat.FormatChatMessage | static/script.js:222-339 | the function computes `FormatChat`: escape, inline rules, split on `\n`, the line loop, the closing of open tags, and the join |
| ChatFormat.FormatLine | static/script.js:249-324 | one pass is one step of the specification fold, with the output array rendered from the pieces |
| ChatFormat.CloseRemaining | static/script.js:328-336 | open lists are closed and the pending paragraph is pushed |
| GoStrings.TrimSpace | internal/pdf/parser.go:145 | the result is an infix of the input with only whitespace removed before and after it; it is empty iff the input is all whitespace, and otherwise starts and ends with non-whitespace |
| GoStrings.JoinSplit | internal/pdf/parser.go:134 | joining the split text with the separator gives the text back |
| GoStrings.NatToDecimalInjective | internal/pdf/parser.go:172 | different counters print differently |
| GoPath.Base | internal/pdf/parser.go:228 | the base is never empty, is "/" or contains no "/", is "." for an empty path, and is the path itself when it has no "/"; otherwise it is the whole last element of the path without its trailing slashes |
| GoPath.Ext | internal/pdf/parser.go:229 | the extension is a suffix that is empty or a dot followed by no dot and no "/"; it is empty only when the last element has no dot |

## Left out

- I/O is not modelled: directory creation, file opening and creation, JSON encoding and
  decoding, template parsing and execution, and the HTTP transport. Each appears only as
  the error it may report, or as the value it yields.
- The PDF library is not modelled. `pdf.Open`, page objects and `GetPlainText` give the
  page texts as inputs.
- `extractImagesFromPage`, `SaveImageFromData` and `decodeImage` are left out. No image
  bytes are extracted or decoded; the `*.png` and `*.jpg` glob results are inputs.
- `copyImage` (internal/md/parser.go:165-190) is an input of type `(path, file) -> bool`;
  path resolution and file copying are not modelled.
- `bufio.Scanner` is the sequence of lines it yields. A scanner error is an input, and its
  64 KiB line limit is not modelled.
- `filepath.Walk` is the sequence of entries it visits.
- Whitespace is ASCII only. `strings.TrimSpace` and RE2's `\s` are modelled on the ASCII
  whitespace bytes; Unicode spaces beyond ASCII are not trimmed. JavaScript's `trim` uses
  the full ECMAScript whitespace set, one character per code unit.
- `template.HTMLEscapeString` writes U+FFFD for NUL as a multi-byte sequence; here it is
  one character.
- ChatFormat.FormatChat: the four inline rules (bold, italic, code spans, code blocks;
  static/script.js:230-239) are an abstract `inline: string -> string`. The model proves
  nothing about their output beyond what the line loop does with it.
- The CORS headers `handleChat` sets, logging, `fmt.Printf` progress messages, and the
  `Content-Type` header are left out.
- `handleIndex`, `Server.Start`, the Ollama client (internal/chat/ollama.go), the
  configuration, the CLI and the handlers duplicated in cmd/main.go are not part of this
  model. The orchestration of internal/processor/processor.go, including its configuration
  title override, is not part of this model either.
- Pdf.Classify: "1.1 Overview" looks like a level-2 heading. The pattern
  `^(\d+\.)+\s+[A-Z]` rejects it, and the title pattern rejects a leading digit, so it is
  content (`Pdf.ClassifyDottedNumber`).
- Server.ShortContextKept: states the whole context equals header plus sections. It does
  not separately state that the title line is its prefix.

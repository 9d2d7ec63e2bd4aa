/** The chat endpoint of `internal/server/server.go`: the documentation context built from
    `data/content.json` and the ladder of checks `/api/chat` goes through before it asks
    the language model. */
module Server {
  import opened Wrappers
  import opened GoStrings
  import GeneratorData

  // ---------------------------------------------------------------------------
  // loadDocumentationContext
  // ---------------------------------------------------------------------------

  /** What reading `data/content.json` gives: the file cannot be opened, it does not
      decode, or it decodes to a document. */
  datatype Stored = OpenFailed(err: string) | DecodeFailed(err: string) | Loaded(content: GeneratorData.ContentData)

  /** The longest context kept, in bytes. */
  const ContextLimit: nat := 15000

  /** What replaces the rest of a context that is too long. */
  const Continues: string := "\n\n... (documentation continues)"

  /** The first two lines of the context: the title, then the totals. */
  function Header(content: GeneratorData.ContentData): string
  {
    "=== " + content.title + " ===\n\n"
    + "Total Sections: " + IntToDecimal(content.metadata.totalSections)
    + " | Total Images: " + IntToDecimal(content.metadata.totalImages) + "\n\n"
  }

  /** One section in the context: its heading, then its content. */
  function SectionText(s: GeneratorData.SectionData): string
  {
    "## " + s.heading + "\n" + s.content + "\n\n"
  }

  /** The sections in the context, in order. */
  function SectionsText(sections: seq<GeneratorData.SectionData>): string
  {
    if sections == [] then "" else SectionsText(sections[..|sections| - 1]) + SectionText(sections[|sections| - 1])
  }

  /** The whole context before it is cut. */
  function FullContext(content: GeneratorData.ContentData): string
  {
    Header(content) + SectionsText(content.sections)
  }

  /** The cut at 15000 bytes: a short context is kept whole; a long one keeps its first
      15000 bytes and says that the documentation continues. */
  function Limit(context: string): (r: string)
    ensures |r| <= ContextLimit + |Continues|
    ensures |context| <= ContextLimit ==> r == context
    ensures |context| > ContextLimit ==>
      |r| == ContextLimit + |Continues| && r[..ContextLimit] == context[..ContextLimit] && r[ContextLimit..] == Continues
  {
    if |context| > ContextLimit then context[..ContextLimit] + Continues else context
  }

  /** Cutting twice is cutting once: the marker lies past the first 15000 bytes. */
  lemma LimitIdempotent(context: string)
    ensures Limit(Limit(context)) == Limit(context)
  {
    if |context| > ContextLimit {
      var r := Limit(context);
      assert r[..ContextLimit] + Continues == r;
    }
  }

  /** loadDocumentationContext as a function of what is stored. */
  function DocumentationContext(stored: Stored): Result<string>
  {
    match stored
    case OpenFailed(e) => Err("failed to open content.json: " + e)
    case DecodeFailed(e) => Err("failed to parse content.json: " + e)
    case Loaded(content) => Ok(Limit(FullContext(content)))
  }

  /** The context text splits at any section boundary. */
  lemma {:induction false} SectionsTextAppend(a: seq<GeneratorData.SectionData>, b: seq<GeneratorData.SectionData>)
    ensures SectionsText(a + b) == SectionsText(a) + SectionsText(b)
    decreases |b|
  {
    if b == [] {
      assert a + b == a;
    } else {
      var b', last := b[..|b| - 1], b[|b| - 1];
      assert (a + b)[..|a + b| - 1] == a + b';
      assert (a + b)[|a + b| - 1] == last;
      assert SectionsText(a + b) == SectionsText(a + b') + SectionText(last);
      SectionsTextAppend(a, b');
      assert SectionsText(b) == SectionsText(b') + SectionText(last);
      AppendAssoc(SectionsText(a), SectionsText(b'), SectionText(last));
    }
  }

  /** Every section appears in the full context, whole and in document order: section `i`
      starts where the text of the sections before it ends. */
  lemma SectionInContext(sections: seq<GeneratorData.SectionData>, i: nat)
    requires i < |sections|
    ensures var before := |SectionsText(sections[..i])|;
      var t := SectionText(sections[i]);
      before + |t| <= |SectionsText(sections)| && SectionsText(sections)[before..before + |t|] == t
  {
    assert sections == sections[..i] + ([sections[i]] + sections[i + 1..]);
    SectionsTextAppend(sections[..i], [sections[i]] + sections[i + 1..]);
    SectionsTextAppend([sections[i]], sections[i + 1..]);
    assert SectionsText([sections[i]]) == SectionText(sections[i]) by {
      assert [sections[i]][..0] == [];
    }
  }

  /** A document whose context fits is passed on whole: the title line first, then the
      totals, then every section. */
  lemma ShortContextKept(content: GeneratorData.ContentData)
    requires |FullContext(content)| <= ContextLimit
    ensures DocumentationContext(Loaded(content)) == Ok(Header(content) + SectionsText(content.sections))
  {
  }

  /** The context is never longer than 15000 bytes plus the marker, whatever the document. */
  lemma ContextBounded(stored: Stored)
    ensures DocumentationContext(stored).Ok? ==> |DocumentationContext(stored).value| <= ContextLimit + |Continues|
    ensures DocumentationContext(stored).Ok? <==> stored.Loaded?
  {
  }

  /** loadDocumentationContext (server.go:158-190). */
  method LoadDocumentationContext(stored: Stored) returns (context: string, err: Option<string>)
    ensures DocumentationContext(stored) == (if err.Some? then Err(err.value) else Ok(context))
  {
    match stored
    case OpenFailed(e) =>
      return "", Some("failed to open content.json: " + e);
    case DecodeFailed(e) =>
      return "", Some("failed to parse content.json: " + e);
    case Loaded(content) =>
      context := BuildContext(content);
      if |context| > 15000 {
        context := context[..15000] + "\n\n... (documentation continues)";
      }
      return context, None;
  }

  /** The string builder of loadDocumentationContext (server.go:172-182). */
  method BuildContext(content: GeneratorData.ContentData) returns (context: string)
    ensures context == FullContext(content)
  {
    context := "=== " + content.title + " ===\n\n";
    context := context + "Total Sections: " + IntToDecimal(content.metadata.totalSections)
      + " | Total Images: " + IntToDecimal(content.metadata.totalImages) + "\n\n";
    ghost var header := context;
    var i := 0;
    while i < |content.sections|
      invariant 0 <= i <= |content.sections|
      invariant context == header + SectionsText(content.sections[..i])
    {
      var section := content.sections[i];
      assert content.sections[..i + 1][..i] == content.sections[..i];
      var chunk := "## " + section.heading + "\n" + section.content + "\n\n";
      AppendAssoc(header, SectionsText(content.sections[..i]), chunk);
      context := context + chunk;
      i := i + 1;
    }
    assert content.sections[..i] == content.sections;
  }

  // ---------------------------------------------------------------------------
  // handleChat
  // ---------------------------------------------------------------------------

  /** The body of a response: none, the plain text `http.Error` writes, or a JSON
      `ChatResponse` (an empty `error` is left out of the JSON). */
  datatype Body = NoBody | PlainText(text: string) | Json(answer: string, error: string)

  datatype Response = Response(status: int, body: Body)

  /** What the model is asked: the user's prompt and the documentation context. */
  datatype Query = Query(prompt: string, context: string)

  /** The context used when the documentation cannot be loaded. */
  const Fallback: string := "Documentation not available."

  /** The message of a disabled chat. */
  const Disabled: string := "AI chat is disabled. Enable it in config.yaml (ollama.enabled: true)"

  /** The request as `/api/chat` sees it: the HTTP method and, for the body, the prompt
      field it decodes to (`None` when the body is not a JSON `ChatRequest`). */
  datatype Request = Request(httpMethod: string, prompt: Option<string>)

  /** The reply of the chat endpoint and the query it sends to the model, if it sends one.
      `clientEnabled` says whether the server has an Ollama client; `ask` is the model's
      answer to a query, or its failure. */
  function Chat(req: Request, clientEnabled: bool, stored: Stored, ask: Query -> Result<string>): (Response, Option<Query>)
  {
    if req.httpMethod == "OPTIONS" then (Response(200, NoBody), None)
    else if req.httpMethod != "POST" then (Response(405, PlainText("Method not allowed\n")), None)
    else if !clientEnabled then (Response(503, Json("", Disabled)), None)
    else if req.prompt.None? then (Response(400, Json("", "Invalid request format")), None)
    else if req.prompt.value == "" then (Response(400, Json("", "Prompt is required")), None)
    else
      var context := DocumentationContext(stored);
      var q := Query(req.prompt.value, if context.Ok? then context.value else Fallback);
      match ask(q)
      case Err(_) => (Response(500, Json("", "Failed to get response from AI")), Some(q))
      case Ok(answer) => (Response(200, Json(answer, "")), Some(q))
  }

  /** The request succeeds exactly for a pre-flight request and for a POST with a prompt
      that the model answers while the chat is enabled. */
  lemma ChatOk(req: Request, clientEnabled: bool, stored: Stored, ask: Query -> Result<string>)
    ensures Chat(req, clientEnabled, stored, ask).0.status == 200 <==>
      req.httpMethod == "OPTIONS"
      || (req.httpMethod == "POST" && clientEnabled && req.prompt.Some? && req.prompt.value != ""
          && ask(Chat(req, clientEnabled, stored, ask).1.value).Ok?)
  {
  }

  /** The model is asked only past every check, with the user's own prompt and the
      context of the stored documentation (the fallback text when it cannot be loaded). */
  lemma ChatQuery(req: Request, clientEnabled: bool, stored: Stored, ask: Query -> Result<string>)
    ensures Chat(req, clientEnabled, stored, ask).1.Some? <==>
      req.httpMethod == "POST" && clientEnabled && req.prompt.Some? && req.prompt.value != ""
    ensures Chat(req, clientEnabled, stored, ask).1.Some? ==>
      Chat(req, clientEnabled, stored, ask).1.value.prompt == req.prompt.value
      && (stored.Loaded? ==> Chat(req, clientEnabled, stored, ask).1.value.context == Limit(FullContext(stored.content)))
      && (!stored.Loaded? ==> Chat(req, clientEnabled, stored, ask).1.value.context == Fallback)
  {
  }

  /** Every refusal names its reason in a status other than 200, and a failed model call
      is reported as 500 whatever the model said. */
  lemma ChatErrors(req: Request, clientEnabled: bool, stored: Stored, ask: Query -> Result<string>)
    ensures var (resp, _) := Chat(req, clientEnabled, stored, ask);
      resp.status != 200 ==> resp.body.PlainText? || (resp.body.Json? && resp.body.error != "" && resp.body.answer == "")
    ensures var (resp, _) := Chat(req, clientEnabled, stored, ask);
      resp.status == 200 && resp.body.Json? ==> resp.body.error == ""
  {
  }

  /** handleChat (server.go:97-155); the CORS headers it sets on every reply are left out. */
  method HandleChat(req: Request, clientEnabled: bool, stored: Stored, ask: Query -> Result<string>)
    returns (resp: Response, query: Option<Query>)
    ensures (resp, query) == Chat(req, clientEnabled, stored, ask)
  {
    if req.httpMethod == "OPTIONS" {
      return Response(200, NoBody), None;
    }
    if req.httpMethod != "POST" {
      return Response(405, PlainText("Method not allowed\n")), None;
    }
    if !clientEnabled {
      return Response(503, Json("", "AI chat is disabled. Enable it in config.yaml (ollama.enabled: true)")), None;
    }
    if req.prompt.None? {
      return Response(400, Json("", "Invalid request format")), None;
    }
    var prompt := req.prompt.value;
    if prompt == "" {
      return Response(400, Json("", "Prompt is required")), None;
    }
    var context, err := LoadDocumentationContext(stored);
    if err.Some? {
      context := "Documentation not available.";
    }
    query := Some(Query(prompt, context));
    var answer := ask(query.value);
    if answer.Err? {
      return Response(500, Json("", "Failed to get response from AI")), query;
    }
    resp := Response(200, Json(answer.value, ""));
  }
}

/** The search index of `internal/search/index.go`: one item per section, with the
    content cut down to a preview for the client-side fuzzy search. */
module Search {
  import opened Wrappers
  import Pdf

  /** One entry of `search-index.json`. */
  datatype SearchItem = SearchItem(id: string, heading: string, content: string, level: int)

  /** The preview length, in bytes. */
  const PreviewLimit: nat := 200

  /** The search preview of a section's content: at most 200 bytes of it, marked with
      "..." when something was cut off. */
  function Preview(content: string): (r: string)
    ensures |r| <= PreviewLimit + 3
    ensures |content| <= PreviewLimit ==> r == content
    ensures |content| > PreviewLimit ==>
      |r| == PreviewLimit + 3 && r[..PreviewLimit] == content[..PreviewLimit] && r[PreviewLimit..] == "..."
  {
    if |content| > PreviewLimit then content[..PreviewLimit] + "..." else content
  }

  /** The item for one section. */
  function ItemOf(s: Pdf.Section): (item: SearchItem)
    ensures item.id == s.id && item.heading == s.heading && item.level == s.level
    ensures item.content == Preview(s.content)
  {
    SearchItem(s.id, s.heading, Preview(s.content), s.level)
  }

  /** Every preview is a prefix of the content, possibly followed by "...": nothing is
      reordered or invented. */
  lemma PreviewIsPrefix(content: string)
    ensures var r := Preview(content);
      (r == content) || (|content| > PreviewLimit && r == content[..PreviewLimit] + "...")
  {
  }

  /** A preview is its own preview: a cut preview is 203 bytes long, so it is cut
      again at the same place and gets the same "..." back. */
  lemma PreviewIdempotent(content: string)
    ensures Preview(Preview(content)) == Preview(content)
  {
    if |content| > PreviewLimit {
      var r := Preview(content);
      assert r[..PreviewLimit] + "..." == r;
    }
  }

  /** The loop of Generate (index.go:40-55): the items in section order. */
  method BuildItems(sections: seq<Pdf.Section>) returns (items: seq<SearchItem>)
    ensures |items| == |sections|
    ensures forall i :: 0 <= i < |sections| ==> items[i] == ItemOf(sections[i])
  {
    items := [];
    var i := 0;
    while i < |sections|
      invariant 0 <= i <= |sections|
      invariant |items| == i
      invariant forall k :: 0 <= k < i ==> items[k] == ItemOf(sections[k])
    {
      var section := sections[i];
      var content := section.content;
      if |content| > 200 {
        content := content[..200] + "...";
      }
      items := items + [SearchItem(section.id, section.heading, content, section.level)];
      i := i + 1;
    }
  }

  /** Generate (index.go:38-78). Creating the file and encoding the JSON are the I/O
      steps; `createErr` and `encodeErr` are the errors they report, if any. On success
      the result is the index that was written. */
  method Generate(doc: Pdf.Document, createErr: Option<string>, encodeErr: Option<string>)
    returns (r: Result<seq<SearchItem>>)
    ensures createErr.Some? ==> r == Err("failed to create search index file: " + createErr.value)
    ensures createErr.None? && encodeErr.Some? ==> r == Err("failed to encode search index: " + encodeErr.value)
    ensures createErr.None? && encodeErr.None? ==>
      r.Ok? && |r.value| == |doc.sections|
      && forall i :: 0 <= i < |doc.sections| ==> r.value[i] == ItemOf(doc.sections[i])
  {
    var items := BuildItems(doc.sections);
    if createErr.Some? {
      return Err("failed to create search index file: " + createErr.value);
    }
    if encodeErr.Some? {
      return Err("failed to encode search index: " + encodeErr.value);
    }
    return Ok(items);
  }
}

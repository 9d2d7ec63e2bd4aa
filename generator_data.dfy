/** The structured data written by `internal/generator/data.go`: `data/content.json`
    with the whole document and its totals, and one `data/sections/<id>.json` per section. */
module GeneratorData {
  import opened Wrappers
  import Pdf

  /** One section as stored in JSON. */
  datatype SectionData = SectionData(id: string, level: int, heading: string, content: string, images: seq<string>)

  datatype DocumentMetadata = DocumentMetadata(totalSections: int, totalImages: int)

  /** The contents of `content.json`. */
  datatype ContentData = ContentData(title: string, sections: seq<SectionData>, metadata: DocumentMetadata)

  /** A section's JSON form: the same five fields. */
  function DataOf(s: Pdf.Section): SectionData
  {
    SectionData(s.id, s.level, s.heading, s.content, s.images)
  }

  /** The number of images over all stored sections. */
  function ImageTotal(sections: seq<SectionData>): nat
  {
    if sections == [] then 0 else ImageTotal(sections[..|sections| - 1]) + |sections[|sections| - 1].images|
  }

  /** Totals add up over a concatenation. */
  lemma {:induction false} ImageTotalAppend(a: seq<SectionData>, b: seq<SectionData>)
    ensures ImageTotal(a + b) == ImageTotal(a) + ImageTotal(b)
    decreases |b|
  {
    if b != [] {
      var b' := b[..|b| - 1];
      assert (a + b)[..|a + b| - 1] == a + b';
      ImageTotalAppend(a, b');
      assert (a + b)[|a + b| - 1] == b[|b| - 1];
      assert ImageTotal(b) == ImageTotal(b') + |b[|b| - 1].images|;
    } else {
      assert a + b == a;
    }
  }

  /** Storing sections keeps every section's images, so the stored total is the
      document's total. */
  lemma {:induction false} ImageTotalOfData(sections: seq<Pdf.Section>, data: seq<SectionData>)
    requires |data| == |sections|
    requires forall i :: 0 <= i < |sections| ==> data[i] == DataOf(sections[i])
    ensures ImageTotal(data) == Pdf.TotalImages(sections)
    decreases |sections|
  {
    if sections != [] {
      var n := |sections| - 1;
      ImageTotalOfData(sections[..n], data[..n]);
    }
  }

  /** A document without images has a total of zero. */
  lemma {:induction false} NoImagesTotal(sections: seq<SectionData>)
    requires forall i :: 0 <= i < |sections| ==> sections[i].images == []
    ensures ImageTotal(sections) == 0
    decreases |sections|
  {
    if sections != [] {
      NoImagesTotal(sections[..|sections| - 1]);
    }
  }

  /** The conversion loop and the totals of Generate (data.go:55-76): the sections by
      index, in order, with the section count and the sum of their image counts. */
  method BuildContent(doc: Pdf.Document) returns (content: ContentData)
    ensures content.title == doc.title
    ensures |content.sections| == |doc.sections|
    ensures forall i :: 0 <= i < |doc.sections| ==> content.sections[i] == DataOf(doc.sections[i])
    ensures content.metadata.totalSections == |doc.sections|
    ensures content.metadata.totalImages == Pdf.TotalImages(doc.sections) == ImageTotal(content.sections)
  {
    var n := |doc.sections|;
    var sections := new SectionData[n];
    var totalImages := 0;
    for i := 0 to n
      invariant forall k :: 0 <= k < i ==> sections[k] == DataOf(doc.sections[k])
      invariant totalImages == Pdf.TotalImages(doc.sections[..i])
    {
      var section := doc.sections[i];
      sections[i] := SectionData(section.id, section.level, section.heading, section.content, section.images);
      totalImages := totalImages + |section.images|;
      assert doc.sections[..i + 1][..i] == doc.sections[..i];
    }
    assert doc.sections[..n] == doc.sections;
    ImageTotalOfData(doc.sections, sections[..]);
    content := ContentData(doc.title, sections[..], DocumentMetadata(n, totalImages));
  }

  /** The file a section is saved to, inside `data/sections/`. */
  function SectionFile(id: string): string
  {
    id + ".json"
  }

  /** The file names of the given sections, in order. */
  function SectionFiles(sections: seq<SectionData>): (names: seq<string>)
    ensures |names| == |sections|
    ensures forall i :: 0 <= i < |sections| ==> names[i] == SectionFile(sections[i].id)
  {
    if sections == [] then [] else [SectionFile(sections[0].id)] + SectionFiles(sections[1..])
  }

  /** What the section loop leaves behind: the files it wrote and the error it stopped at. */
  datatype Saved = Saved(written: seq<string>, err: Option<string>)

  /** The section loop (data.go:92-97) against a file system: `save(name)` is the error
      of writing that file, if any; the first failure ends the loop. */
  function SaveSections(sections: seq<SectionData>, save: string -> Option<string>): Saved
  {
    if sections == [] then Saved([], None)
    else
      var name := SectionFile(sections[0].id);
      match save(name)
      case Some(e) => Saved([], Some("failed to save section " + sections[0].id + ": " + e))
      case None =>
        var rest := SaveSections(sections[1..], save);
        Saved([name] + rest.written, rest.err)
  }

  /** When every write succeeds the loop writes every section's file, in order, and
      reports nothing; and it reports nothing only then. */
  lemma {:induction false} SaveAllSucceed(sections: seq<SectionData>, save: string -> Option<string>)
    ensures SaveSections(sections, save).err.None? <==>
      forall i :: 0 <= i < |sections| ==> save(SectionFile(sections[i].id)).None?
    ensures SaveSections(sections, save).err.None? ==> SaveSections(sections, save).written == SectionFiles(sections)
    decreases |sections|
  {
    if sections != [] {
      SaveAllSucceed(sections[1..], save);
      if save(SectionFile(sections[0].id)).None? {
        assert forall i :: 1 <= i < |sections| ==> sections[i] == sections[1..][i - 1];
      }
    }
  }

  /** When the write of section `k` is the first to fail, the files before it are written
      and the error names section `k`'s id. */
  lemma {:induction false} SaveFirstFailure(sections: seq<SectionData>, save: string -> Option<string>, k: nat)
    requires k < |sections|
    requires forall i :: 0 <= i < k ==> save(SectionFile(sections[i].id)).None?
    requires save(SectionFile(sections[k].id)).Some?
    ensures SaveSections(sections, save) == Saved(SectionFiles(sections[..k]),
      Some("failed to save section " + sections[k].id + ": " + save(SectionFile(sections[k].id)).value))
    decreases k
  {
    if k > 0 {
      assert forall i :: 0 <= i < k - 1 ==> sections[1..][i] == sections[i + 1];
      SaveFirstFailure(sections[1..], save, k - 1);
      assert sections[1..][..k - 1] == sections[..k][1..];
    }
  }

  /** Generate (data.go:47-101). The directory creations and the write of `content.json`
      are given by the errors they report, if any; `save` gives the error of each section
      file write. `content` is the converted document, `written` the section files
      written. */
  method Generate(doc: Pdf.Document, mkdirDataErr: Option<string>, saveContentErr: Option<string>,
                  mkdirSectionsErr: Option<string>, save: string -> Option<string>)
    returns (err: Option<string>, content: ContentData, written: seq<string>)
    ensures content.title == doc.title && |content.sections| == |doc.sections|
    ensures forall i :: 0 <= i < |doc.sections| ==> content.sections[i] == DataOf(doc.sections[i])
    ensures content.metadata == DocumentMetadata(|doc.sections|, Pdf.TotalImages(doc.sections))
    ensures mkdirDataErr.Some? ==> err == Some("failed to create data directory: " + mkdirDataErr.value) && written == []
    ensures mkdirDataErr.None? && saveContentErr.Some? ==>
      err == Some("failed to save content.json: " + saveContentErr.value) && written == []
    ensures mkdirDataErr.None? && saveContentErr.None? && mkdirSectionsErr.Some? ==>
      err == Some("failed to create sections directory: " + mkdirSectionsErr.value) && written == []
    ensures mkdirDataErr.None? && saveContentErr.None? && mkdirSectionsErr.None? ==>
      Saved(written, err) == SaveSections(content.sections, save)
  {
    content := BuildContent(doc);
    written := [];
    if mkdirDataErr.Some? {
      return Some("failed to create data directory: " + mkdirDataErr.value), content, written;
    }
    if saveContentErr.Some? {
      return Some("failed to save content.json: " + saveContentErr.value), content, written;
    }
    if mkdirSectionsErr.Some? {
      return Some("failed to create sections directory: " + mkdirSectionsErr.value), content, written;
    }
    err, written := SaveAll(content.sections, save);
  }

  /** The section loop of Generate (data.go:92-97). */
  method SaveAll(sections: seq<SectionData>, save: string -> Option<string>) returns (err: Option<string>, written: seq<string>)
    ensures Saved(written, err) == SaveSections(sections, save)
  {
    written := [];
    var i := 0;
    while i < |sections|
      invariant 0 <= i <= |sections|
      invariant var rest := SaveSections(sections[i..], save);
        SaveSections(sections, save) == Saved(written + rest.written, rest.err)
    {
      var section := sections[i];
      var sectionPath := section.id + ".json";
      var e := save(sectionPath);
      assert sections[i..][1..] == sections[i + 1..];
      if e.Some? {
        return Some("failed to save section " + section.id + ": " + e.value), written;
      }
      written := written + [sectionPath];
      i := i + 1;
    }
    return None, written;
  }
}

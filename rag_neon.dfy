/** `formatDocs` of src/RAG-neon.ts: the retrieved documents' texts joined by a blank line. */
module RagNeon {
  import opened Messages

  const Separator: string := "\n\n"

  /** `parts.join(sep)`. */
  function Join(parts: seq<string>, sep: string): string
    decreases |parts|
  {
    if |parts| == 0 then ""
    else if |parts| == 1 then parts[0]
    else parts[0] + sep + Join(parts[1..], sep)
  }

  /** `docs.map((doc) => doc.pageContent)`. */
  function PageContents(docs: seq<Document>): (r: seq<string>)
    ensures |r| == |docs|
    ensures forall i :: 0 <= i < |docs| ==> r[i] == docs[i].pageContent
  {
    seq(|docs|, i requires 0 <= i < |docs| => docs[i].pageContent)
  }

  /** `formatDocs`. */
  function FormatDocs(docs: seq<Document>): string
  {
    Join(PageContents(docs), Separator)
  }

  /** Total length of the documents' texts. */
  function ContentLength(docs: seq<Document>): nat
    decreases |docs|
  {
    if docs == [] then 0 else |docs[0].pageContent| + ContentLength(docs[1..])
  }

  /** No documents give the empty context; one document gives its text exactly. */
  lemma FormatFewDocs(d: Document)
    ensures FormatDocs([]) == ""
    ensures FormatDocs([d]) == d.pageContent
  {
    assert PageContents([d]) == [d.pageContent];
  }

  /** Appending a document appends a blank line and its text: the texts appear in input order. */
  lemma {:induction false} FormatDocsSnoc(docs: seq<Document>, d: Document)
    requires |docs| > 0
    ensures FormatDocs(docs + [d]) == FormatDocs(docs) + Separator + d.pageContent
    decreases |docs|
  {
    var parts := PageContents(docs + [d]);
    if |docs| == 1 {
      assert parts == [docs[0].pageContent, d.pageContent];
      assert parts[1..] == [d.pageContent];
      assert Join(parts[1..], Separator) == d.pageContent;
      assert Join(parts, Separator) == docs[0].pageContent + Separator + d.pageContent;
      assert PageContents(docs) == [docs[0].pageContent];
      assert Join(PageContents(docs), Separator) == docs[0].pageContent;
    } else {
      var tail := docs[1..];
      FormatDocsSnoc(tail, d);
      assert (docs + [d])[1..] == tail + [d];
      assert parts[1..] == PageContents(tail + [d]);
      assert PageContents(docs)[1..] == PageContents(tail);
    }
  }

  /** For n >= 1 documents the context is as long as their texts plus 2 * (n - 1). */
  lemma {:induction false} FormatDocsLength(docs: seq<Document>)
    requires |docs| > 0
    ensures |FormatDocs(docs)| == ContentLength(docs) + 2 * (|docs| - 1)
    decreases |docs|
  {
    if |docs| > 1 {
      FormatDocsLength(docs[1..]);
      assert PageContents(docs)[1..] == PageContents(docs[1..]);
    } else {
      assert docs[1..] == [];
    }
  }

  /** Metadata is ignored: documents with the same texts format alike. */
  lemma FormatDocsIgnoresMetadata(a: seq<Document>, b: seq<Document>)
    requires |a| == |b|
    requires forall i :: 0 <= i < |a| ==> a[i].pageContent == b[i].pageContent
    ensures FormatDocs(a) == FormatDocs(b)
  {
    assert PageContents(a) == PageContents(b);
  }
}

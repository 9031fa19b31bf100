/**
 * The `source_documents` part of a chat reply: each document the retrieval chain used is
 * reduced to its page number (0 when the metadata has none) and an excerpt made of its
 * first 200 characters followed by `...`.
 */
module Sources {
  import opened Options
  import opened Text

  /** A retrieved chunk: its metadata (only integer entries such as `page` are modelled)
      and its full text. */
  datatype SourceDocument = SourceDocument(metadata: map<string, int>, pageContent: string)

  /** One entry of the reply's `source_documents` list. */
  datatype SourceEntry = SourceEntry(page: int, content: string)

  const ExcerptLength: nat := 200
  const Ellipsis := "..."

  /** `metadata.get("page", 0)`. */
  function PageOf(doc: SourceDocument): (p: int)
    ensures "page" in doc.metadata ==> p == doc.metadata["page"]
    ensures "page" !in doc.metadata ==> p == 0
  {
    if "page" in doc.metadata then doc.metadata["page"] else 0
  }

  /** `page_content[:200] + "..."`: at most 203 characters, always ending in `...`, and
      everything before the `...` is a prefix of the text of length `min(200, len)`. */
  function Excerpt(text: string): (e: string)
    ensures |e| == Min(ExcerptLength, |text|) + |Ellipsis| && |e| <= 203
    ensures EndsWith(e, Ellipsis)
    ensures IsPrefix(e[..|e| - |Ellipsis|], text)
  {
    Take(text, ExcerptLength) + Ellipsis
  }

  function Entry(doc: SourceDocument): SourceEntry
  {
    SourceEntry(PageOf(doc), Excerpt(doc.pageContent))
  }

  /** The list comprehension over the documents: one entry per document, in the same order. */
  function Project(docs: seq<SourceDocument>): (r: seq<SourceEntry>)
    ensures |r| == |docs|
    ensures forall i :: 0 <= i < |docs| ==> r[i] == Entry(docs[i])
  {
    if docs == [] then [] else [Entry(docs[0])] + Project(docs[1..])
  }

  /** `response.get("source_documents", [])` projected: an absent list gives no entries. */
  function ProjectResponse(sources: Option<seq<SourceDocument>>): (r: seq<SourceEntry>)
    ensures sources.None? ==> r == []
    ensures sources.Some? ==> r == Project(sources.value)
  {
    match sources
    case None => []
    case Some(docs) => Project(docs)
  }

  /** The projection keeps the order of the documents: projecting a concatenation is
      concatenating the projections. */
  lemma {:induction false} ProjectAppend(a: seq<SourceDocument>, b: seq<SourceDocument>)
    ensures Project(a + b) == Project(a) + Project(b)
  {
    if a != [] {
      assert (a + b)[1..] == a[1..] + b;
      ProjectAppend(a[1..], b);
    }
  }

  /** The reply's `source_documents`: empty when the chain gave none, otherwise one entry per
      document, where every entry is the first `min(200, len)` characters of its document's
      text followed by `...`, so it ends with `...`, has at most 203 characters, starts with
      the beginning of its document's text, and carries its document's page (or 0). */
  lemma ReplyEntries(sources: Option<seq<SourceDocument>>, i: int)
    ensures sources.None? ==> ProjectResponse(sources) == []
    ensures sources.Some? ==> |ProjectResponse(sources)| == |sources.value|
    ensures sources.Some? && 0 <= i < |sources.value| ==>
            var e := ProjectResponse(sources)[i];
            var doc := sources.value[i];
            e.content == doc.pageContent[..Min(ExcerptLength, |doc.pageContent|)] + Ellipsis &&
            EndsWith(e.content, Ellipsis) && |e.content| <= 203 &&
            IsPrefix(e.content[..|e.content| - 3], doc.pageContent) &&
            e.page == (if "page" in doc.metadata then doc.metadata["page"] else 0)
  {
  }
}

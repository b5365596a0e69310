/**
 * `format_docs` of `backend/app/prompt/rag_prompt.py`: the page contents of
 * the retrieved documents, in order, separated by one blank line. The RAG
 * chain of `backend/app/chains/rag_cot_chain.py` defines the same lambda
 * locally; both use this function.
 */
module RagPrompt {
  import opened Text
  import opened Schema

  /** The separator between two passages. */
  const PassageSeparator: string := "\n\n"

  /** The `page_content` of every document, in order. */
  function Contents(docs: seq<Document>): (r: seq<string>)
    ensures |r| == |docs|
    ensures forall i :: 0 <= i < |docs| ==> r[i] == docs[i].pageContent
  {
    seq(|docs|, i requires 0 <= i < |docs| => docs[i].pageContent)
  }

  /** `"\n\n".join(doc.page_content for doc in docs)`. */
  function FormatDocs(docs: seq<Document>): (r: string)
    ensures |docs| == 0 ==> r == ""
    ensures |docs| == 1 ==> r == docs[0].pageContent
    ensures |docs| > 0 ==> IsPrefix(docs[0].pageContent, r)
  {
    var contents := Contents(docs);
    if |docs| > 0 then JoinStartsWith(contents, PassageSeparator); Join(contents, PassageSeparator)
    else Join(contents, PassageSeparator)
  }

  /** One more document adds one separator and its content at the end. */
  lemma FormatDocsSnoc(docs: seq<Document>, d: Document)
    requires |docs| > 0
    ensures FormatDocs(docs + [d]) == FormatDocs(docs) + PassageSeparator + d.pageContent
  {
    assert Contents(docs + [d]) == Contents(docs) + [d.pageContent];
    JoinSnoc(Contents(docs), PassageSeparator, d.pageContent);
  }

  /** Two runs of documents format as the two texts with one separator between. */
  lemma FormatDocsAppend(xs: seq<Document>, ys: seq<Document>)
    requires |xs| > 0 && |ys| > 0
    ensures FormatDocs(xs + ys) == FormatDocs(xs) + PassageSeparator + FormatDocs(ys)
  {
    assert Contents(xs + ys) == Contents(xs) + Contents(ys);
    JoinAppend(Contents(xs), Contents(ys), PassageSeparator);
  }

  /** n documents give their contents plus exactly n - 1 separators. */
  lemma FormatDocsLength(docs: seq<Document>)
    requires |docs| > 0
    ensures |FormatDocs(docs)| == SumLengths(Contents(docs)) + (|docs| - 1) * |PassageSeparator|
  {
    JoinLength(Contents(docs), PassageSeparator);
  }

  /** Every document's content occurs verbatim in the formatted text. */
  lemma FormatDocsContains(docs: seq<Document>, k: nat)
    requires k < |docs|
    ensures IsInfix(docs[k].pageContent, FormatDocs(docs))
  {
    JoinContains(Contents(docs), PassageSeparator, k);
  }
}

// The retrieval side of the review assistant: how retrieved documents are
// joined into the prompt's context, and how a cleaned review frame is cut
// into texts and metadata records before it is written to the vector
// store (llm.py).

module Llm {
  import opened Wrappers
  import opened Errors
  import opened Sequences
  import opened Text
  import opened Frames
  import opened Config

  /** A retrieved document; only its text matters here. */
  datatype Document = Document(pageContent: string)

  function Contents(docs: seq<Document>): seq<string> {
    MapSeq(docs, (d: Document) => d.pageContent)
  }

  /** `_format_docs` (llm.py:13-14): the documents' texts, in order, separated by a blank line. */
  function FormatDocs(docs: seq<Document>): (r: string)
    ensures docs == [] ==> r == ""
    ensures |docs| == 1 ==> r == docs[0].pageContent
  {
    Join("\n\n", Contents(docs))
  }

  /** One more document adds a blank line and its text at the end. */
  lemma FormatDocsAppend(docs: seq<Document>, d: Document)
    requires docs != []
    ensures FormatDocs(docs + [d]) == FormatDocs(docs) + "\n\n" + d.pageContent
  {
    assert Contents(docs + [d]) == Contents(docs) + [d.pageContent];
    JoinAppend("\n\n", Contents(docs), d.pageContent);
  }

  /** Single-line texts can be read back from the context: splitting at blank lines gives them again, in order. */
  lemma FormatDocsRoundTrip(docs: seq<Document>)
    requires docs != []
    requires forall i :: 0 <= i < |docs| ==> '\n' !in docs[i].pageContent
    ensures SplitBlankLines(FormatDocs(docs)) == Contents(docs)
  {
    SplitJoinRoundTrip(Contents(docs));
  }

  /** The number of documents handed to the store in one call (llm.py:58, 60). */
  const MAX_DOCUMENTS := 1000

  /** What the store receives: one text and one metadata record per review, and the metadata's column order. */
  datatype Batch = Batch(texts: seq<Value>, metadatas: seq<Row>, metadataColumns: seq<string>)

  function Min(a: int, b: int): int {
    if a < b then a else b
  }

  /**
   * llm.py:52-60: every column but content is metadata, in frame order;
   * each row gives its content as a text and its other cells as a record;
   * both lists stop after MAX_DOCUMENTS rows. A frame without content
   * makes `list.remove` raise ValueError.
   */
  function BatchOf(f: Frame): (r: Result<Batch, Error>)
    requires WellFormed(f)
    ensures r.Failure? <==> CONTENT !in f.columns
    ensures r.Failure? ==> r.error == ValueError
    ensures r.Success? ==>
      && Subsequence(r.value.metadataColumns, f.columns)
      && |r.value.metadataColumns| == |f.columns| - 1
      && (forall c :: c in r.value.metadataColumns <==> c in f.columns && c != CONTENT)
      && |r.value.texts| == |r.value.metadatas| == Min(|f.rows|, MAX_DOCUMENTS)
      && forall i :: 0 <= i < |r.value.texts| ==>
           && CONTENT in f.rows[i] && r.value.texts[i] == f.rows[i][CONTENT]
           && r.value.metadatas[i].Keys == (set c | c in r.value.metadataColumns)
           && forall c :: c in r.value.metadataColumns ==> c in f.rows[i] && r.value.metadatas[i][c] == f.rows[i][c]
  {
    if CONTENT !in f.columns then Failure(ValueError)
    else
      var metadataColumns := Remove(f.columns, CONTENT);
      var n := Min(|f.rows|, MAX_DOCUMENTS);
      var texts := Column(f, CONTENT)[..n];
      var records := MapSeq(f.rows, (row: Row) => map c | c in metadataColumns && c in row :: row[c]);
      assert forall i :: 0 <= i < |f.rows| ==> f.rows[i] in f.rows;
      Success(Batch(texts, records[..n], metadataColumns))
  }

  /** `df[name].apply(str)`: every cell of the column replaced by its text form. */
  function Stringified(f: Frame, name: string, str: Value -> string): (r: Frame)
    requires WellFormed(f) && name in f.columns
    ensures WellFormed(r) && r.columns == f.columns && |r.rows| == |f.rows|
    ensures forall k :: 0 <= k < |f.rows| ==>
      name in f.rows[k] && r.rows[k].Keys == f.rows[k].Keys && r.rows[k][name] == Str(str(f.rows[k][name])) &&
      forall c :: c in f.rows[k] && c != name ==> r.rows[k][c] == f.rows[k][c]
  {
    SetColumn(f, name, MapSeq(Column(f, name), (v: Value) => Str(str(v))))
  }

  /** The caller's frame, updated in place. */
  class DataFrame {
    var columns: seq<string>
    var rows: seq<Row>

    function Snapshot(): Frame
      reads this
    {
      Frame(columns, rows)
    }

    predicate Valid()
      reads this
    {
      WellFormed(Snapshot())
    }

    constructor(f: Frame)
      requires WellFormed(f)
      ensures Valid() && Snapshot() == f
    {
      columns := f.columns;
      rows := f.rows;
    }
  }

  /**
   * The data-shaping part of `create_embeddings` (llm.py:47-60). It first
   * overwrites created_date and then contains_source_word with their text
   * forms on the caller's frame, so a frame that lacks the second column
   * keeps the first change; then it builds the batch the store receives.
   */
  method CreateEmbeddings(df: DataFrame, str: Value -> string) returns (r: Result<Batch, Error>)
    requires df.Valid()
    modifies df
    ensures df.Valid()
    ensures CREATED_DATE !in old(df.columns) ==>
      r == Failure(KeyError([CREATED_DATE])) && df.Snapshot() == old(df.Snapshot())
    ensures CREATED_DATE in old(df.columns) && CONTAINS_SOURCE_WORD !in old(df.columns) ==>
      r == Failure(KeyError([CONTAINS_SOURCE_WORD])) && df.Snapshot() == Stringified(old(df.Snapshot()), CREATED_DATE, str)
    ensures CREATED_DATE in old(df.columns) && CONTAINS_SOURCE_WORD in old(df.columns) ==>
      && df.Snapshot() == Stringified(Stringified(old(df.Snapshot()), CREATED_DATE, str), CONTAINS_SOURCE_WORD, str)
      && r == BatchOf(df.Snapshot())
  {
    if CREATED_DATE !in df.columns {
      return Failure(KeyError([CREATED_DATE]));
    }
    var f := Stringified(df.Snapshot(), CREATED_DATE, str);
    df.rows := f.rows;
    if CONTAINS_SOURCE_WORD !in df.columns {
      return Failure(KeyError([CONTAINS_SOURCE_WORD]));
    }
    f := Stringified(df.Snapshot(), CONTAINS_SOURCE_WORD, str);
    df.rows := f.rows;
    r := BatchOf(df.Snapshot());
  }
}

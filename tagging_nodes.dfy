/** `DocumentTaggingNode`: a pipeline node that writes one fixed metadata entry
    into every document passing through it, in place. */
module TaggingNodes {
  import opened Wrappers
  import opened PyValue
  import opened Documents

  /** The documents a batch call receives: one list of documents, or a list of
      lists (the source tells them apart by the type of the first element). */
  datatype Batch = Flat(docs: seq<Document>) | Nested(lists: seq<seq<Document>>)

  /** Every document a batch holds. */
  ghost function BatchDocs(b: Batch): set<Document>
  {
    match b
    case Flat(docs) => set d | d in docs
    case Nested(lists) => set l, d | l in lists && d in l :: d
  }

  /** `if documents:` on a batch: the outer list is not empty. */
  predicate NonEmpty(b: Batch)
  {
    match b
    case Flat(docs) => docs != []
    case Nested(lists) => lists != []
  }

  /** What `run` hands on, next to the edge "output_1": its own inputs. */
  datatype RunOutput = RunOutput(
    query: Option<string>,
    filePaths: Option<seq<string>>,
    labels: Option<Value>,
    documents: Option<seq<Document>>,
    meta: Option<seq<Entry>>)

  /** What `run_batch` hands on, next to the edge "output_1": its own inputs. */
  datatype RunBatchOutput = RunBatchOutput(
    queries: Option<Value>,
    filePaths: Option<seq<string>>,
    labels: Option<Value>,
    documents: Option<Batch>,
    meta: Option<Value>,
    params: Option<seq<Entry>>,
    debug: Option<bool>)

  const OutputEdge: string := "output_1"

  class DocumentTaggingNode {
    const name: string
    const value: string

    constructor (name: string, value: string)
      ensures this.name == name && this.value == value
    {
      this.name := name;
      this.value := value;
    }

    /** The meta of a document once tagged. */
    function Tagged(meta: seq<Entry>): seq<Entry>
    {
      Set(meta, name, Str(value))
    }

    /** `for doc in docs: doc.meta[name] = value` -- a document listed twice is
        tagged twice, which is the same as once. */
    method TagAll(docs: seq<Document>)
      modifies set d | d in docs
      ensures forall d :: d in docs ==> d.meta == Tagged(old(d.meta)) && d.content == old(d.content)
    {
      var i := 0;
      while i < |docs|
        invariant 0 <= i <= |docs|
        invariant forall d :: d in docs[..i] ==> d.meta == Tagged(old(d.meta)) && d.content == old(d.content)
        invariant forall d :: d in docs[i..] && d !in docs[..i] ==> d.meta == old(d.meta) && d.content == old(d.content)
      {
        var doc := docs[i];
        SetIdempotent(old(doc.meta), name, Str(value));
        doc.meta := Set(doc.meta, name, Str(value));
        assert docs[..i + 1] == docs[..i] + [doc];
        assert forall d :: d in docs[i + 1..] ==> d in docs[i..];
        i := i + 1;
      }
      assert docs[..i] == docs;
    }

    /** `run(...)`: every document gets `meta[name] = value`; nothing else changes;
        the inputs are handed on unchanged with the edge "output_1". */
    method Run(query: Option<string>, filePaths: Option<seq<string>>, labels: Option<Value>,
               documents: Option<seq<Document>>, meta: Option<seq<Entry>>)
      returns (output: RunOutput, edge: string)
      modifies if documents.Some? then set d | d in documents.value else {}
      ensures documents.Some? ==> forall d :: d in documents.value ==>
        d.meta == Tagged(old(d.meta)) && d.content == old(d.content)
      ensures output == RunOutput(query, filePaths, labels, documents, meta) && edge == OutputEdge
    {
      if documents.Some? && documents.value != [] {
        TagAll(documents.value);
      }
      output := RunOutput(query, filePaths, labels, documents, meta);
      edge := OutputEdge;
    }

    /** `run_batch(...)`: every document of a flat or nested batch gets
        `meta[name] = value`; the inputs are handed on with the edge "output_1". */
    method RunBatch(queries: Option<Value>, filePaths: Option<seq<string>>, labels: Option<Value>,
                    documents: Option<Batch>, meta: Option<Value>, params: Option<seq<Entry>>,
                    debug: Option<bool>)
      returns (output: RunBatchOutput, edge: string)
      modifies if documents.Some? then BatchDocs(documents.value) else {}
      ensures documents.Some? ==> forall d :: d in BatchDocs(documents.value) ==>
        d.meta == Tagged(old(d.meta)) && d.content == old(d.content)
      ensures output == RunBatchOutput(queries, filePaths, labels, documents, meta, params, debug)
      ensures edge == OutputEdge
    {
      if documents.Some? && NonEmpty(documents.value) {
        match documents.value {
          case Flat(docs) =>
            TagAll(docs);
          case Nested(lists) =>
            TagNested(lists);
        }
      }
      output := RunBatchOutput(queries, filePaths, labels, documents, meta, params, debug);
      edge := OutputEdge;
    }

    /** `for doc_list in documents: for doc in doc_list: doc.meta[name] = value` */
    method TagNested(lists: seq<seq<Document>>)
      modifies BatchDocs(Nested(lists))
      ensures forall d :: d in BatchDocs(Nested(lists)) ==> d.meta == Tagged(old(d.meta)) && d.content == old(d.content)
    {
      var i := 0;
      while i < |lists|
        invariant 0 <= i <= |lists|
        invariant forall d :: d in BatchDocs(Nested(lists[..i])) ==>
          d.meta == Tagged(old(d.meta)) && d.content == old(d.content)
        invariant forall d :: d in BatchDocs(Nested(lists)) && d !in BatchDocs(Nested(lists[..i])) ==>
          d.meta == old(d.meta) && d.content == old(d.content)
      {
        var docList := lists[i];
        forall d | d in docList {
          SetIdempotent(old(d.meta), name, Str(value));
        }
        TagAll(docList);
        assert lists[..i + 1] == lists[..i] + [docList];
        i := i + 1;
      }
      assert lists[..i] == lists;
    }
  }

  /** Tagging is idempotent, and it changes exactly the one key of the meta: it
      then holds `value`, and every other key keeps what it had. */
  lemma TaggingChangesOneKey(meta: seq<Entry>, name: string, value: string, other: string)
    ensures Set(Set(meta, name, Str(value)), name, Str(value)) == Set(meta, name, Str(value))
    ensures Get(Set(meta, name, Str(value)), name) == Some(Str(value))
    ensures other != name ==> Get(Set(meta, name, Str(value)), other) == Get(meta, other)
  {
    SetIdempotent(meta, name, Str(value));
    SetThenGet(meta, name, Str(value));
    if other != name {
      SetKeepsOthers(meta, name, Str(value), other);
    }
  }
}

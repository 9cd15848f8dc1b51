/**
 * Ingestion and search (retriever.py): splitting loaded documents, the persistent
 * vector store they are added to, and the retriever that batches uploads into it.
 * The text splitter, the document loader and the store's similarity ranking are
 * external and appear as opaque functions.
 */
module Retriever {
  import opened Documents

  /** The retriever's search breadth, its `k` field (never overridden). */
  const K: nat := 5

  /** The marker in the name of the temporary copy of an upload. */
  const TempMarker: string := "temp_upload_"

  /** Where an upload is written before the loader reads it: `./temp_upload_<name>`. */
  function TempPath(name: string): string {
    "./" + TempMarker + name
  }

  /** A file handed over by the upload widget: its name and its bytes. */
  datatype UploadedFile = UploadedFile(name: string, data: seq<bv8>)

  /** What `load_document` does with one file: returns its documents or raises. */
  datatype LoadOutcome = Loaded(docs: seq<Doc>) | LoadFailed(error: string)

  /** `load_document` applied to the temporary file at a path holding the given bytes. */
  type Loader = (string, seq<bv8>) -> LoadOutcome

  /** `RecursiveCharacterTextSplitter(...).split_documents`, an opaque chunker. */
  type Splitter = seq<Doc> -> seq<Doc>

  /** Chroma's `similarity_search(query, k)`, an opaque ranking over the stored chunks. */
  type StoreSearch = (string, nat) -> seq<Doc>

  /** `split_documents`: the splitter is consulted only for a non-empty list. */
  function SplitDocuments(split: Splitter, docs: seq<Doc>): (r: seq<Doc>)
    ensures docs == [] ==> r == []
    ensures docs != [] ==> r == split(docs)
  {
    if docs == [] then [] else split(docs)
  }

  /** The batches `store_documents(docs)` hands to the store: the split, when it is not empty. */
  function StoreEffect(split: Splitter, docs: seq<Doc>): (r: seq<seq<Doc>>)
    ensures |r| <= 1
    ensures r == [] <==> SplitDocuments(split, docs) == []
    ensures r != [] ==> r[0] == split(docs)
  {
    var splits := SplitDocuments(split, docs);
    if splits == [] then [] else [splits]
  }

  /** What one upload adds to the batch: its documents, or nothing when its loader raised. */
  function Contribution(load: Loader, f: UploadedFile): seq<Doc> {
    match load(TempPath(f.name), f.data)
    case Loaded(docs) => docs
    case LoadFailed(_) => []
  }

  /** The documents `add_uploaded_docs` accumulates for a batch, in upload order. */
  function LoadedDocs(load: Loader, files: seq<UploadedFile>): seq<Doc>
    decreases |files|
  {
    if files == [] then []
    else LoadedDocs(load, files[..|files| - 1]) + Contribution(load, files[|files| - 1])
  }

  /** The line printed for a file whose loader raised. */
  function ErrorMessage(name: string, error: string): string {
    "Error loading document " + name + ": " + error
  }

  /** Everything `add_uploaded_docs` prints for a batch, one line per failed file. */
  function FailureLog(load: Loader, files: seq<UploadedFile>): seq<string>
    decreases |files|
  {
    if files == [] then []
    else
      var f := files[|files| - 1];
      FailureLog(load, files[..|files| - 1]) +
      match load(TempPath(f.name), f.data)
      case Loaded(_) => []
      case LoadFailed(e) => [ErrorMessage(f.name, e)]
  }

  /** Accumulation distributes over consecutive parts of a batch. */
  lemma {:induction false} LoadedDocsAppend(load: Loader, a: seq<UploadedFile>, b: seq<UploadedFile>)
    ensures LoadedDocs(load, a + b) == LoadedDocs(load, a) + LoadedDocs(load, b)
    decreases |b|
  {
    if b == [] {
      assert a + b == a;
    } else {
      var b' := b[..|b| - 1];
      var last := Contribution(load, b[|b| - 1]);
      assert (a + b)[..|a + b| - 1] == a + b';
      assert (a + b)[|a + b| - 1] == b[|b| - 1];
      LoadedDocsAppend(load, a, b');
      assert LoadedDocs(load, a + b) == (LoadedDocs(load, a) + LoadedDocs(load, b')) + last;
      assert LoadedDocs(load, b) == LoadedDocs(load, b') + last;
    }
  }

  lemma {:induction false} FailureLogAppend(load: Loader, a: seq<UploadedFile>, b: seq<UploadedFile>)
    ensures FailureLog(load, a + b) == FailureLog(load, a) + FailureLog(load, b)
    decreases |b|
  {
    if b == [] {
      assert a + b == a;
    } else {
      var b' := b[..|b| - 1];
      assert (a + b)[..|a + b| - 1] == a + b';
      FailureLogAppend(load, a, b');
    }
  }

  /**
   * Per-file isolation: a file whose loader raises adds no documents, and the files
   * after it are still loaded as if it had not been there.
   */
  lemma FailingFileAddsNoDocuments(load: Loader, before: seq<UploadedFile>, bad: UploadedFile, after: seq<UploadedFile>)
    requires load(TempPath(bad.name), bad.data).LoadFailed?
    ensures LoadedDocs(load, before + [bad] + after) == LoadedDocs(load, before) + LoadedDocs(load, after)
  {
    var failed := [bad];
    assert failed[..0] == [];
    assert Contribution(load, bad) == [];
    assert LoadedDocs(load, failed) == [];
    LoadedDocsAppend(load, before, failed);
    assert LoadedDocs(load, before + failed) == LoadedDocs(load, before);
    LoadedDocsAppend(load, before + failed, after);
  }

  /** A file whose loader raises is reported by name, between the reports of the files around it. */
  lemma FailingFileReported(load: Loader, before: seq<UploadedFile>, bad: UploadedFile, after: seq<UploadedFile>)
    requires load(TempPath(bad.name), bad.data).LoadFailed?
    ensures FailureLog(load, before + [bad] + after) ==
            FailureLog(load, before) + [ErrorMessage(bad.name, load(TempPath(bad.name), bad.data).error)] +
            FailureLog(load, after)
  {
    var failed := [bad];
    var line := ErrorMessage(bad.name, load(TempPath(bad.name), bad.data).error);
    assert failed[..0] == [];
    assert FailureLog(load, failed) == [] + [line];
    FailureLogAppend(load, before, failed);
    FailureLogAppend(load, before + failed, after);
  }

  /** Every accumulated document was returned by the loader of some file of the batch. */
  lemma {:induction false} LoadedDocsOrigin(load: Loader, files: seq<UploadedFile>, d: Doc)
    requires d in LoadedDocs(load, files)
    ensures exists i :: 0 <= i < |files| && load(TempPath(files[i].name), files[i].data).Loaded? &&
                        d in load(TempPath(files[i].name), files[i].data).docs
    decreases |files|
  {
    var n := |files| - 1;
    if d in LoadedDocs(load, files[..n]) {
      LoadedDocsOrigin(load, files[..n], d);
      var i :| 0 <= i < n && load(TempPath(files[..n][i].name), files[..n][i].data).Loaded? &&
               d in load(TempPath(files[..n][i].name), files[..n][i].data).docs;
      assert files[..n][i] == files[i];
    } else {
      assert d in Contribution(load, files[n]);
    }
  }

  /** `_get_relevant_documents`: the store is asked for the `k` best chunks. */
  function RelevantDocuments(search: StoreSearch, query: string): seq<Doc> {
    search(query, K)
  }

  /** The store honours its breadth: it returns no more than it is asked for. */
  ghost predicate HonoursBreadth(search: StoreSearch) {
    forall q, n :: |search(q, n)| <= n
  }

  /** The persistent Chroma collection (the module-level VECTOR_STORE). */
  class VectorStore {
    /** Every batch passed to `add_documents`, in call order. */
    ghost var additions: seq<seq<Doc>>
    const search: StoreSearch

    constructor (search: StoreSearch)
      ensures additions == [] && this.search == search
    {
      this.search := search;
      additions := [];
    }

    method AddDocuments(splits: seq<Doc>)
      modifies this
      ensures additions == old(additions) + [splits]
    {
      additions := additions + [splits];
    }
  }

  /** `DocumentRetriever`: the documents it was given, over the shared store. */
  class DocumentRetriever {
    var documents: seq<Doc>
    const store: VectorStore
    const split: Splitter
    const load: Loader

    /** Construction followed by `model_post_init`: only a non-empty initial list is stored. */
    constructor (documents: seq<Doc>, store: VectorStore, split: Splitter, load: Loader)
      modifies store
      ensures this.documents == documents && this.store == store
      ensures this.split == split && this.load == load
      ensures store.additions == old(store.additions) + (if documents == [] then [] else StoreEffect(split, documents))
    {
      this.documents := documents;
      this.store := store;
      this.split := split;
      this.load := load;
      new;
      if documents != [] {
        StoreDocuments(store, split, documents);
      }
    }

    /** `store_documents`: add the split to the store unless it is empty. */
    static method StoreDocuments(store: VectorStore, split: Splitter, docs: seq<Doc>)
      modifies store
      ensures store.additions == old(store.additions) + StoreEffect(split, docs)
    {
      var splits := SplitDocuments(split, docs);
      if splits != [] {
        store.AddDocuments(splits);
      }
    }

    /**
     * `add_uploaded_docs`: load every file independently, skipping (and reporting) those
     * whose loader raises, then record and store the whole batch once if it is not empty.
     * `console` is what the method prints.
     */
    method AddUploadedDocs(files: seq<UploadedFile>) returns (ghost console: seq<string>)
      modifies this, store
      ensures documents == old(documents) + LoadedDocs(load, files)
      ensures store.additions == old(store.additions) + StoreEffect(split, LoadedDocs(load, files))
      ensures console == FailureLog(load, files)
    {
      var docs: seq<Doc> := [];
      console := [];
      for i := 0 to |files|
        invariant docs == LoadedDocs(load, files[..i])
        invariant console == FailureLog(load, files[..i])
      {
        var f := files[i];
        assert files[..i + 1][..i] == files[..i];
        match load(TempPath(f.name), f.data)
        case Loaded(loaded) =>
          if loaded != [] {
            docs := docs + loaded;
          }
        case LoadFailed(e) =>
          console := console + [ErrorMessage(f.name, e)];
      }
      assert files[..|files|] == files;
      if docs != [] {
        documents := documents + docs;
        StoreDocuments(store, split, docs);
      }
    }
  }
}

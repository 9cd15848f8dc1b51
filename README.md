# RAG assistant with citations, modelled in Dafny

This project models the glue logic of a retrieval-augmented chat assistant.

- **The answer pipeline (`rag.py`).** A user question runs through four nodes in a fixed order: `retrieve`, `generate`, `double_check`, `doc_finalizer`.
  - `retrieve` fetches the `k = 5` most similar chunks from a persistent vector store.
  - `generate` asks the chat model for an answer, showing the chunks as numbered sources (`--- Source i+1 (File: …) ---`).
  - `double_check` asks the model whether the answer cites its sources. It flags the answer when the reply contains `ISSUES FOUND`.
  - `doc_finalizer` appends the answer to the conversation: the answer itself, or one rewrite with mandatory citations when it was flagged.
- **Ingestion (`retriever.py`).** Uploaded files are loaded one by one, and a file that fails to load is reported and skipped. The batch is split into chunks and added to the store once, and only when it is not empty.
- **The chat front end (`streamlit_app.py`).** It indexes only uploads whose names it has not seen. It keeps a chat history per browser session, while every session runs its turns on the one thread of the graph's module-level checkpointer. It shows each retrieved chunk as a citation `[Source i+1] - name` with a 300-character excerpt.

Library and model calls are opaque functions:
- the chat model (`Rag.ChatModel`);
- the store's similarity search (`Retriever.StoreSearch`);
- the text splitter (`Retriever.Splitter`);
- the document loader (`Retriever.Loader`).

The rules the repository writes itself are modelled as written, apart from what "## Left out" lists. The chat model receives a `Rag.Prompt`: which of the three prompts is rendered, and the values interpolated into it. So every prompt sent, and every query made, is part of what a node returns (`Rag.Step`), and "at most one rewrite call" is a statement about that list.

Files:
- `documents.dfy`: documents, messages, `Option`/`Result`, and the `enumerate` helper `Numbered`.
- `text.dfy`: the Python string operations used: `str.join`, `str(n)`, and substring `in`.
- `retriever.dfy`:
  - `split_documents`;
  - the vector store, as a class whose ghost `additions` log records every `add_documents` batch;
  - `DocumentRetriever`, as a class with `documents` and the loop of `add_uploaded_docs`.
- `rag.dfy`:
  - the state and its merge (messages concatenated, other fields overwritten);
  - the four nodes as functions;
  - the engine as sequential composition over the edge order (`Execute`, `Invoke`);
  - a turn (`Turn`) and a conversation (`Converse`);
  - the `MemorySaver` checkpointer, as the class `Checkpointer` holding the one thread.
- `app.dfy`: the new-upload filter, display-name cleaning, labels and excerpts, and the `Session` class. The class holds `uploaded_files` and `chat_history`, the imported `retriever` and compiled `graph`, and a reference to the shared `Checkpointer`.

Two behaviours of the code are kept as written:
- No exception handling surrounds the retriever call in `retrieve` (`rag.py:41-44`). So there is no fallback to an empty context when the store or gateway fails.
- `add_uploaded_docs` does not deduplicate by file name. Only the front end filters uploads by name (`streamlit_app.py:37`).

The `question` field of the state is declared but never written. `generate` uses the last message instead. Following the code, `State.question` only passes through unchanged (`Rag.TurnIgnoresStaleFields`).

## Model

| member | source | states |
|---|---|---|
| `Rag.Merge` | rag.py:33-39 | The state the engine holds after a node: `messages` is the old list followed by the update's (the `x + y` reducer); each other field takes the update's value when it carries one and keeps the old value otherwise. |
| `Rag.MergePolicy` | rag.py:33-39 | Merging appends the update's messages after the old ones. The old list is a prefix of the new one, so every old message keeps its position and value. Every other field is replaced exactly when the update carries it. |
| `Rag.GeneratePrompt` | rag.py:53-56 | The prompt `generate` sends: the system template filled with the rendered numbered context, and the human turn holding the question. |
| `Rag.CheckPrompt` | rag.py:63-69 | The prompt `double_check` sends: the fixed citation-check request with the answer interpolated. |
| `Rag.RevisionPrompt` | rag.py:78-84 | The prompt `doc_finalizer` sends when flagged: the rewrite request with the context rendered by revision blocks and the original answer. |
| `Rag.LastContent` | rag.py:42 | `state['messages'][-1].content` fails exactly on an empty history. Otherwise it is the content of the last message. |
| `Rag.Retrieve` | rag.py:41-44 | It queries once with the last message's content and makes no model call. Its update sets only `context`, to the store's top-5 result. It fails exactly when the history is empty. |
| `Rag.RetrieveEffect` | rag.py:41-44 | Merged into a running turn, `retrieve` changes only `context`, and logs exactly one query: the last message's content. |
| `Rag.Generate` | rag.py:46-59 | It makes exactly one model call, on the prompt built from the last message and the numbered context. Its update writes only `answer`, with that call's reply. It fails exactly when the history is empty. |
| `Rag.GenerateEffect` | rag.py:53-59 | Merged into a running turn, `generate` changes only `answer` and logs exactly one prompt. |
| `Rag.FormatNumberedSnoc` | rag.py:48-51 | An empty context renders as `""`. Adding the document at position n adds `"\n\n"` and that document's block numbered n+1 at the end (no separator before the first block). So the blocks appear in retrieval order. |
| `Rag.SourceTag` | rag.py:49 | The marker of the document at position i in both renderings: `Source ` followed by the decimal form of i+1. |
| `Rag.SourceTagsDistinct` | rag.py:49 | Different positions get different `Source i+1` markers. |
| `Rag.ContextBlock` | rag.py:49 | The block `generate` shows for the document at position i: `--- Source i+1 (File: <source or Unknown>) ---`, a newline, then the document's content. |
| `Rag.RevisionBlock` | rag.py:78 | The block `doc_finalizer` shows for the document at position i: `Source i+1: ` then the document's content. |
| `Documents.Numbered` | rag.py:48-51 | `enumerate` in a list comprehension: one entry per document, in order, the i-th computed from the index i (shifted by the start) and the i-th document. |
| `Rag.FormatNumbered` | rag.py:48-51 | The documents' blocks, numbered from position 0, joined by `"\n\n"`; `generate` uses it with the generation block and `doc_finalizer` (rag.py:78) with the revision block. |
| `Rag.SameNumbering` | rag.py:78 | The revision context starts the i-th document with `Source i+1: `. That is the marker the generation context uses for the same document (`--- Source i+1 (File: `). |
| `Text.Join` | rag.py:48 | `sep.join(parts)`: the parts in order with `sep` between neighbours; `""` for no parts, the part itself for one. |
| `Text.JoinSnoc` | rag.py:48 | `sep.join` of one more part is the old join, the separator, then the part. |
| `Text.NatToString` | rag.py:49 | `str(n)` for a natural number: at least one decimal digit and no leading zero unless n is 0. |
| `Text.NatToStringRoundTrip` | rag.py:49 | The decimal rendering of a source number reads back as that number. |
| `Text.NatToStringInjective` | rag.py:49 | Different numbers render differently. |
| `Text.Contains` | rag.py:71 | Python's substring `in`, a left-to-right scan for the pattern. |
| `Text.ContainsIff` | rag.py:71 | The substring test holds exactly when the pattern occurs at some index. |
| `Rag.DoubleCheck` | rag.py:61-73 | It makes exactly one model call, on the check prompt for the answer. `issues_detected` is true exactly when the reply contains `ISSUES FOUND`. The report is the whole reply when flagged and `""` otherwise, so it is non-empty exactly when flagged. Nothing else is written. |
| `Rag.DoubleCheckEffect` | rag.py:69-73 | Merged into a running turn, `double_check` changes only the two issue fields, and logs exactly one prompt. |
| `Rag.DocFinalizer` | rag.py:75-87 | It appends exactly one assistant message and writes nothing else. Unflagged: no model call, and the message is the answer verbatim. Flagged: exactly one rewrite call on the renumbered context and the answer, and the message is its reply. |
| `Rag.DocFinalizerEffect` | rag.py:75-87 | Merged into a running turn, `doc_finalizer` appends one assistant message and logs at most one prompt, the rewrite. |
| `Rag.RunNode` | rag.py:91-94 | The node names of the graph mapped to their functions: retrieve, generate, double_check and doc_finalizer, the last two never failing. |
| `Rag.Execute` | rag.py:96-101 | The engine runs the nodes in the edge order, one after another; each node sees the state with every earlier update merged, and the first node that fails ends the run with its error. |
| `Rag.Invoke` | rag.py:103 | `graph.invoke(input)` on a checkpointed state: the input messages are merged into the thread first, then the four nodes run from a run with no calls logged. |
| `Rag.TurnShape` | rag.py:96-103 | One invocation with a human message runs retrieve, generate, double_check and doc_finalizer in that order, and never fails. The result is the explicit state and the list of prompts sent: the answer prompt, the check prompt, and the rewrite prompt only if flagged. The only query is the question. |
| `Rag.Turn` | rag.py:96-104 | The thread's state after one `graph.invoke` with the question as the only human message. |
| `Rag.TurnContext` | rag.py:41-44 | The `context` a turn leaves behind, which the front end cites, is exactly the store's result for the question itself. |
| `Rag.TurnContextBounded` | retriever.py:26 | A turn leaves at most `k = 5` documents in `context` when the store returns no more than it is asked for. |
| `Rag.TurnHistory` | rag.py:85-87 | A turn adds exactly two messages after the kept history: the question, then one assistant message. |
| `Rag.TurnAppendsExchange` | rag.py:39 | The compiled graph, as a function of the thread and the question, always appends exactly one question-and-reply exchange. |
| `Rag.Converse` | rag.py:102-104 | The thread after the questions are asked one per turn, in order, each turn starting from the state the previous one checkpointed. |
| `Rag.ConversationHistory` | rag.py:102-104 | After N turns on one checkpointed thread, the old history is kept and 2N messages follow. Turn k's question sits at offset 2k, and an assistant reply follows it. |
| `Rag.FreshConversationLength` | rag.py:102-104 | N questions on a fresh thread leave exactly 2N messages. |
| `Rag.Checkpointer.constructor` | rag.py:102-104 | The module-level `MemorySaver` starts with one fresh thread: no messages and every field empty. |
| `Rag.TurnIgnoresStaleFields` | rag.py:41-59 | A turn does not depend on the `context`, `answer` or issue fields left by the previous turn. Two threads with the same messages give the same turn, apart from the untouched `question` field. |
| `Retriever.SplitDocuments` | retriever.py:14-22 | An empty list gives `[]` without consulting the splitter. A non-empty list gives exactly the splitter's result. |
| `Retriever.StoreEffect` | retriever.py:32-36 | Storing adds at most one batch. It adds one exactly when the split is non-empty, and that batch is the split itself. |
| `Retriever.DocumentRetriever.StoreDocuments` | retriever.py:32-36 | The store's log grows by exactly the batches `StoreEffect` describes. |
| `Retriever.VectorStore.constructor` | retriever.py:12 | The module-level Chroma store over an opaque search: its ghost log of added batches starts empty. What `./chroma_db` already holds from earlier runs is not modelled; it only shows through the opaque search. |
| `Retriever.VectorStore.AddDocuments` | retriever.py:36 | The store's log grows by exactly the given batch. |
| `Retriever.DocumentRetriever.constructor` | retriever.py:28-30 | The initial documents are stored only when the list is non-empty. |
| `Retriever.DocumentRetriever.AddUploadedDocs` | retriever.py:38-56 | `documents` becomes the old list followed by the loaded documents of the batch, in upload order. The store receives exactly the one batch `StoreEffect` gives for them. It prints one error line per failing file, in order. When nothing was loaded, neither `documents` nor the store changes. |
| `Retriever.TempPath` | retriever.py:41 | The temporary path an upload is written to: `./temp_upload_` followed by the file's name. |
| `Retriever.ErrorMessage` | retriever.py:49 | The line printed for a file whose loader raised: `Error loading document <name>: <error>`. |
| `Retriever.Contribution` | retriever.py:41-49 | What one file adds to the batch: every document its loader returns, or nothing when the loader raises. |
| `Retriever.LoadedDocs` | retriever.py:39-47 | The documents accumulated for a batch: each file's contribution, in upload order. |
| `Retriever.FailureLog` | retriever.py:48-49 | The lines printed for a batch: `Error loading document <name>: <error>` for each file whose loader raised, in upload order. |
| `Retriever.LoadedDocsAppend` | retriever.py:40-47 | Accumulation is per file: the documents of a batch are those of its first part followed by those of its second part. |
| `Retriever.FailureLogAppend` | retriever.py:48-49 | Error reports are per file, in upload order. |
| `Retriever.FailingFileAddsNoDocuments` | retriever.py:44-49 | A file whose loader raises contributes no documents. The files after it are loaded as if it were absent. |
| `Retriever.FailingFileReported` | retriever.py:48-49 | A file whose loader raises is reported by name and error, between the reports of the files before and after it. |
| `Retriever.LoadedDocsOrigin` | retriever.py:45-47 | Every accumulated document was returned by a successful load of some file of the batch. |
| `Retriever.RelevantDocuments` | retriever.py:58-60 | `_get_relevant_documents`: the store's similarity search for the query with breadth `k = 5`, returned as is. |
| `App.NewFiles` | streamlit_app.py:37 | An upload is kept exactly when it is among the uploads and its name is not yet indexed. The result is never longer than the upload list. |
| `App.NewFilesAppend` | streamlit_app.py:37 | The filter keeps upload order: it distributes over consecutive parts of the upload list. |
| `App.NewFilesKeepsUnindexed` | streamlit_app.py:37 | Uploads whose names are not yet indexed all pass, in order and with their multiplicity. |
| `App.Names` | streamlit_app.py:42-43 | The names of the files, one per file, in order. |
| `App.Session.RecordIndexed` | streamlit_app.py:42-43 | The indexed-name list becomes the old list followed by the batch's names in order. Duplicate names are appended twice. |
| `App.Session.IndexUploads` | streamlit_app.py:36-43 | The retriever and the store are touched only when there are new uploads, and then with exactly those files. The indexed names grow by their names in order, and the chat history and the thread are unchanged. |
| `App.Basename` | streamlit_app.py:88 | `os.path.basename` gives a `/`-free suffix of the path, preceded by `/` when shorter than the path. |
| `App.BasenameOfLastComponent` | streamlit_app.py:88 | A path ending in `/` followed by a `/`-free `b` has basename `b`. |
| `App.RemoveAll` | streamlit_app.py:88 | `str.replace(pat, "")` never lengthens a string; its value is pinned down by `RemoveAllFirst`, `RemoveAllLeading` and `RemoveAllAbsent`. |
| `App.RemoveAllSubset` | streamlit_app.py:88 | Removal introduces no character. |
| `App.RemoveAllLeading` | streamlit_app.py:88 | A leading occurrence is removed, and the scan resumes after it. |
| `App.RemoveAllAbsent` | streamlit_app.py:88 | A string without the pattern is unchanged. |
| `App.RemoveAllFirst` | streamlit_app.py:88 | The text before the first occurrence of the pattern is kept as it is, that occurrence is dropped, and removal resumes right after it. |
| `App.DisplayName` | streamlit_app.py:86-88 | A missing source shows as `Unknown source`. A basename that holds no `temp_upload_` is shown unchanged. The shown name has no `/` and is no longer than the source. |
| `App.TempPathBasename` | retriever.py:41 | The basename of an upload's temporary path is `temp_upload_` followed by the file name. |
| `App.DisplayNameOfUpload` | streamlit_app.py:86-88 | A chunk loaded from an upload shows the uploaded file's own name, provided that name holds no `/` and no `temp_upload_`. |
| `App.CitationLabel` | streamlit_app.py:89 | The bold label of the citation at position i: `[Source i+1]`. |
| `App.LabelsDistinct` | streamlit_app.py:89 | Different positions get different labels. |
| `App.Excerpt` | streamlit_app.py:90 | The excerpt is the first `min(300, len)` characters of the content, then `...`. |
| `App.CitationFor` | streamlit_app.py:85-90 | The citation shown for the document at position i: its label `[Source i+1]`, the display name of its source, and the excerpt of its content. |
| `App.Citations` | streamlit_app.py:83-90 | There is one citation per document, in order. The i-th is labelled `[Source i+1]`, shows the display name of that document's source, and the excerpt of that document's content. |
| `App.CitationMarkerMatchesGenerate` | streamlit_app.py:89 | The i-th citation label carries the marker that `generate` put before the same document. |
| `App.CitationLabelsDistinct` | streamlit_app.py:89 | No two citations of a turn share a label. |
| `App.Session.constructor` | streamlit_app.py:22-25 | Both session lists start empty, and the session runs over the shared checkpointer as other sessions left it. The session's graph is `Rag.Turn` over the chat model and the retriever's store. |
| `App.Session.Ask` | streamlit_app.py:61-92 | A non-empty input runs the graph once on the shared thread, which gains exactly the question and the answer. The chat history gains a `User` entry with the input, then an `Assistant` entry with the last message of the result. The citations are those of the result's context. An empty input changes nothing. |

## Left out

- Prompt wording: a `Rag.Prompt` carries only the values interpolated into the fixed text of the three prompts, not the text itself.
- LLM output: the only property inspected is whether a reply contains `ISSUES FOUND`.
- The text splitter's internals: chunk size 2000, overlap 400 and the separator list. It is an opaque function.
- Chroma: persistence, embeddings and similarity ranking. The search is an opaque function of the query and the breadth. `Retriever.VectorStore.search` is a `const` that ignores the `additions` log, so in the model indexing never changes what a search returns.
- `load_document`: not part of this model. It is an opaque function of the temporary path and the bytes written there.
- The temporary file: its write and its removal are file I/O. The loader receives its path and contents directly.
- The LangGraph engine: it is sequential composition with the per-field merge.
- The `MemorySaver` checkpointer is one `Rag.Checkpointer` object shared by every `App.Session`; the fixed thread id is not modelled, since there is only one thread. A session's chat history therefore shows only its own turns, while the thread holds every session's turns.
- `App.Session.Ask`: a turn is atomic. Turns of concurrent sessions interleaving inside the graph are not modelled.
- Exceptions raised by the store, the chat model or the retriever call: no error path beyond the empty-history index error is modelled.
- `doc.metadata.get('source', …)` on a key present with a `None` value: not modelled. A source is a string or absent.
- Streamlit rendering, widgets, spinners, page setup, the SQLite module swap, environment and secret setup, and `llms.py`.
- Index errors within a turn: an index error from an empty history cannot arise there, because the input message is merged first (`Rag.TurnShape`). The error case of a turn keeps the state only so that the function is total.
- `Rag.TurnContextBounded`: the bound of 5 holds only if the store returns at most what it is asked for. This is stated as a requirement on the opaque search, because the store's code is not part of this model.
- `App.DisplayNameOfUpload`: requires the file name to contain neither `/` nor `temp_upload_`. `str.replace` removes every occurrence of the marker, so a file name containing it is shown shortened. The model keeps this behaviour as written.
- `Retriever.DocumentRetriever.AddUploadedDocs`: the printed error lines are a ghost out-parameter, because printing is output only.

/**
 * The bookkeeping rules of the chat front end (streamlit_app.py): which uploads are
 * new, the list of indexed file names, how a retrieved chunk is shown as a citation,
 * and the per-session chat history next to the thread all sessions share. Rendering is
 * not modelled.
 */
module App {
  import opened Documents
  import Text
  import Retriever
  import Rag

  /** `new_files`: the uploads whose names are not yet indexed, in upload order. */
  function NewFiles(uploaded: seq<Retriever.UploadedFile>, indexed: seq<string>): (r: seq<Retriever.UploadedFile>)
    ensures |r| <= |uploaded|
    ensures forall f :: f in r <==> f in uploaded && f.name !in indexed
    decreases |uploaded|
  {
    if uploaded == [] then []
    else (if uploaded[0].name in indexed then [] else [uploaded[0]]) + NewFiles(uploaded[1..], indexed)
  }

  /** The filter keeps upload order: it distributes over consecutive parts of the upload list. */
  lemma {:induction false} NewFilesAppend(a: seq<Retriever.UploadedFile>, b: seq<Retriever.UploadedFile>, indexed: seq<string>)
    ensures NewFiles(a + b, indexed) == NewFiles(a, indexed) + NewFiles(b, indexed)
    decreases |a|
  {
    if a == [] {
      assert a + b == b;
    } else {
      var head := if a[0].name in indexed then [] else [a[0]];
      assert (a + b)[0] == a[0];
      assert (a + b)[1..] == a[1..] + b;
      assert NewFiles(a + b, indexed) == head + NewFiles(a[1..] + b, indexed);
      NewFilesAppend(a[1..], b, indexed);
    }
  }

  /**
   * Uploads whose names are not indexed yet all pass, in order and with their multiplicity:
   * two uploads of one new name in a batch are both indexed.
   */
  lemma {:induction false} NewFilesKeepsUnindexed(uploaded: seq<Retriever.UploadedFile>, indexed: seq<string>)
    requires forall i :: 0 <= i < |uploaded| ==> uploaded[i].name !in indexed
    ensures NewFiles(uploaded, indexed) == uploaded
    decreases |uploaded|
  {
    if uploaded != [] {
      var rest := uploaded[1..];
      assert forall i :: 0 <= i < |rest| ==> rest[i] == uploaded[i + 1];
      NewFilesKeepsUnindexed(rest, indexed);
      assert [uploaded[0]] + rest == uploaded;
    }
  }

  /** The names of the files, in order. */
  function Names(files: seq<Retriever.UploadedFile>): (r: seq<string>)
    ensures |r| == |files|
    ensures forall i :: 0 <= i < |files| ==> r[i] == files[i].name
    decreases |files|
  {
    if files == [] then [] else Names(files[..|files| - 1]) + [files[|files| - 1].name]
  }

  /** Python's `os.path.basename`: what follows the last `/`. */
  function Basename(p: string): (r: string)
    ensures |r| <= |p| && r == p[|p| - |r|..]
    ensures '/' !in r
    ensures |r| < |p| ==> p[|p| - |r| - 1] == '/'
    decreases |p|
  {
    if p == [] || p[|p| - 1] == '/' then [] else Basename(p[..|p| - 1]) + [p[|p| - 1]]
  }

  /** A path whose last component is `b` has basename `b`. */
  lemma {:induction false} BasenameOfLastComponent(p: string, b: string)
    requires |b| < |p| && p[|p| - |b|..] == b && p[|p| - |b| - 1] == '/' && '/' !in b
    ensures Basename(p) == b
    decreases |b|
  {
    if b != [] {
      var b' := b[..|b| - 1];
      var p' := p[..|p| - 1];
      assert p'[|p'| - |b'|..] == b';
      assert p'[|p'| - |b'| - 1] == p[|p| - |b| - 1];
      BasenameOfLastComponent(p', b');
      assert p[|p| - 1] == b[|b| - 1];
      assert b' + [b[|b| - 1]] == b;
    }
  }

  /** Python's `s.replace(pat, "")`: every occurrence met in a left-to-right scan is dropped. */
  function RemoveAll(s: string, pat: string): (r: string)
    requires pat != []
    ensures |r| <= |s|
    decreases |s|
  {
    if |s| < |pat| then s
    else if s[..|pat|] == pat then RemoveAll(s[|pat|..], pat)
    else [s[0]] + RemoveAll(s[1..], pat)
  }

  /** Removing never introduces a character. */
  lemma {:induction false} RemoveAllSubset(s: string, pat: string, c: char)
    requires pat != []
    ensures c in RemoveAll(s, pat) ==> c in s
    decreases |s|
  {
    if |s| < |pat| {
    } else if s[..|pat|] == pat {
      RemoveAllSubset(s[|pat|..], pat, c);
    } else {
      RemoveAllSubset(s[1..], pat, c);
    }
  }

  /** A leading occurrence is dropped and the scan resumes right after it. */
  lemma RemoveAllLeading(pat: string, s: string)
    requires pat != []
    ensures RemoveAll(pat + s, pat) == RemoveAll(s, pat)
  {
    var t := pat + s;
    assert t[..|pat|] == pat && t[|pat|..] == s;
  }

  /** A string without the pattern is left as it is. */
  lemma {:induction false} RemoveAllAbsent(s: string, pat: string)
    requires pat != []
    ensures !Text.Contains(s, pat) ==> RemoveAll(s, pat) == s
    decreases |s|
  {
    if |s| >= |pat| && s[..|pat|] != pat {
      RemoveAllAbsent(s[1..], pat);
      assert [s[0]] + s[1..] == s;
    }
  }

  /** A string without `/` is its own basename. */
  lemma {:induction false} BasenameNoSlash(p: string)
    requires '/' !in p
    ensures Basename(p) == p
    decreases |p|
  {
    if p != [] {
      var q := p[..|p| - 1];
      assert p == q + [p[|p| - 1]];
      assert p[|p| - 1] in p;
      BasenameNoSlash(q);
    }
  }

  /** No occurrence before `i` in `s` means none before `i - 1` in `s[1..]`. */
  lemma NoEarlierOccurrenceInTail(s: string, pat: string, i: nat)
    requires 0 < i <= |s|
    requires forall j :: 0 <= j < i ==> !Text.OccursAt(s, pat, j)
    ensures forall j :: 0 <= j < i - 1 ==> !Text.OccursAt(s[1..], pat, j)
  {
    forall j | 0 <= j < i - 1
      ensures !Text.OccursAt(s[1..], pat, j)
    {
      assert !Text.OccursAt(s, pat, j + 1);
      if j + |pat| <= |s| - 1 {
        assert s[1..][j..j + |pat|] == s[j + 1..j + 1 + |pat|];
      }
    }
  }

  /**
   * The first occurrence of the pattern is dropped, the text before it kept as it is,
   * and the scan resumes right after it.
   */
  lemma {:induction false} RemoveAllFirst(s: string, pat: string, i: nat)
    requires pat != [] && Text.OccursAt(s, pat, i)
    requires forall j :: 0 <= j < i ==> !Text.OccursAt(s, pat, j)
    ensures RemoveAll(s, pat) == s[..i] + RemoveAll(s[i + |pat|..], pat)
    decreases i
  {
    if i == 0 {
      assert s[..0] == [] && s[..|pat|] == pat;
    } else {
      assert !Text.OccursAt(s, pat, 0);
      var t := s[1..];
      assert RemoveAll(s, pat) == [s[0]] + RemoveAll(t, pat);
      assert t[i - 1..i - 1 + |pat|] == s[i..i + |pat|];
      NoEarlierOccurrenceInTail(s, pat, i);
      RemoveAllFirst(t, pat, i - 1);
      var rest := RemoveAll(s[i + |pat|..], pat);
      assert t[i - 1 + |pat|..] == s[i + |pat|..];
      assert RemoveAll(t, pat) == t[..i - 1] + rest;
      assert [s[0]] + (t[..i - 1] + rest) == ([s[0]] + t[..i - 1]) + rest;
      assert [s[0]] + t[..i - 1] == s[..i];
    }
  }

  const UnknownSource: string := "Unknown source"

  /** A string lacking the first character of a pattern does not hold the pattern. */
  lemma {:induction false} AbsentWithoutFirstChar(s: string, pat: string)
    requires pat != [] && pat[0] !in s
    ensures !Text.Contains(s, pat)
    decreases |s|
  {
    if |s| >= |pat| {
      assert s[..|pat|][0] == s[0];
      assert forall c :: c in s[1..] ==> c in s;
      AbsentWithoutFirstChar(s[1..], pat);
    }
  }

  /** The fallback name names no directory and holds no marker: it has no `t` to start one. */
  lemma UnknownSourceUnmarked()
    ensures '/' !in UnknownSource
    ensures !Text.Contains(UnknownSource, Retriever.TempMarker)
  {
    assert Retriever.TempMarker[0] == 't';
    assert 't' !in UnknownSource;
    AbsentWithoutFirstChar(UnknownSource, Retriever.TempMarker);
  }

  /**
   * The file name shown for a citation: the basename of `source` (or of `Unknown source`
   * when there is none) with every `temp_upload_` removed.
   */
  function DisplayName(source: Option<string>): (r: string)
    ensures '/' !in r
    ensures |r| <= |source.GetOr(UnknownSource)|
    ensures source.None? ==> r == UnknownSource
    ensures var base := Basename(source.GetOr(UnknownSource));
      !Text.Contains(base, Retriever.TempMarker) ==> r == base
  {
    var base := Basename(source.GetOr(UnknownSource));
    RemoveAllSubset(base, Retriever.TempMarker, '/');
    RemoveAllAbsent(base, Retriever.TempMarker);
    UnknownSourceUnmarked();
    BasenameNoSlash(UnknownSource);
    RemoveAll(base, Retriever.TempMarker)
  }

  /** The marker names no directory. */
  lemma MarkerHasNoSlash()
    ensures '/' !in Retriever.TempMarker
  {
    assert Retriever.TempMarker == "temp_upload_";
  }

  /** The basename of an upload's temporary path is the marker followed by the file's name. */
  lemma TempPathBasename(name: string)
    requires '/' !in name
    ensures Basename(Retriever.TempPath(name)) == Retriever.TempMarker + name
  {
    var tail := Retriever.TempMarker + name;
    var path := Retriever.TempPath(name);
    assert path == "./" + tail;
    assert path[|path| - |tail|..] == tail;
    assert path[|path| - |tail| - 1] == '/';
    MarkerHasNoSlash();
    assert '/' !in tail;
    BasenameOfLastComponent(path, tail);
  }

  /** A document loaded from an upload shows the uploaded file's own name. */
  lemma DisplayNameOfUpload(name: string)
    requires '/' !in name && !Text.Contains(name, Retriever.TempMarker)
    ensures DisplayName(Some(Retriever.TempPath(name))) == name
  {
    TempPathBasename(name);
    RemoveAllLeading(Retriever.TempMarker, name);
    RemoveAllAbsent(name, Retriever.TempMarker);
  }

  /** The label of the citation at position `i`: `[Source <i+1>]`. */
  function CitationLabel(i: nat): string {
    "[" + Rag.SourceTag(i) + "]"
  }

  lemma LabelInner(i: nat)
    ensures |CitationLabel(i)| >= 2 && CitationLabel(i)[1..|CitationLabel(i)| - 1] == Rag.SourceTag(i)
  {
  }

  const ExcerptLength: nat := 300

  /** `page_content[:300] + "..."`. */
  function Excerpt(content: string): (r: string)
    ensures |r| == (if |content| < ExcerptLength then |content| else ExcerptLength) + 3
    ensures r[..|r| - 3] <= content && r[|r| - 3..] == "..."
  {
    (if |content| < ExcerptLength then content else content[..ExcerptLength]) + "..."
  }

  datatype Citation = Citation(heading: string, name: string, excerpt: string)

  function CitationFor(i: nat, d: Doc): Citation {
    Citation(CitationLabel(i), DisplayName(d.source), Excerpt(d.content))
  }

  /** The citations displayed for a turn's `context`, one per document, in order. */
  function Citations(context: seq<Doc>): (r: seq<Citation>)
    ensures |r| == |context|
    ensures forall i :: 0 <= i < |context| ==>
      r[i].heading == CitationLabel(i) &&
      r[i].name == DisplayName(context[i].source) && r[i].excerpt == Excerpt(context[i].content)
  {
    Numbered(context, 0, CitationFor)
  }

  /** The label shown for a document carries the marker `generate` gave the same document. */
  lemma CitationMarkerMatchesGenerate(context: seq<Doc>, i: nat)
    requires i < |context|
    ensures var heading := Citations(context)[i].heading;
      "--- " + heading[1..|heading| - 1] + " (File: " <= Numbered(context, 0, Rag.ContextBlock)[i]
  {
    var heading := Citations(context)[i].heading;
    assert heading == CitationLabel(i);
    LabelInner(i);
    Rag.SameNumbering(context, i);
  }

  /** No two documents of a turn share a citation label. */
  lemma CitationLabelsDistinct(context: seq<Doc>, i: nat, j: nat)
    requires i < |context| && j < |context| && i != j
    ensures Citations(context)[i].heading != Citations(context)[j].heading
  {
    assert Citations(context)[i].heading == CitationLabel(i);
    assert Citations(context)[j].heading == CitationLabel(j);
    LabelsDistinct(i, j);
  }

  /** Different positions get different labels. */
  lemma LabelsDistinct(i: nat, j: nat)
    requires i != j
    ensures CitationLabel(i) != CitationLabel(j)
  {
    LabelInner(i);
    LabelInner(j);
    Rag.SourceTagsDistinct(i, j);
  }

  /** One `chat_history` entry: `{"role": ..., "content": ...}`. */
  datatype ChatEntry = ChatEntry(role: string, content: string)

  /**
   * The front end's per-session state, with the retriever and the compiled graph it
   * imports and the graph's checkpointer, which every session shares.
   */
  class Session {
    var uploadedFiles: seq<string>
    var chatHistory: seq<ChatEntry>
    /** The retriever shared with the graph's retrieve node. */
    const retriever: Retriever.DocumentRetriever
    /** The checkpointer holding the one thread every turn runs on. */
    const memory: Rag.Checkpointer
    /** The compiled graph: one turn on a thread. */
    const graph: Rag.Answerer

    /** A turn keeps the thread's history and appends one exchange. */
    ghost predicate Valid()
      reads this
    {
      Rag.AppendsExchange(graph)
    }

    /**
     * A new session starts with no indexed names and no chat history, over the thread
     * as other sessions left it.
     */
    constructor (llm: Rag.ChatModel, retriever: Retriever.DocumentRetriever, memory: Rag.Checkpointer)
      ensures Valid()
      ensures uploadedFiles == [] && chatHistory == []
      ensures this.retriever == retriever && this.memory == memory
      ensures forall st: Rag.State, q: string :: graph(st, q) == Rag.Turn(st, q, llm, retriever.store.search)
    {
      uploadedFiles := [];
      chatHistory := [];
      this.retriever := retriever;
      this.memory := memory;
      var search := retriever.store.search;
      graph := (st: Rag.State, q: string) => Rag.Turn(st, q, llm, search);
      new;
      Rag.TurnAppendsExchange(llm, search, graph);
    }

    /**
     * The sidebar's upload handling: index the uploads not yet indexed (only when there
     * are some) and append their names, in order, to the indexed-name list.
     */
    method IndexUploads(uploaded: seq<Retriever.UploadedFile>)
      returns (ghost console: seq<string>)
      modifies this, retriever, retriever.store
      ensures chatHistory == old(chatHistory)
      ensures uploadedFiles == old(uploadedFiles) + Names(NewFiles(uploaded, old(uploadedFiles)))
      ensures var incoming := NewFiles(uploaded, old(uploadedFiles));
        if incoming == [] then
          retriever.documents == old(retriever.documents) &&
          retriever.store.additions == old(retriever.store.additions) && console == []
        else
          retriever.documents == old(retriever.documents) + Retriever.LoadedDocs(retriever.load, incoming) &&
          retriever.store.additions == old(retriever.store.additions) +
            Retriever.StoreEffect(retriever.split, Retriever.LoadedDocs(retriever.load, incoming)) &&
          console == Retriever.FailureLog(retriever.load, incoming)
    {
      console := [];
      if uploaded != [] {
        var newFiles := NewFiles(uploaded, uploadedFiles);
        if newFiles != [] {
          console := retriever.AddUploadedDocs(newFiles);
          RecordIndexed(newFiles);
        }
      }
    }

    /** Append the names of freshly indexed files to the indexed-name list, in order. */
    method RecordIndexed(files: seq<Retriever.UploadedFile>)
      modifies this
      ensures uploadedFiles == old(uploadedFiles) + Names(files)
      ensures chatHistory == old(chatHistory)
    {
      for i := 0 to |files|
        invariant uploadedFiles == old(uploadedFiles) + Names(files[..i])
        invariant chatHistory == old(chatHistory)
      {
        assert files[..i + 1][..i] == files[..i];
        uploadedFiles := uploadedFiles + [files[i].name];
      }
      assert files[..|files|] == files;
    }

    /**
     * One chat turn: record the question, run the graph on the shared thread, record the
     * last message of the result as the answer, and return the citations for its context.
     * An empty input submits nothing.
     */
    method Ask(userInput: string) returns (answer: string, citations: seq<Citation>)
      requires Valid()
      modifies this, memory
      ensures Valid()
      ensures uploadedFiles == old(uploadedFiles)
      ensures userInput == "" ==>
        chatHistory == old(chatHistory) && memory.thread == old(memory.thread) && answer == "" && citations == []
      ensures userInput != "" ==>
        memory.thread == graph(old(memory.thread), userInput) &&
        memory.thread.messages == old(memory.thread.messages) + [Message(Human, userInput), Message(Ai, answer)] &&
        chatHistory == old(chatHistory) + [ChatEntry("User", userInput), ChatEntry("Assistant", answer)] &&
        citations == Citations(memory.thread.context)
    {
      answer, citations := "", [];
      if userInput != "" {
        chatHistory := chatHistory + [ChatEntry("User", userInput)];
        ghost var before := memory.thread.messages;
        var result := graph(memory.thread, userInput);
        assert |result.messages| - 1 == |before| + 1;
        answer := result.messages[|result.messages| - 1].content;
        assert result.messages == before + [Message(Human, userInput), Message(Ai, answer)];
        memory.thread := result;
        citations := Citations(result.context);
        chatHistory := chatHistory + [ChatEntry("Assistant", answer)];
      }
    }
  }
}

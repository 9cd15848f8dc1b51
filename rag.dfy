/**
 * The answer pipeline (rag.py): a state record whose `messages` field is merged by
 * concatenation and every other field by overwriting, four nodes that each return a
 * partial update, and the fixed order retrieve, generate, double_check, doc_finalizer.
 * The chat model and the vector store's ranking are opaque functions; every node
 * also reports the prompts it sent to the chat model and the queries it sent to
 * the retriever, so that the number of calls can be stated.
 */
module Rag {
  import opened Documents
  import Text
  import Retriever

  datatype State = State(
    question: string,
    context: seq<Doc>,
    answer: string,
    issuesReport: string,
    issuesDetected: bool,
    messages: seq<Message>)

  /** A thread before its first turn. */
  const Fresh: State := State("", [], "", "", false, [])

  /** The partial dictionary a node returns; `messages` is `[]` when the key is absent. */
  datatype Update = Update(
    question: Option<string>,
    context: Option<seq<Doc>>,
    answer: Option<string>,
    issuesReport: Option<string>,
    issuesDetected: Option<bool>,
    messages: seq<Message>)

  const NoUpdate: Update := Update(None, None, None, None, None, [])

  /**
   * How the graph engine folds an update into the state: `messages` uses the reducer
   * `x + y`, every other field is replaced when the update carries it.
   */
  function Merge(s: State, u: Update): State {
    State(
      u.question.GetOr(s.question),
      u.context.GetOr(s.context),
      u.answer.GetOr(s.answer),
      u.issuesReport.GetOr(s.issuesReport),
      u.issuesDetected.GetOr(s.issuesDetected),
      s.messages + u.messages)
  }

  /**
   * The merge policy: the update's messages follow the old ones, which keep their
   * positions and values; any other field the update carries replaces the old value,
   * and a field it does not carry is left alone.
   */
  lemma MergePolicy(s: State, u: Update)
    ensures var r := Merge(s, u);
      |r.messages| == |s.messages| + |u.messages| &&
      r.messages[..|s.messages|] == s.messages && r.messages[|s.messages|..] == u.messages &&
      (forall i :: 0 <= i < |s.messages| ==> r.messages[i] == s.messages[i]) &&
      r.question == (if u.question.Some? then u.question.value else s.question) &&
      r.context == (if u.context.Some? then u.context.value else s.context) &&
      r.answer == (if u.answer.Some? then u.answer.value else s.answer) &&
      r.issuesReport == (if u.issuesReport.Some? then u.issuesReport.value else s.issuesReport) &&
      r.issuesDetected == (if u.issuesDetected.Some? then u.issuesDetected.value else s.issuesDetected)
  {
    var r := Merge(s, u);
    assert r.messages == s.messages + u.messages;
  }

  /**
   * A request to the chat model, by the prompt it renders and the values filled into
   * that prompt's fixed wording:
   * `Answer`: the system prompt with the numbered documents, then the question;
   * `Check`: the citation-compliance question about an answer;
   * `Revision`: the rewrite instruction with the documents and the original answer.
   */
  datatype Prompt =
    | Answer(context: string, question: string)
    | Check(answer: string)
    | Revision(context: string, answer: string)

  /** `chat_model.invoke(...).content`, an opaque function of the prompt. */
  type ChatModel = Prompt -> string

  /** The citation marker of the document at position `i`: `Source <i+1>`. */
  function SourceTag(i: nat): string {
    "Source " + Text.NatToString(i + 1)
  }

  /** Different positions get different markers. */
  lemma SourceTagsDistinct(i: nat, j: nat)
    requires i != j
    ensures SourceTag(i) != SourceTag(j)
  {
    if SourceTag(i) == SourceTag(j) {
      assert SourceTag(i)[7..] == Text.NatToString(i + 1);
      assert SourceTag(j)[7..] == Text.NatToString(j + 1);
      Text.NatToStringInjective(i + 1, j + 1);
    }
  }

  /** One document as `generate` shows it to the model. */
  function ContextBlock(i: nat, d: Doc): string {
    "--- " + SourceTag(i) + " (File: " + d.source.GetOr("Unknown") + ") ---\n" + d.content
  }

  /** One document as `doc_finalizer` shows it to the model. */
  function RevisionBlock(i: nat, d: Doc): string {
    SourceTag(i) + ": " + d.content
  }

  /** The numbered documents joined by blank lines, in retrieval order. */
  function FormatNumbered(docs: seq<Doc>, block: (nat, Doc) -> string): string {
    Text.Join("\n\n", Numbered(docs, 0, block))
  }

  /**
   * The rendered context grows one document at a time: the document at position `n`
   * is appended after a blank line, under the marker `Source <n+1>`; no documents
   * render as the empty string.
   */
  lemma {:induction false} FormatNumberedSnoc(docs: seq<Doc>, d: Doc, block: (nat, Doc) -> string)
    ensures FormatNumbered([], block) == ""
    ensures FormatNumbered(docs + [d], block) ==
            if docs == [] then block(0, d) else FormatNumbered(docs, block) + "\n\n" + block(|docs|, d)
  {
    var parts := Numbered(docs, 0, block);
    assert Numbered(docs + [d], 0, block) == parts + [block(|docs|, d)];
    if docs != [] {
      Text.JoinSnoc("\n\n", parts, block(|docs|, d));
    }
  }

  lemma PrefixOfConcat(a: string, b: string, c: string, d: string)
    ensures a <= a + b + c + d
  {
    assert (a + b + c + d)[..|a|] == a;
  }

  /** `generate` and `doc_finalizer` number the same document alike. */
  lemma SameNumbering(docs: seq<Doc>, i: nat)
    requires i < |docs|
    ensures "--- " + SourceTag(i) + " (File: " <= Numbered(docs, 0, ContextBlock)[i]
    ensures SourceTag(i) + ": " <= Numbered(docs, 0, RevisionBlock)[i]
  {
    var d := docs[i];
    PrefixOfConcat("--- " + SourceTag(i) + " (File: ", d.source.GetOr("Unknown"), ") ---\n", d.content);
    PrefixOfConcat(SourceTag(i) + ": ", d.content, "", "");
    assert SourceTag(i) + ": " + d.content + "" + "" == RevisionBlock(i, d);
  }

  /** The marker whose presence in the check reply flags the answer. */
  const Sentinel: string := "ISSUES FOUND"

  /** The prompt `generate` renders: the documents as numbered sources, and the question. */
  function GeneratePrompt(question: string, context: seq<Doc>): Prompt {
    Answer(FormatNumbered(context, ContextBlock), question)
  }

  function CheckPrompt(answer: string): Prompt {
    Check(answer)
  }

  /** The prompt `doc_finalizer` renders: the documents numbered again, and the flagged answer. */
  function RevisionPrompt(context: seq<Doc>, answer: string): Prompt {
    Revision(FormatNumbered(context, RevisionBlock), answer)
  }

  /** What one node returns: its update, the prompts it sent, the retriever queries it made. */
  datatype Step = Step(update: Update, modelCalls: seq<Prompt>, queries: seq<string>)

  /** `state['messages'][-1].content`. */
  function LastContent(s: State): (r: Result<string>)
    ensures r.Err? <==> s.messages == []
    ensures r.Ok? ==> r.value == s.messages[|s.messages| - 1].content
  {
    if s.messages == [] then Err(EmptyHistory) else Ok(s.messages[|s.messages| - 1].content)
  }

  /** `retrieve`: query with the last message and overwrite `context` with the result. */
  function Retrieve(s: State, search: Retriever.StoreSearch): (r: Result<Step>)
    ensures r.Err? <==> s.messages == []
    ensures r.Ok? ==>
      var query := s.messages[|s.messages| - 1].content;
      r.value.queries == [query] && r.value.modelCalls == [] &&
      r.value.update == NoUpdate.(context := Some(search(query, Retriever.K)))
  {
    match LastContent(s)
    case Err(e) => Err(e)
    case Ok(query) =>
      Ok(Step(NoUpdate.(context := Some(Retriever.RelevantDocuments(search, query))), [], [query]))
  }

  /** `generate`: one model call on the rendered prompt; only `answer` is written. */
  function Generate(s: State, llm: ChatModel): (r: Result<Step>)
    ensures r.Err? <==> s.messages == []
    ensures r.Ok? ==>
      var prompt := GeneratePrompt(s.messages[|s.messages| - 1].content, s.context);
      r.value.modelCalls == [prompt] && r.value.queries == [] &&
      r.value.update == NoUpdate.(answer := Some(llm(prompt)))
  {
    match LastContent(s)
    case Err(e) => Err(e)
    case Ok(question) =>
      var prompt := GeneratePrompt(question, s.context);
      Ok(Step(NoUpdate.(answer := Some(llm(prompt))), [prompt], []))
  }

  /**
   * `double_check`: one model call; the answer is flagged exactly when the reply holds
   * the sentinel somewhere, and then the whole reply is the report, otherwise it is empty.
   */
  function DoubleCheck(s: State, llm: ChatModel): (r: Step)
    ensures r.modelCalls == [CheckPrompt(s.answer)] && r.queries == []
    ensures r.update.question.None? && r.update.context.None? && r.update.answer.None?
    ensures r.update.messages == []
    ensures r.update.issuesDetected.Some? && r.update.issuesReport.Some?
    ensures var reply := llm(CheckPrompt(s.answer));
      (r.update.issuesDetected.value <==> exists i :: Text.OccursAt(reply, Sentinel, i)) &&
      (r.update.issuesDetected.value ==> r.update.issuesReport.value == reply) &&
      (!r.update.issuesDetected.value ==> r.update.issuesReport.value == "") &&
      (r.update.issuesDetected.value <==> r.update.issuesReport.value != "")
  {
    var prompt := CheckPrompt(s.answer);
    var reply := llm(prompt);
    Text.ContainsIff(reply, Sentinel);
    if Text.Contains(reply, Sentinel) then
      Step(NoUpdate.(issuesReport := Some(reply), issuesDetected := Some(true)), [prompt], [])
    else
      Step(NoUpdate.(issuesReport := Some(""), issuesDetected := Some(false)), [prompt], [])
  }

  /**
   * `doc_finalizer`: exactly one assistant message is appended; the answer passes
   * through verbatim without a model call unless it was flagged, in which case one
   * rewrite call is made and its reply is the message.
   */
  function DocFinalizer(s: State, llm: ChatModel): (r: Step)
    ensures r.update == NoUpdate.(messages := r.update.messages) && r.queries == []
    ensures |r.update.messages| == 1 && r.update.messages[0].role == Ai
    ensures !s.issuesDetected ==> r.modelCalls == [] && r.update.messages[0].content == s.answer
    ensures s.issuesDetected ==>
      r.modelCalls == [RevisionPrompt(s.context, s.answer)] &&
      r.update.messages[0].content == llm(r.modelCalls[0])
  {
    if s.issuesDetected then
      var prompt := RevisionPrompt(s.context, s.answer);
      Step(NoUpdate.(messages := [Message(Ai, llm(prompt))]), [prompt], [])
    else
      Step(NoUpdate.(messages := [Message(Ai, s.answer)]), [], [])
  }

  datatype Node = RetrieveNode | GenerateNode | DoubleCheckNode | DocFinalizerNode

  /** The graph's edges: START, retrieve, generate, double_check, doc_finalizer, END. */
  const Order: seq<Node> := [RetrieveNode, GenerateNode, DoubleCheckNode, DocFinalizerNode]

  function RunNode(n: Node, s: State, llm: ChatModel, search: Retriever.StoreSearch): Result<Step> {
    match n
    case RetrieveNode => Retrieve(s, search)
    case GenerateNode => Generate(s, llm)
    case DoubleCheckNode => Ok(DoubleCheck(s, llm))
    case DocFinalizerNode => Ok(DocFinalizer(s, llm))
  }

  /** A turn in progress: the state so far and every call made so far. */
  datatype Run = Run(state: State, modelCalls: seq<Prompt>, queries: seq<string>)

  function Apply(run: Run, step: Step): Run {
    Run(Merge(run.state, step.update), run.modelCalls + step.modelCalls, run.queries + step.queries)
  }

  /** The engine runs the nodes one after another, merging each update before the next node. */
  function Execute(nodes: seq<Node>, run: Run, llm: ChatModel, search: Retriever.StoreSearch): Result<Run>
    decreases |nodes|
  {
    if nodes == [] then Ok(run)
    else
      match RunNode(nodes[0], run.state, llm, search)
      case Err(e) => Err(e)
      case Ok(step) => Execute(nodes[1..], Apply(run, step), llm, search)
  }

  /** `graph.invoke(input)` on a thread's checkpointed state. */
  function Invoke(s: State, input: seq<Message>, llm: ChatModel, search: Retriever.StoreSearch): Result<Run> {
    Execute(Order, Run(Merge(s, NoUpdate.(messages := input)), [], []), llm, search)
  }

  /** The retrieve node on a run: `context` becomes the search result, one query is logged. */
  lemma RetrieveEffect(run: Run, llm: ChatModel, search: Retriever.StoreSearch)
    requires run.state.messages != []
    ensures var q := run.state.messages[|run.state.messages| - 1].content;
      RunNode(RetrieveNode, run.state, llm, search).Ok? &&
      Apply(run, RunNode(RetrieveNode, run.state, llm, search).value) ==
        Run(run.state.(context := search(q, Retriever.K)), run.modelCalls, run.queries + [q])
  {
  }

  /** The generate node on a run: `answer` becomes the reply to the rendered prompt. */
  lemma GenerateEffect(run: Run, llm: ChatModel, search: Retriever.StoreSearch)
    requires run.state.messages != []
    ensures var prompt := GeneratePrompt(run.state.messages[|run.state.messages| - 1].content, run.state.context);
      RunNode(GenerateNode, run.state, llm, search).Ok? &&
      Apply(run, RunNode(GenerateNode, run.state, llm, search).value) ==
        Run(run.state.(answer := llm(prompt)), run.modelCalls + [prompt], run.queries)
  {
  }

  /** The double_check node on a run: the issue fields are set from one check reply. */
  lemma DoubleCheckEffect(run: Run, llm: ChatModel, search: Retriever.StoreSearch)
    ensures var reply := llm(CheckPrompt(run.state.answer));
      var detected := Text.Contains(reply, Sentinel);
      RunNode(DoubleCheckNode, run.state, llm, search).Ok? &&
      Apply(run, RunNode(DoubleCheckNode, run.state, llm, search).value) ==
        Run(run.state.(issuesReport := if detected then reply else "", issuesDetected := detected),
            run.modelCalls + [CheckPrompt(run.state.answer)], run.queries)
  {
  }

  /** The doc_finalizer node on a run: one assistant message, one rewrite call only if flagged. */
  lemma DocFinalizerEffect(run: Run, llm: ChatModel, search: Retriever.StoreSearch)
    ensures var s := run.state;
      var calls := if s.issuesDetected then [RevisionPrompt(s.context, s.answer)] else [];
      var final := if s.issuesDetected then llm(RevisionPrompt(s.context, s.answer)) else s.answer;
      RunNode(DocFinalizerNode, s, llm, search).Ok? &&
      Apply(run, RunNode(DocFinalizerNode, s, llm, search).value) ==
        Run(s.(messages := s.messages + [Message(Ai, final)]), run.modelCalls + calls, run.queries)
  {
  }

  /** The state and the calls of a turn on one human message, written out. */
  function ExpectedTurn(s: State, question: string, llm: ChatModel, search: Retriever.StoreSearch): Run {
    var context := search(question, Retriever.K);
    var answer := llm(GeneratePrompt(question, context));
    var reply := llm(CheckPrompt(answer));
    var detected := Text.Contains(reply, Sentinel);
    var final := if detected then llm(RevisionPrompt(context, answer)) else answer;
    Run(
      State(s.question, context, answer, if detected then reply else "", detected,
            s.messages + [Message(Human, question), Message(Ai, final)]),
      [GeneratePrompt(question, context), CheckPrompt(answer)] +
        (if detected then [RevisionPrompt(context, answer)] else []),
      [question])
  }

  /** The engine on a last node: that node's update is merged and the run ends. */
  lemma ExecuteLast(n: Node, run: Run, llm: ChatModel, search: Retriever.StoreSearch)
    requires RunNode(n, run.state, llm, search).Ok?
    ensures Execute([n], run, llm, search) == Ok(Apply(run, RunNode(n, run.state, llm, search).value))
  {
    assert [n][1..] == [];
  }

  /** The engine on a node followed by others: it merges that node's update and carries on. */
  lemma ExecuteFront(n: Node, rest: seq<Node>, run: Run, llm: ChatModel, search: Retriever.StoreSearch)
    requires RunNode(n, run.state, llm, search).Ok?
    ensures Execute([n] + rest, run, llm, search) == Execute(rest, Apply(run, RunNode(n, run.state, llm, search).value), llm, search)
  {
    assert ([n] + rest)[1..] == rest;
  }

  /**
   * One turn from a single human message never fails and runs the four nodes in order:
   * it retrieves with the question, answers from the retrieved documents, checks the
   * answer, and appends the answer or its single rewrite after the question.
   */
  lemma TurnShape(s: State, question: string, llm: ChatModel, search: Retriever.StoreSearch)
    ensures Invoke(s, [Message(Human, question)], llm, search) == Ok(ExpectedTurn(s, question, llm, search))
  {
    var m := Message(Human, question);
    var r0 := Run(Merge(s, NoUpdate.(messages := [m])), [], []);
    RetrieveEffect(r0, llm, search);
    var r1 := Apply(r0, RunNode(RetrieveNode, r0.state, llm, search).value);
    GenerateEffect(r1, llm, search);
    var r2 := Apply(r1, RunNode(GenerateNode, r1.state, llm, search).value);
    DoubleCheckEffect(r2, llm, search);
    var r3 := Apply(r2, RunNode(DoubleCheckNode, r2.state, llm, search).value);
    DocFinalizerEffect(r3, llm, search);
    var r4 := Apply(r3, RunNode(DocFinalizerNode, r3.state, llm, search).value);
    ExecuteLast(DocFinalizerNode, r3, llm, search);
    ExecuteFront(DoubleCheckNode, [DocFinalizerNode], r2, llm, search);
    ExecuteFront(GenerateNode, [DoubleCheckNode] + [DocFinalizerNode], r1, llm, search);
    ExecuteFront(RetrieveNode, [GenerateNode] + ([DoubleCheckNode] + [DocFinalizerNode]), r0, llm, search);
    assert Order == [RetrieveNode] + ([GenerateNode] + ([DoubleCheckNode] + [DocFinalizerNode]));
    assert r4 == ExpectedTurn(s, question, llm, search);
  }

  /**
   * The state after answering one question. The `Err` case does not arise: the question
   * itself is the last message (TurnShape).
   */
  function Turn(s: State, question: string, llm: ChatModel, search: Retriever.StoreSearch): State {
    match Invoke(s, [Message(Human, question)], llm, search)
    case Ok(run) => run.state
    case Err(_) => s
  }

  /** One turn keeps the history and appends the question and one assistant message. */
  lemma TurnHistory(s: State, question: string, llm: ChatModel, search: Retriever.StoreSearch)
    ensures var h := Turn(s, question, llm, search).messages;
      |h| == |s.messages| + 2 &&
      h == s.messages + [Message(Human, question), Message(Ai, h[|s.messages| + 1].content)]
  {
    TurnShape(s, question, llm, search);
  }

  /** The context a turn leaves behind is the store's answer to the question itself. */
  lemma TurnContext(s: State, question: string, llm: ChatModel, search: Retriever.StoreSearch)
    ensures Turn(s, question, llm, search).context == Retriever.RelevantDocuments(search, question)
  {
    TurnShape(s, question, llm, search);
  }

  /** A turn cites at most `k` documents when the store returns no more than it is asked for. */
  lemma TurnContextBounded(s: State, question: string, llm: ChatModel, search: Retriever.StoreSearch)
    requires Retriever.HonoursBreadth(search)
    ensures |Turn(s, question, llm, search).context| <= Retriever.K
  {
    TurnContext(s, question, llm, search);
  }

  /**
   * The `MemorySaver` the graph is compiled with. Every invocation names the same
   * `thread_id`, so it holds one thread, and as a module-level object it is shared by
   * everything that imports the graph.
   */
  class Checkpointer {
    var thread: State

    constructor ()
      ensures thread == Fresh
    {
      thread := Fresh;
    }
  }

  /** A way of answering one question on a thread: `Turn` with a fixed model and store. */
  type Answerer = (State, string) -> State

  /**
   * The answerer keeps the history and appends the question and one assistant reply
   * after it, as `Turn` does (`TurnAppendsExchange`).
   */
  ghost predicate AppendsExchange(turn: Answerer) {
    forall st: State, q: string ::
      |turn(st, q).messages| == |st.messages| + 2 &&
      turn(st, q).messages == st.messages + [Message(Human, q), Message(Ai, turn(st, q).messages[|st.messages| + 1].content)]
  }

  lemma TurnAppendsExchange(llm: ChatModel, search: Retriever.StoreSearch, turn: Answerer)
    requires forall st: State, q: string :: turn(st, q) == Turn(st, q, llm, search)
    ensures AppendsExchange(turn)
  {
    forall st: State, q: string
      ensures |turn(st, q).messages| == |st.messages| + 2 &&
        turn(st, q).messages == st.messages + [Message(Human, q), Message(Ai, turn(st, q).messages[|st.messages| + 1].content)]
    {
      TurnHistory(st, q, llm, search);
    }
  }

  /** The thread after the questions were asked one per turn, in order. */
  function Converse(s: State, questions: seq<string>, turn: Answerer): State
    decreases |questions|
  {
    if questions == [] then s
    else turn(Converse(s, questions[..|questions| - 1], turn), questions[|questions| - 1])
  }

  /** The last question and its reply keep the alternating shape of a history that
      starts at `base`. */
  lemma HistoryExtends(base: nat, p: seq<Message>, qs: seq<string>, h: seq<Message>)
    requires qs != [] && |p| == base + 2 * (|qs| - 1)
    requires forall k :: 0 <= k < |qs[..|qs| - 1]| ==>
      p[base + 2 * k] == Message(Human, qs[..|qs| - 1][k]) && p[base + 2 * k + 1].role == Ai
    requires |h| == |p| + 2 && h == p + [Message(Human, qs[|qs| - 1]), Message(Ai, h[|p| + 1].content)]
    ensures h[..base] == p[..base]
    ensures forall k :: 0 <= k < |qs| ==> h[base + 2 * k] == Message(Human, qs[k]) && h[base + 2 * k + 1].role == Ai
  {
    assert h[..|p|] == p;
    forall k | 0 <= k < |qs|
      ensures h[base + 2 * k] == Message(Human, qs[k]) && h[base + 2 * k + 1].role == Ai
    {
      var at := base + 2 * k;
      if k < |qs| - 1 {
        assert qs[..|qs| - 1][k] == qs[k];
        assert h[at] == h[..|p|][at] && h[at + 1] == h[..|p|][at + 1];
      }
    }
  }

  /**
   * N turns add 2N messages after the existing history, which is kept: the question of
   * turn k at offset 2k, the assistant's reply right after it.
   */
  lemma {:induction false} ConversationHistory(s: State, questions: seq<string>, turn: Answerer)
    requires AppendsExchange(turn)
    ensures var h := Converse(s, questions, turn).messages;
      |h| == |s.messages| + 2 * |questions| &&
      h[..|s.messages|] == s.messages &&
      forall k :: 0 <= k < |questions| ==>
        h[|s.messages| + 2 * k] == Message(Human, questions[k]) && h[|s.messages| + 2 * k + 1].role == Ai
    decreases |questions|
  {
    if questions != [] {
      var n := |questions| - 1;
      ConversationHistory(s, questions[..n], turn);
      var p := Converse(s, questions[..n], turn).messages;
      HistoryExtends(|s.messages|, p, questions, Converse(s, questions, turn).messages);
    }
  }

  /** A conversation on a fresh thread holds exactly two messages per question. */
  lemma FreshConversationLength(questions: seq<string>, llm: ChatModel, search: Retriever.StoreSearch)
    ensures |Converse(Fresh, questions, (st: State, q: string) => Turn(st, q, llm, search)).messages| == 2 * |questions|
  {
    var turn: Answerer := (st: State, q: string) => Turn(st, q, llm, search);
    TurnAppendsExchange(llm, search, turn);
    ConversationHistory(Fresh, questions, turn);
  }

  /**
   * A turn reads nothing the previous turn left in `context`, `answer` or the issue
   * fields: two states with the same history give the same turn, apart from `question`.
   */
  lemma TurnIgnoresStaleFields(s1: State, s2: State, question: string, llm: ChatModel, search: Retriever.StoreSearch)
    requires s1.messages == s2.messages
    ensures Turn(s1, question, llm, search) == Turn(s2, question, llm, search).(question := s1.question)
  {
    TurnShape(s1, question, llm, search);
    TurnShape(s2, question, llm, search);
  }
}

/**
 * The LangGraph agent of Backend/app/agents/graph.py as a closed state machine:
 * retrieve, grade, generate, END. The Gemini model is an oracle from prompt to
 * reply-or-failure; the retriever is an oracle from search settings and question
 * to documents-or-failure.
 */
module AgentGraph {
  import opened Wrappers
  import opened Text
  import opened Seqs
  import RagEngine

  /** `invoke_llm`: the reply text, or the failure the call raised. */
  type Llm = string -> Result<string, string>

  /** `get_retriever().invoke(question)` under the given search settings. */
  type Retriever = (RagEngine.RetrieverConfig, string) -> Result<seq<RagEngine.Document>, string>

  /**
   * `AgentState`. LangGraph starts a run with only `question` set, so every other
   * key may be absent (None) until a node writes it.
   */
  datatype AgentState = AgentState(
    question: string,
    documents: Option<seq<string>>,
    answer: Option<string>,
    runWebSearch: Option<bool>)

  /** The partial dict a node returns; present keys overwrite the state's values. */
  datatype Update = Update(
    question: Option<string>,
    documents: Option<seq<string>>,
    answer: Option<string>,
    runWebSearch: Option<bool>)

  function Override<T>(current: Option<T>, written: Option<T>): Option<T> {
    if written.Some? then written else current
  }

  /** How LangGraph merges a node's return value into the state. */
  function Apply(s: AgentState, u: Update): AgentState {
    AgentState(
      if u.question.Some? then u.question.value else s.question,
      Override(s.documents, u.documents),
      Override(s.answer, u.answer),
      Override(s.runWebSearch, u.runWebSearch))
  }

  /** The truthiness of `state.get("answer")`. */
  predicate HasAnswer(s: AgentState) {
    s.answer.Some? && s.answer.value != ""
  }

  // ---------------------------------------------------------------- retrieve

  function PageContents(docs: seq<RagEngine.Document>): (r: seq<string>)
    ensures |r| == |docs|
    ensures forall i :: 0 <= i < |docs| ==> r[i] == docs[i].pageContent
  {
    seq(|docs|, i requires 0 <= i < |docs| => docs[i].pageContent)
  }

  /** `retrieve_node`: the retrieved page texts in retriever order, and no web search. */
  function RetrieveNode(engine: RagEngine.Engine, s: AgentState, retriever: Retriever): (r: Result<Update, string>)
    ensures retriever(RagEngine.GetRetriever(engine), s.question).Failure? ==>
              r == Failure(retriever(RagEngine.GetRetriever(engine), s.question).error)
    ensures retriever(RagEngine.GetRetriever(engine), s.question).Success? ==>
              && r.Success?
              && r.value.documents.Some?
              && |r.value.documents.value| == |retriever(RagEngine.GetRetriever(engine), s.question).value|
              && (forall i :: 0 <= i < |r.value.documents.value| ==>
                    r.value.documents.value[i] == retriever(RagEngine.GetRetriever(engine), s.question).value[i].pageContent)
              && r.value.runWebSearch == Some(false)
              && r.value.question.None? && r.value.answer.None?
  {
    match retriever(RagEngine.GetRetriever(engine), s.question)
    case Failure(e) => Failure(e)
    case Success(docs) => Success(Update(None, Some(PageContents(docs)), None, Some(false)))
  }

  // ---------------------------------------------------------------- grade

  function GradePrompt(question: string, doc: string): string {
    "Is this document relevant to: " + question + "? Answer only 'yes' or 'no'.\nDoc: " + doc
  }

  /** A document is kept when the reply, lower-cased, contains "yes", or when the grading call failed. */
  predicate Relevant(reply: Result<string, string>) {
    reply.Failure? || Contains(Lower(reply.value), "yes")
  }

  function GradePredicate(question: string, llm: Llm): string -> bool {
    doc => Relevant(llm(GradePrompt(question, doc)))
  }

  /** The documents `grade_documents_node` keeps. */
  function Graded(question: string, docs: seq<string>, llm: Llm): seq<string> {
    Filter(docs, GradePredicate(question, llm))
  }

  /** The prompts of the grading calls, one per document, in retrieval order. */
  function GradePrompts(question: string, docs: seq<string>): (r: seq<string>)
    ensures |r| == |docs|
    ensures forall i :: 0 <= i < |docs| ==> r[i] == GradePrompt(question, docs[i])
  {
    seq(|docs|, i requires 0 <= i < |docs| => GradePrompt(question, docs[i]))
  }

  /**
   * `grade_documents_node`: one grading call per document, in order, appending the
   * kept ones. It writes only `documents`; the `search` flag it computes is dropped.
   */
  method GradeDocumentsNode(s: AgentState, llm: Llm) returns (u: Update, prompts: seq<string>)
    requires s.documents.Some?
    ensures u == Update(None, Some(Graded(s.question, s.documents.value, llm)), None, None)
    ensures prompts == GradePrompts(s.question, s.documents.value)
  {
    var documents := s.documents.value;
    var filteredDocs: seq<string> := [];
    prompts := [];
    var search := false;
    var i := 0;
    while i < |documents|
      invariant 0 <= i <= |documents|
      invariant filteredDocs == Graded(s.question, documents[..i], llm)
      invariant prompts == GradePrompts(s.question, documents[..i])
    {
      var doc := documents[i];
      var prompt := GradePrompt(s.question, doc);
      prompts := prompts + [prompt];
      var res := llm(prompt);
      assert documents[..i + 1][..i] == documents[..i];
      if res.Failure? || Contains(Lower(res.value), "yes") {
        filteredDocs := filteredDocs + [doc];
      }
      i := i + 1;
    }
    assert documents[..i] == documents;
    if filteredDocs == [] {
      search := true;
    }
    u := Update(None, Some(filteredDocs), None, None);
  }

  /** The kept documents are the retrieved ones in their original order, with some left out. */
  lemma GradedIsOrderedSubset(question: string, docs: seq<string>, llm: Llm)
    ensures IsSubsequence(Graded(question, docs, llm), docs)
    ensures |Graded(question, docs, llm)| <= |docs|
  {
    FilterIsSubsequence(docs, GradePredicate(question, llm));
  }

  /** A document is kept iff it was retrieved and its grading reply says "yes" (any case) or failed. */
  lemma GradedKeepsIff(question: string, docs: seq<string>, llm: Llm, d: string)
    ensures d in Graded(question, docs, llm) <==>
              d in docs && (llm(GradePrompt(question, d)).Failure?
                            || Contains(Lower(llm(GradePrompt(question, d)).value), "yes"))
  {
    FilterMembership(docs, GradePredicate(question, llm), d);
  }

  /** Fail-open: when every grading call fails, every retrieved document is kept. */
  lemma GradingOutageKeepsAll(question: string, docs: seq<string>, llm: Llm)
    requires forall i :: 0 <= i < |docs| ==> llm(GradePrompt(question, docs[i])).Failure?
    ensures Graded(question, docs, llm) == docs
  {
    FilterKeepsAll(docs, GradePredicate(question, llm));
  }

  /** The verdict ignores letter case and accepts "yes" anywhere in the reply. */
  lemma RelevantExamples()
    ensures Relevant(Success("Yes"))
    ensures Relevant(Success("YES."))
    ensures !Relevant(Success("No"))
    ensures Relevant(Failure("timeout"))
  {
  }

  // ---------------------------------------------------------------- generate

  function GeneratePrompt(context: string, question: string): string {
    "Based on the following context, answer the question.\n\nContext: " + context
    + "\n\nQuestion: " + question + "\n\nAnswer:"
  }

  /** The answer `generative_node` writes: the model's reply, or "Error: " and the failure text. */
  function GeneratedAnswer(question: string, docs: seq<string>, llm: Llm): string {
    match llm(GeneratePrompt(Join(docs, "\n\n"), question))
    case Success(reply) => reply
    case Failure(e) => "Error: " + e
  }

  /**
   * `generative_node`: a state that already has an answer comes back unchanged;
   * otherwise only `answer` is written, and a model failure becomes an answer
   * rather than an exception.
   */
  function GenerativeNode(s: AgentState, llm: Llm): (u: Update)
    requires HasAnswer(s) || s.documents.Some?
    ensures HasAnswer(s) ==> Apply(s, u) == s
    ensures !HasAnswer(s) ==> Apply(s, u) == s.(answer := u.answer) && u.answer.Some?
    ensures !HasAnswer(s) ==>
              var reply := llm(GeneratePrompt(Join(s.documents.value, "\n\n"), s.question));
              (reply.Success? ==> u.answer.value == reply.value)
              && (reply.Failure? ==> u.answer.value == "Error: " + reply.error)
  {
    if HasAnswer(s) then Update(Some(s.question), s.documents, s.answer, s.runWebSearch)
    else Update(None, None, Some(GeneratedAnswer(s.question, s.documents.value, llm)), None)
  }

  /** The generation prompt carries the question and every graded document. */
  lemma GeneratePromptEmbeds(docs: seq<string>, question: string)
    ensures Contains(GeneratePrompt(Join(docs, "\n\n"), question), question)
    ensures forall i :: 0 <= i < |docs| ==> Contains(GeneratePrompt(Join(docs, "\n\n"), question), docs[i])
  {
    var context := Join(docs, "\n\n");
    PromptHasQuestion(context, question);
    forall i | 0 <= i < |docs|
      ensures Contains(GeneratePrompt(context, question), docs[i])
    {
      JoinContainsPart(docs, "\n\n", i);
      PromptHasContext(context, question, docs[i]);
    }
  }

  lemma PromptHasQuestion(context: string, question: string)
    ensures Contains(GeneratePrompt(context, question), question)
  {
    var before := "Based on the following context, answer the question.\n\nContext: " + context + "\n\nQuestion: ";
    var after := question + "\n\nAnswer:";
    assert GeneratePrompt(context, question) == before + after;
    assert StartsWith(after, question);
    ContainsInSuffix(before, after, question);
  }

  lemma PromptHasContext(context: string, question: string, part: string)
    requires Contains(context, part)
    ensures Contains(GeneratePrompt(context, question), part)
  {
    var head := "Based on the following context, answer the question.\n\nContext: ";
    var tail := "\n\nQuestion: " + question + "\n\nAnswer:";
    assert GeneratePrompt(context, question) == head + (context + tail);
    ContainsInPrefix(context, tail, part);
    ContainsInSuffix(head, context + tail, part);
  }

  // ---------------------------------------------------------------- the graph

  /** The nodes of the compiled workflow; `Finish` is LangGraph's END. */
  datatype Node = Retrieve | Grade | Generate | Finish

  /** `decide_to_generate`: the conditional edge out of "grade". */
  function DecideToGenerate(s: AgentState): (route: string)
    ensures route in GRADE_ROUTES && GRADE_ROUTES[route] == Generate
  {
    "generate"
  }

  /** The path map given to `add_conditional_edges("grade", ...)`. */
  const GRADE_ROUTES: map<string, Node> := map["generate" := Generate]

  /** The edges: retrieve -> grade -> (decide_to_generate) -> generate -> END. */
  function Successor(n: Node, s: AgentState): Node
    requires n != Finish
  {
    match n
    case Retrieve => Grade
    case Grade => GRADE_ROUTES[DecideToGenerate(s)]
    case Generate => Finish
  }

  function Rank(n: Node): nat {
    match n
    case Retrieve => 3
    case Grade => 2
    case Generate => 1
    case Finish => 0
  }

  /** The nodes the workflow's edges lead through from `n` to END, written out. */
  function PathFrom(n: Node): seq<Node> {
    match n
    case Retrieve => [Retrieve, Grade, Generate]
    case Grade => [Grade, Generate]
    case Generate => [Generate]
    case Finish => []
  }

  /** The nodes a run visited, in order, and the final state. */
  datatype Trace = Trace(visited: seq<Node>, final: AgentState)

  /** The state update a node makes (spec of the node functions). */
  function StepUpdate(n: Node, engine: RagEngine.Engine, s: AgentState, retriever: Retriever, llm: Llm)
    : Result<Update, string>
    requires n != Finish
    requires n == Retrieve || s.documents.Some?
  {
    match n
    case Retrieve => RetrieveNode(engine, s, retriever)
    case Grade => Success(Update(None, Some(Graded(s.question, s.documents.value, llm)), None, None))
    case Generate => Success(GenerativeNode(s, llm))
  }

  /** Execute the graph from node `n`; an exception raised by a node ends the run. */
  function Run(n: Node, engine: RagEngine.Engine, s: AgentState, retriever: Retriever, llm: Llm)
    : (r: Result<Trace, string>)
    requires n == Retrieve || n == Finish || s.documents.Some?
    ensures r.Success? ==> r.value.visited == PathFrom(n)
    ensures r.Success? ==> r.value.final.question == s.question
    ensures r.Success? && n != Finish ==> r.value.final.documents.Some? && r.value.final.answer.Some?
    decreases Rank(n)
  {
    if n == Finish then Success(Trace([], s))
    else match StepUpdate(n, engine, s, retriever, llm)
      case Failure(e) => Failure(e)
      case Success(u) =>
        StepKeepsQuestion(n, engine, s, retriever, llm);
        var next := Successor(n, s);
        SuccessorDescends(n, s);
        match Run(next, engine, Apply(s, u), retriever, llm)
        case Failure(e) => Failure(e)
        case Success(t) => Success(Trace([n] + t.visited, t.final))
  }

  /** Each edge leads one step down the chain retrieve, grade, generate, END. */
  lemma SuccessorDescends(n: Node, s: AgentState)
    requires n != Finish
    ensures Rank(Successor(n, s)) == Rank(n) - 1 && Successor(n, s) != Retrieve
    ensures PathFrom(n) == [n] + PathFrom(Successor(n, s))
  {
  }

  /** A node keeps the question and leaves documents behind it; generate leaves an answer. */
  lemma StepKeepsQuestion(n: Node, engine: RagEngine.Engine, s: AgentState, retriever: Retriever, llm: Llm)
    requires n != Finish
    requires n == Retrieve || s.documents.Some?
    ensures StepUpdate(n, engine, s, retriever, llm).Success? ==>
              var after := Apply(s, StepUpdate(n, engine, s, retriever, llm).value);
              after.question == s.question && after.documents.Some? && (n == Generate ==> after.answer.Some?)
  {
  }

  /** `agent_graph` run on `{"question": question}`. */
  function Invoke(question: string, engine: RagEngine.Engine, retriever: Retriever, llm: Llm): (r: Result<Trace, string>)
    ensures r.Success? ==> r.value.visited == [Retrieve, Grade, Generate]
    ensures r.Success? ==>
              r.value.final.question == question && r.value.final.documents.Some? && r.value.final.answer.Some?
  {
    Run(Retrieve, engine, AgentState(question, None, None, None), retriever, llm)
  }

  /**
   * Every run is the fixed chain retrieve, grade, generate, END, even when grading
   * keeps nothing; it fails only when retrieval raises. The final state holds the
   * graded page texts, an answer from the generate node (which never short-circuits,
   * since a run starts without an answer), and `run_web_search` false.
   */
  lemma {:induction false} FixedChain(question: string, engine: RagEngine.Engine, retriever: Retriever, llm: Llm)
    ensures var found := retriever(RagEngine.GetRetriever(engine), question);
            found.Failure? ==> Invoke(question, engine, retriever, llm) == Failure(found.error)
    ensures var found := retriever(RagEngine.GetRetriever(engine), question);
            found.Success? ==>
              var graded := Graded(question, PageContents(found.value), llm);
              Invoke(question, engine, retriever, llm)
              == Success(Trace([Retrieve, Grade, Generate],
                               AgentState(question, Some(graded),
                                          Some(GeneratedAnswer(question, graded, llm)), Some(false))))
  {
    var s0 := AgentState(question, None, None, None);
    var found := retriever(RagEngine.GetRetriever(engine), question);
    if found.Success? {
      var u1 := Update(None, Some(PageContents(found.value)), None, Some(false));
      assert StepUpdate(Retrieve, engine, s0, retriever, llm) == Success(u1);
      var s1 := Apply(s0, u1);
      assert s1 == AgentState(question, Some(PageContents(found.value)), None, Some(false));
      var graded := Graded(question, PageContents(found.value), llm);
      var s2 := Apply(s1, StepUpdate(Grade, engine, s1, retriever, llm).value);
      assert s2 == AgentState(question, Some(graded), None, Some(false));
      var u3 := GenerativeNode(s2, llm);
      assert StepUpdate(Generate, engine, s2, retriever, llm) == Success(u3);
      var s3 := Apply(s2, u3);
      assert s3 == AgentState(question, Some(graded), Some(GeneratedAnswer(question, graded, llm)), Some(false));
      assert Successor(Generate, s2) == Finish;
      assert Run(Finish, engine, s3, retriever, llm) == Success(Trace([], s3));
      assert Run(Generate, engine, s2, retriever, llm) == Success(Trace([Generate] + [], s3));
      assert [Generate] + [] == [Generate];
      assert Successor(Grade, s1) == Generate;
      assert Run(Grade, engine, s1, retriever, llm) == Success(Trace([Grade] + [Generate], s3));
      assert Successor(Retrieve, s0) == Grade;
      assert [Grade] + [Generate] == [Grade, Generate];
      assert [Retrieve] + [Grade, Generate] == [Retrieve, Grade, Generate];
      assert Run(Retrieve, engine, s0, retriever, llm) == Success(Trace([Retrieve] + [Grade, Generate], s3));
    }
  }

  /**
   * Under the retriever's `k = 1` setting (an assumption about Chroma's MMR search),
   * a run grades and answers from at most one document.
   */
  lemma AtMostOneDocument(question: string, engine: RagEngine.Engine, retriever: Retriever, llm: Llm)
    requires retriever(RagEngine.GetRetriever(engine), question).Success? ==>
               |retriever(RagEngine.GetRetriever(engine), question).value| <= RagEngine.GetRetriever(engine).k
    ensures Invoke(question, engine, retriever, llm).Success? ==>
              |Invoke(question, engine, retriever, llm).value.final.documents.value| <= 1
  {
  }
}

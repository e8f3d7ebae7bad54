/** src/RAG-agent.ts: the topic-gated retrieval workflow
      topic_decision -> (on_topic) retrieve -> generate_answer -> END
      topic_decision -> (off_topic) off_topic_response -> END
    The grading model, the retriever and the answering chain are oracles. */
module RagAgent {
  import opened Messages
  import opened Ascii

  const Refusal: string := "I cant respond to that!"

  /** The three external calls: the structured grading model's `score` for a question,
      the retriever's documents for a question, and the RAG chain's answer for
      the documents and the question. */
  datatype Oracles = Oracles(
    grade: string -> string,
    retriever: string -> seq<Document>,
    rag: (Option<seq<Document>>, string) -> Message)

  /** The `AgentState` channels; `documents` and `onTopic` are None until a node sets them. */
  datatype Snapshot = Snapshot(
    messages: seq<Message>,
    documents: Option<seq<Document>>,
    onTopic: Option<string>)

  /** What `questionClassifier` does: stores the lower-cased score of the last message. */
  function Classify(s: Snapshot, grade: string -> string): Snapshot
    requires |s.messages| > 0
  {
    s.(onTopic := Some(Lower(grade(Last(s.messages).content))))
  }

  /** What `retrieve` does: replaces the documents, or nothing when there is no message. */
  function RetrieveDocuments(s: Snapshot, retriever: string -> seq<Document>): Snapshot
  {
    if |s.messages| == 0 then s
    else s.(documents := Some(retriever(Last(s.messages).content)))
  }

  /** What `generateAnswer` does: appends the chain's answer, or nothing when there is no message. */
  function Generate(s: Snapshot, rag: (Option<seq<Document>>, string) -> Message): Snapshot
  {
    if |s.messages| == 0 then s
    else s.(messages := s.messages + [rag(s.documents, Last(s.messages).content)])
  }

  /** What `offTopicResponse` does. */
  function Refuse(s: Snapshot): Snapshot
  {
    s.(messages := s.messages + [AI(Refusal, [])])
  }

  datatype Route = OnTopic | OffTopic

  /** `onTopicRouter`: fail-closed, only the exact string "yes" is on topic. */
  function OnTopicRouter(onTopic: Option<string>): (r: Route)
    ensures r == OnTopic <==> onTopic == Some("yes")
  {
    if onTopic == Some("yes") then OnTopic else OffTopic
  }

  /** After classification the route is on topic exactly when the grading model's score
      spells "yes" in any case: "Yes" and "YES" pass, "yes.", " yes" and "No" do not. */
  lemma ClassifiedRoute(s: Snapshot, grade: string -> string)
    requires |s.messages| > 0
    ensures var score := grade(Last(s.messages).content);
      OnTopicRouter(Classify(s, grade).onTopic) == OnTopic <==> EqualIgnoringCase(score, "yes")
  {
    LowerMatchesLiteral(grade(Last(s.messages).content), "yes");
  }

  lemma ScoreExamples()
    ensures OnTopicRouter(Some(Lower("Yes"))) == OnTopic
    ensures OnTopicRouter(Some(Lower("YES"))) == OnTopic
    ensures OnTopicRouter(Some(Lower("yes."))) == OffTopic
    ensures OnTopicRouter(Some(Lower(" yes"))) == OffTopic
    ensures OnTopicRouter(Some(Lower("No"))) == OffTopic
  {
    LowerMatchesLiteral("Yes", "yes");
    LowerMatchesLiteral("YES", "yes");
  }

  datatype Node = TopicDecisionNode | RetrieveNode | GenerateAnswerNode | OffTopicResponseNode | End

  /** The edge from START. */
  const Entry: Node := TopicDecisionNode

  /** The graph's edges, evaluated on the state a node has just produced. */
  function Next(n: Node, s: Snapshot): Node
  {
    match n
    case TopicDecisionNode => if OnTopicRouter(s.onTopic) == OnTopic then RetrieveNode else OffTopicResponseNode
    case RetrieveNode => GenerateAnswerNode
    case GenerateAnswerNode => End
    case OffTopicResponseNode => End
    case End => End
  }

  /** Every edge leads to a node of smaller rank: the graph is acyclic. */
  function Rank(n: Node): nat
  {
    match n
    case TopicDecisionNode => 3
    case RetrieveNode => 2
    case GenerateAnswerNode | OffTopicResponseNode => 1
    case End => 0
  }

  lemma EdgesDescend(n: Node, s: Snapshot)
    requires n != End
    ensures Rank(Next(n, s)) < Rank(n)
  {
  }

  /** The node's function applied to the state. */
  function Apply(n: Node, s: Snapshot, o: Oracles): (r: Snapshot)
    requires |s.messages| > 0
    ensures |r.messages| > 0
  {
    match n
    case TopicDecisionNode => Classify(s, o.grade)
    case RetrieveNode => RetrieveDocuments(s, o.retriever)
    case GenerateAnswerNode => Generate(s, o.rag)
    case OffTopicResponseNode => Refuse(s)
    case End => s
  }

  datatype Run = Run(final: Snapshot, trace: seq<Node>)

  /** The run from node `n`: the final state and the nodes visited, in order. */
  function Execute(n: Node, s: Snapshot, o: Oracles): Run
    requires |s.messages| > 0
    decreases Rank(n)
  {
    if n == End then Run(s, [])
    else
      var s' := Apply(n, s, o);
      var rest := Execute(Next(n, s'), s', o);
      Run(rest.final, [n] + rest.trace)
  }

  /** One step of a run: the node's function, then the rest from the next node. */
  lemma ExecuteStep(n: Node, s: Snapshot, done: seq<Node>, o: Oracles)
    requires n != End && |s.messages| > 0
    ensures var s' := Apply(n, s, o);
      var rest := Execute(Next(n, s'), s', o);
      && Execute(n, s, o).final == rest.final
      && done + Execute(n, s, o).trace == (done + [n]) + rest.trace
  {
  }

  /** Off topic: topic_decision then off_topic_response; exactly the refusal is
      appended, the documents are untouched and neither the retriever nor the
      answering chain runs. */
  lemma OffTopicRun(s: Snapshot, o: Oracles)
    requires |s.messages| > 0
    requires !EqualIgnoringCase(o.grade(Last(s.messages).content), "yes")
    ensures var r := Execute(Entry, s, o);
      && r.trace == [TopicDecisionNode, OffTopicResponseNode]
      && r.final.messages == s.messages + [AI(Refusal, [])]
      && r.final.documents == s.documents
      && r.final.onTopic == Some(Lower(o.grade(Last(s.messages).content)))
  {
    ClassifiedRoute(s, o.grade);
    var s1 := Classify(s, o.grade);
    assert Execute(OffTopicResponseNode, s1, o) == Run(Refuse(s1), [OffTopicResponseNode]);
  }

  /** On topic: topic_decision, retrieve, generate_answer, each once and in that
      order; the documents are the retriever's answer to the last message and the
      one appended message is the chain's answer over them. */
  lemma OnTopicRun(s: Snapshot, o: Oracles)
    requires |s.messages| > 0
    requires EqualIgnoringCase(o.grade(Last(s.messages).content), "yes")
    ensures var question := Last(s.messages).content;
      var docs := Some(o.retriever(question));
      var r := Execute(Entry, s, o);
      && r.trace == [TopicDecisionNode, RetrieveNode, GenerateAnswerNode]
      && r.final.documents == docs
      && r.final.messages == s.messages + [o.rag(docs, question)]
      && r.final.onTopic == Some("yes")
  {
    ClassifiedRoute(s, o.grade);
    var s1 := Classify(s, o.grade);
    var s2 := RetrieveDocuments(s1, o.retriever);
    var s3 := Generate(s2, o.rag);
    assert Execute(GenerateAnswerNode, s2, o) == Run(s3, [GenerateAnswerNode]);
    assert Execute(RetrieveNode, s1, o) == Run(s3, [RetrieveNode, GenerateAnswerNode]);
  }

  /** Every run stops after at most three nodes, starts at topic_decision, and
      ends with exactly one message more than it started with; the existing
      messages are kept. */
  lemma RunAnswersOnce(s: Snapshot, o: Oracles)
    requires |s.messages| > 0
    ensures var r := Execute(Entry, s, o);
      && 2 <= |r.trace| <= 3
      && r.trace[0] == TopicDecisionNode
      && End !in r.trace
      && |r.final.messages| == |s.messages| + 1
      && r.final.messages[..|s.messages|] == s.messages
  {
    if EqualIgnoringCase(o.grade(Last(s.messages).content), "yes") {
      OnTopicRun(s, o);
    } else {
      OffTopicRun(s, o);
    }
  }

  /** A run that starts without documents ends with documents only if the
      question was judged on topic, and runs the retriever exactly then. */
  lemma DocumentsOnlyOnTopic(s: Snapshot, o: Oracles)
    requires |s.messages| > 0 && s.documents == None
    ensures var r := Execute(Entry, s, o);
      && (r.final.documents.Some? <==> r.final.onTopic == Some("yes"))
      && (RetrieveNode in r.trace <==> r.final.onTopic == Some("yes"))
  {
    if EqualIgnoringCase(o.grade(Last(s.messages).content), "yes") {
      OnTopicRun(s, o);
    } else {
      OffTopicRun(s, o);
      LowerMatchesLiteral(o.grade(Last(s.messages).content), "yes");
    }
  }

  /** The retriever is configured with `k: 2`; if it honours that, a run never
      holds more than two documents. */
  lemma AtMostKDocuments(s: Snapshot, o: Oracles)
    requires |s.messages| > 0 && s.documents == None
    requires forall q :: |o.retriever(q)| <= 2
    ensures var r := Execute(Entry, s, o);
      r.final.documents.Some? ==> |r.final.documents.value| <= 2
  {
    if EqualIgnoringCase(o.grade(Last(s.messages).content), "yes") {
      OnTopicRun(s, o);
    } else {
      OffTopicRun(s, o);
    }
  }

  /** The shared state object the nodes mutate in place. */
  class AgentState {
    var messages: seq<Message>
    var documents: Option<seq<Document>>
    var onTopic: Option<string>

    function State(): Snapshot
      reads this
    {
      Snapshot(messages, documents, onTopic)
    }

    /** `graph.invoke({ messages })`: the other channels start unset. */
    constructor (initial: seq<Message>)
      ensures State() == Snapshot(initial, None, None)
    {
      messages, documents, onTopic := initial, None, None;
    }

    /** `questionClassifier`: reads the last message, so it needs one. */
    method QuestionClassifier(grade: string -> string)
      requires |messages| > 0
      modifies this
      ensures State() == Classify(old(State()), grade)
    {
      var question := messages[|messages| - 1].content;
      var score := grade(question);
      onTopic := Some(Lower(score));
    }

    /** `retrieve`. */
    method Retrieve(retriever: string -> seq<Document>)
      modifies this
      ensures State() == RetrieveDocuments(old(State()), retriever)
    {
      if |messages| == 0 {
        return;
      }
      var question := messages[|messages| - 1].content;
      documents := Some(retriever(question));
    }

    /** `generateAnswer`. */
    method GenerateAnswer(rag: (Option<seq<Document>>, string) -> Message)
      modifies this
      ensures State() == Generate(old(State()), rag)
    {
      if |messages| == 0 {
        return;
      }
      var question := messages[|messages| - 1].content;
      var answer := rag(documents, question);
      messages := messages + [answer];
    }

    /** `offTopicResponse`. */
    method OffTopicResponse()
      modifies this
      ensures State() == Refuse(old(State()))
    {
      messages := messages + [AI(Refusal, [])];
    }

    /** The compiled graph run on this state: each node in turn, following the edges,
        until END; returns the nodes visited. */
    method Invoke(o: Oracles) returns (trace: seq<Node>)
      requires |messages| > 0
      modifies this
      ensures Run(State(), trace) == Execute(Entry, old(State()), o)
    {
      ghost var goal := Execute(Entry, State(), o);
      var node := Entry;
      trace := [];
      while node != End
        invariant |messages| > 0
        invariant Execute(node, State(), o).final == goal.final
        invariant trace + Execute(node, State(), o).trace == goal.trace
        decreases Rank(node)
      {
        ghost var before := State();
        RunNode(node, o);
        ExecuteStep(node, before, trace, o);
        trace := trace + [node];
        node := Next(node, State());
      }
      assert trace + [] == trace;
    }

    /** Runs one node's function on this state. */
    method RunNode(node: Node, o: Oracles)
      requires node != End && |messages| > 0
      modifies this
      ensures State() == Apply(node, old(State()), o)
    {
      match node {
        case TopicDecisionNode => QuestionClassifier(o.grade);
        case RetrieveNode => Retrieve(o.retriever);
        case GenerateAnswerNode => GenerateAnswer(o.rag);
        case OffTopicResponseNode => OffTopicResponse();
      }
    }
  }
}

# langgraph-course: the scripts' own logic, modelled in Dafny

The repository is a set of LangChain/LangGraph demo scripts that answer
questions about the Bella Vista restaurant. Almost all work is done by a hosted
chat model, an embedding model and a vector store. This project models the logic
the scripts write themselves and proves what it promises. Every model, retriever
and prebuilt tool node is a function-typed parameter (an oracle). Each
property holds whatever those services answer, provided every call to them
returns: a call that fails is not modelled (see "## Left out"). Properties
that need more of a service say so in their own `requires`, as
`RagAgent.AtMostKDocuments` does for the retriever's `k: 2`.

- `Messages` (messages.dfy): chat messages (human, AI with tool calls, tool
  replies), tool calls and documents.
- `Ascii` (ascii.dfy): `toLowerCase` on ASCII letters, and the lemma that
  comparing lower-cased strings is exactly case-insensitive comparison.
- `RagAgent` (rag_agent.dfy): the topic-gated workflow of src/RAG-agent.ts.
  - The nodes mutate a shared `AgentState` object, so they are methods of a
    class. Each method's new state is a pure function of the old one.
  - The graph is a node enum with an edge function `Next`. `Rank` decreases
    along every edge, which proves that every run terminates.
  - `Execute` is the run as a function. `AgentState.Invoke` runs the nodes in a
    loop and is proved equal to `Execute`. The path lemmas are proved about
    `Execute`.
- `ToolCalling` (tool_calling.dfy): the two tool stubs, `toolMapping`, and the
  dispatch loop of `main`. `main` is `Session.Respond`, a method over the
  module-level `messages` list. Its loop is proved against the function
  `Replies`, and lemmas tie `Replies` to the recognised calls.
- `AgentLoop` (agent_loop.dfy): the cyclic agent/tools graph of
  src/agent-basics.ts. src/RAG-agent-tool.ts uses the same code for it.
  - Whether that graph stops depends on the model, so `Run` takes fuel.
  - The lemmas cover every run that stops within its fuel.
- `RagAgentTool` (rag_agent_tool.dfy): the `off_topic` tool of src/RAG-agent-tool.ts.
- `Basic` (basic.dfy): the `InputState` reducers of src/basic.ts, their fold
  laws, the length router and the linear graph.
- `RagNeon` (rag_neon.dfy): `formatDocs`.

The `get_weather` function of src/agent-basics.ts:23-29 is character for
character the one of src/tool-calling.ts:18-24. It is modelled once, as
`ToolCalling.GetWeather`. The `agent`/`callModel` node and `shouldContinue` of
src/RAG-agent-tool.ts:58-71 likewise match those of src/agent-basics.ts and are
modelled once in `AgentLoop`.

## Model

| member | source | states |
|---|---|---|
| Ascii.ToLowerEqualIff | src/tool-calling.ts:19 | lower-casing two characters gives the same character iff they are equal or are the upper- and lower-case forms of one ASCII letter (both directions) |
| Ascii.LowerEqualIff | src/tool-calling.ts:19 | `a.toLowerCase() === b.toLowerCase()` holds iff the two strings differ only in the case of their letters (both directions) |
| Ascii.LowerMatchesLiteral | src/RAG-agent.ts:91 | a lower-cased input equals a lower-case literal iff it spells that literal in any mix of cases |
| RagAgent.OnTopicRouter | src/RAG-agent.ts:95-100 | the route is on_topic iff `onTopic` is exactly `"yes"`; anything else, including unset, is off_topic (fail-closed) |
| RagAgent.ClassifiedRoute | src/RAG-agent.ts:88-100 | after classification the run goes on topic iff the grading model's score spells "yes" in any case |
| RagAgent.ScoreExamples | src/RAG-agent.ts:91-99 | "Yes" and "YES" route on topic; "yes.", " yes" and "No" route off topic |
| RagAgent.EdgesDescend | src/RAG-agent.ts:142-149 | every edge of the graph leads to a node of strictly smaller rank, so the graph is acyclic and every run ends |
| RagAgent.OffTopicRun | src/RAG-agent.ts:132-149 | off topic, the run visits topic_decision then off_topic_response only. It appends exactly the AIMessage "I cant respond to that!" and leaves `documents` unchanged. Neither the retriever nor the answer chain runs |
| RagAgent.OnTopicRun | src/RAG-agent.ts:102-148 | on topic, the run visits topic_decision, retrieve and generate_answer once each, in that order. `documents` is the retriever's result for the last message, and the one appended message is the chain's answer over those documents |
| RagAgent.RunAnswersOnce | src/RAG-agent.ts:137-150 | every run starts at topic_decision, visits two or three nodes and ends with exactly one message more, keeping the earlier messages |
| RagAgent.DocumentsOnlyOnTopic | src/RAG-agent.ts:102-149 | a run that starts without documents ends with documents, and runs the retriever, iff the verdict is "yes" |
| RagAgent.AtMostKDocuments | src/RAG-agent.ts:51 | if the retriever honours its `k: 2` setting, a run holds at most two documents |
| RagAgent.AgentState.QuestionClassifier | src/RAG-agent.ts:64-93 | needs a non-empty message list. Sets `onTopic` to the lower-cased score for the last message's content and changes nothing else |
| RagAgent.AgentState.Retrieve | src/RAG-agent.ts:102-115 | replaces `documents` with the retriever's result for the last message and leaves the messages alone. With no message it changes nothing |
| RagAgent.AgentState.GenerateAnswer | src/RAG-agent.ts:117-130 | appends exactly the chain's answer and changes nothing else. With no message it changes nothing |
| RagAgent.AgentState.OffTopicResponse | src/RAG-agent.ts:132-135 | appends exactly the refusal AIMessage and changes nothing else |
| RagAgent.AgentState.Invoke | src/RAG-agent.ts:137-150 | running the nodes in place along the edges until END yields the state and the node sequence of `Execute` |
| ToolCalling.GetWeatherSpec | src/tool-calling.ts:18-24 | the answer is the 15-degrees cloudy text iff the location is "munich" in any case, and the 32-degrees sunny text otherwise |
| ToolCalling.CheckSeatingAvailabilitySpec | src/tool-calling.ts:34-45 | the outdoor text iff the inputs are ("munich", "outdoor") in any case; the indoor text iff they are ("munich", "indoor"); the unavailable text otherwise |
| ToolCalling.ToolsIgnoreCase | src/tool-calling.ts:19-36 | inputs that differ only in letter case give identical results from both tools |
| ToolCalling.ToolMappingKeys | src/tool-calling.ts:57-60 | `toolMapping` has exactly the two keys of `TOOL_NAMES`, and the empty name is not one of them |
| ToolCalling.ThrowsIff | src/tool-calling.ts:80-103 | the loop ends in an exception iff the tool of some call throws |
| ToolCalling.ThrownStays | src/tool-calling.ts:88-90 | once a tool throws, no later call appends anything and the loop still ends in the exception |
| ToolCalling.RepliesMatchRecognised | src/tool-calling.ts:80-103 | when no tool throws, one ToolMessage is appended per recognised call, in call order, carrying that call's id and its tool's result. So there are as many as there are recognised calls, and at most one per call |
| ToolCalling.UnknownCallIsSkipped | src/tool-calling.ts:83-86 | a call with an empty or unknown name appends nothing and does not stop the loop: removing it changes nothing |
| ToolCalling.Session.AnswerToolCall | src/tool-calling.ts:81-102 | an unnamed or unknown call appends nothing; a recognised one appends one ToolMessage with its tool's result and the call's id, or throws if the tool throws |
| ToolCalling.Session.AnswerToolCalls | src/tool-calling.ts:80-103 | the loop appends exactly `Replies` of the calls and throws iff `Throws` holds of them |
| ToolCalling.Session.Respond | src/tool-calling.ts:68-107 | with no tool calls, `messages` is untouched and the model is not asked again. Otherwise the reply AIMessage is appended first, then exactly `Replies` of the calls. The model is asked a second time iff no tool threw |
| AgentLoop.ShouldContinue | src/agent-basics.ts:32-40 | "tools" iff the last message has a non-empty `tool_calls`; END otherwise, also for an empty list |
| AgentLoop.CallModelAddsOne | src/agent-basics.ts:55-61 | the agent node adds exactly one message, the model's answer to the whole conversation, after the earlier messages |
| AgentLoop.ToolsReturnToAgent | src/agent-basics.ts:66-71 | the tools node always leads back to the agent, never to END; the agent leads to tools iff the last message asks for tools |
| AgentLoop.StoppedRunHasNoToolCalls | src/agent-basics.ts:32-71 | a run that stops ends with the model's answer to the conversation before it, with no tool calls, after the input messages |
| AgentLoop.RunAlternates | src/agent-basics.ts:66-71 | a run from START alternates agent, tools, agent, ... and ends with the agent |
| AgentLoop.MoreFuelSameOutcome | src/agent-basics.ts:66-71 | the fuel bound only cuts runs short: a run that stops gives the same outcome with any larger fuel |
| AgentLoop.NoToolCallsStopsAtOnce | src/RAG-agent-tool.ts:58-80 | if the model asks for no tool, the run is the agent alone and appends exactly its reply |
| RagAgentTool.OffTopicToolIgnoresInput | src/RAG-agent-tool.ts:43-46 | the `off_topic` tool returns "Forbidden - do not respond to the user" whatever its input |
| Basic.FoldIsCombinedUpdate | src/basic.ts:10-23 | for an associative reducer with an identity, folding updates one at a time equals reducing once by their combined update |
| Basic.StringReducerLaws | src/basic.ts:12-15 | the string reducer gives `cur` followed by `upd`, its default "" is a left and right identity, and it is associative |
| Basic.NumericReducerLaws | src/basic.ts:16-19 | the numeric reducer's default 0 is an identity and it is associative |
| Basic.ListReducerLaws | src/basic.ts:20-23 | the list reducer keeps both lists in order, its length is the sum of the lengths, its default [] is an identity, and it is associative |
| Basic.FoldStrings | src/basic.ts:12-15 | folding string updates appends their concatenation |
| Basic.FoldNumbers | src/basic.ts:16-19 | folding numeric updates adds their sum |
| Basic.FoldLists | src/basic.ts:20-23 | folding list updates appends their concatenation, in order |
| Basic.DefaultsAreIdentity | src/basic.ts:10-23 | merging into the defaults, or merging the defaults in, leaves a state unchanged |
| Basic.ModifyState | src/basic.ts:28-31 | `modifyState` returns its input unchanged |
| Basic.Router | src/basic.ts:33-39 | BRANCH_A iff `stringValue` is shorter than 5; END otherwise |
| Basic.LinearRun | src/basic.ts:41-50 | every run visits branch_a then branch_b, whatever the router would say. Each node hands back the whole state, so each reducing channel is merged with itself twice (string and list four copies, number times four) |
| RagNeon.FormatFewDocs | src/RAG-neon.ts:33-35 | no documents give ""; one document gives its `pageContent` exactly |
| RagNeon.FormatDocsSnoc | src/RAG-neon.ts:33-35 | appending a document appends "\n\n" and its text, so the texts appear in input order |
| RagNeon.FormatDocsLength | src/RAG-neon.ts:33-35 | for n >= 1 documents the length is the sum of the text lengths plus 2·(n−1) |
| RagNeon.FormatDocsIgnoresMetadata | src/RAG-neon.ts:33-35 | documents with the same texts give the same string, whatever their metadata |

## Left out

- The chat models, `withStructuredOutput`, `bindTools`, the embeddings, `PGVectorStore`, `MemoryVectorStore` and `createRetrieverTool` are network services. They are oracle parameters. The retriever's `k: 2` appears only as an assumption of `RagAgent.AtMostKDocuments`.
- Calls to the services are modelled as always returning a value. In the scripts each of them can reject, and the rejection ends the run at that node. This covers network errors, and a structured score that does not parse against the schema, which throws rather than routing off topic. The calls affected are:
  - `chain.invoke` at src/RAG-agent.ts:88, `retriever.invoke` at :111 and `ragChain.invoke` at :127. A rejection there rejects `graph.invoke`: nothing is appended and later nodes do not run.
  - `llmWithTools.invoke` at src/tool-calling.ts:70 and :105. If the second call rejects, `messages` already holds the AIMessage and the ToolMessages but there is no final output.
  - `callModel` and the `ToolNode` in src/agent-basics.ts and src/RAG-agent-tool.ts.
  - So `RagAgent.RunAnswersOnce`, `RagAgent.OnTopicRun`, `ToolCalling.Session.Respond` and the `AgentLoop` lemmas describe only runs in which every service call returns.
- RagAgent.AgentState.Invoke: requires a non-empty message list, as do `RagAgent.Execute`, `RagAgent.AgentState.QuestionClassifier` and the path lemmas. On an empty list `questionClassifier` throws a TypeError when it reads the last message's content (src/RAG-agent.ts:65), so the run ends before any node changes the state. That crash is not modelled.
- The scripts have no retries, no typed failures and no `grounded` flag on answers, so none is modelled. The classifier's verdict is the lower-cased free-text score stored in `onTopic` and compared with `"yes"` (src/RAG-agent.ts:91-96); the model does the same rather than using a two-valued verdict.
- The prebuilt `ToolNode` of src/agent-basics.ts and src/RAG-agent-tool.ts is library code. Its update is an oracle parameter of `AgentLoop.Run`.
- LangGraph's execution engine is library code. Its conditional-edge dispatch is modelled only as the edge lists written in the scripts.
  - The messages channel is modelled as plain appending. The library's replacement of messages by id is not modelled.
  - In src/basic.ts, a node's returned state is modelled as merged through the declared reducers, one channel at a time (`Basic.Apply`).
- The `MemorySaver` checkpointer and `thread_id` sessions (src/agent-basics.ts:73-106) are not modelled: they are library persistence.
- AgentLoop.Run: bounded by fuel, because the agent/tools cycle ends only when the model stops asking for tools. Runs that never stop are not described.
- Ascii.Lower: only ASCII letters are lower-cased. JavaScript's `toLowerCase` folds all of Unicode.
- Basic.Router: `length` is counted in characters. JavaScript counts UTF-16 code units, so it counts characters outside the Basic Multilingual Plane twice.
- Basic.AddNumbers: JavaScript numbers are doubles. The model uses unbounded integers, so rounding is not modelled.
- ToolCalling.HandleCall: a name is recognised iff it is one of the two `TOOL_NAMES`. Under JavaScript's `in`, inherited names such as "toString" would also pass the check and then fail when called.
- ToolCalling.RunTool: a missing argument makes the tool throw, which the model captures. An argument that is present but not a string is not modelled, because arguments are strings here.
- A tool call's optional `id` is modelled as always present.
- Prompt wording is not modelled. Limits such as "three sentences maximum" and "ONLY YES or NO" depend on the model's compliance; no code enforces them.
- `async`/`await` is treated as sequential execution. `console` logging is not modelled.
- src/utils/bella-vista.ts is not part of this model: it seeds the database and checks environment variables.
- src/utils/render-graph.ts and `render()` in src/basic.ts are not part of this model: they draw Mermaid PNGs and write files.
- src/question-classifier.ts and src/RAG-basics.ts are not part of this model. They only build prompts or call the library's search and log the result.

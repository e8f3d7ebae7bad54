/** The tools of src/RAG-agent-tool.ts. Its graph and its `agent` and
    `shouldContinue` nodes are the ones of module AgentLoop. */
module RagAgentTool {

  const Forbidden: string := "Forbidden - do not respond to the user"

  /** The `off_topic` tool's function; it takes no arguments and ignores whatever it is given. */
  function OffTopicTool(args: map<string, string>): (r: string)
    ensures r == Forbidden
  {
    Forbidden
  }

  /** The off-topic tool answers every input alike. */
  lemma OffTopicToolIgnoresInput(a: map<string, string>, b: map<string, string>)
    ensures OffTopicTool(a) == OffTopicTool(b) == Forbidden
  {
  }
}

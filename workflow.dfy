/**
 * The agent registry and dispatcher (graph/workflow.py).
 *
 * `DesignAnalysisWorkflow.__init__` builds a dictionary from seven fixed keys
 * to agents that all share one LLM factory; it is only read afterwards, so
 * the workflow is a value here.  `run_agent` turns an unknown key or an
 * exception raised by the agent into a score-0 record carrying the raw key,
 * so one failing agent never aborts a run.
 */
module Workflow {
  import opened Agents

  /** The registry's keys, in the order the dictionary literal lists them. */
  const AgentKeys: seq<string> := ["brand", "aesthetic", "conversion", "monetization", "privacy", "ethical", "trends"]

  /** The kind each registry key stands for. */
  function KindOf(key: string): AgentKind
    requires key in AgentKeys
  {
    match key
    case "brand" => Brand
    case "aesthetic" => Aesthetic
    case "conversion" => Conversion
    case "monetization" => Monetization
    case "privacy" => Privacy
    case "ethical" => Ethical
    case "trends" => Trends
  }

  const NotFound := "Agent not found"
  const ErrorPrefix := "Error: "

  datatype DesignAnalysisWorkflow = DesignAnalysisWorkflow(agents: map<string, Agent>) {

    /** `run_agent(agent_type, image_data, context)`: dispatch, turning every failure into a score-0 record. */
    function RunAgent(agentType: string, image: string, context: string): (r: Record)
      ensures agentType !in agents ==> r == Record(agentType, NotFound, Int(0))
      ensures agentType in agents && agents[agentType].Analyze(image, context).Raise? ==>
        r == Record(agentType, ErrorPrefix + agents[agentType].Analyze(image, context).error, Int(0))
      ensures agentType in agents && agents[agentType].Analyze(image, context).Ok? ==>
        r == agents[agentType].Analyze(image, context).record
    {
      if agentType !in agents then Record(agentType, NotFound, Int(0))
      else match agents[agentType].Analyze(image, context)
        case Raise(e) => Record(agentType, ErrorPrefix + e, Int(0))
        case Ok(result) => result
    }
  }

  /** `__init__`: one agent per key, every one built around the same LLM factory. */
  function NewWorkflow(llm: Llm): (w: DesignAnalysisWorkflow)
    ensures w.agents.Keys == set key | key in AgentKeys
    ensures forall key | key in w.agents :: w.agents[key].llm == llm
  {
    DesignAnalysisWorkflow(map key | key in AgentKeys :: Agent(ProfileOf(KindOf(key)), llm))
  }

  /** The registry holds exactly the seven keys. */
  lemma RegistryKeys(llm: Llm)
    ensures NewWorkflow(llm).agents.Keys == {"brand", "aesthetic", "conversion", "monetization", "privacy", "ethical", "trends"}
  {
  }

  /** Each key holds the agent generated for its kind, around the shared oracle. */
  lemma RegistryAgents(llm: Llm, key: string)
    requires key in AgentKeys
    ensures key in NewWorkflow(llm).agents
    ensures NewWorkflow(llm).agents[key] == Agent(ProfileOf(KindOf(key)), llm)
  {
  }

  /** No two keys hold the same kind of agent. */
  lemma KindsDistinct(key1: string, key2: string)
    requires key1 in AgentKeys && key2 in AgentKeys && key1 != key2
    ensures KindOf(key1) != KindOf(key2)
  {
  }

  /**
   * The records `run_agent` produces: a score-0 int record exactly when the key is
   * unknown or the agent raised, and otherwise the agent's own record, whose
   * score is never negative.
   */
  lemma RunAgentFailsSoftly(w: DesignAnalysisWorkflow, agentType: string, image: string, context: string)
    ensures var r := w.RunAgent(agentType, image, context);
      (r.score == Int(0)) <==> (agentType !in w.agents || w.agents[agentType].Analyze(image, context).Raise?)
    ensures var r := w.RunAgent(agentType, image, context);
      r.score.Value() >= 0.0
    ensures var r := w.RunAgent(agentType, image, context);
      r.score == Int(0) ==> r.agent == agentType
  {
    var r := w.RunAgent(agentType, image, context);
    if agentType in w.agents && w.agents[agentType].Analyze(image, context).Ok? {
      AnalyzeScoreReadsAnalysis(w.agents[agentType], image, context);
    }
  }

  /** An unknown key invokes no agent: the record does not depend on the image, the context or the registry's oracles. */
  lemma UnknownKeyRunsNothing(w1: DesignAnalysisWorkflow, w2: DesignAnalysisWorkflow, agentType: string,
                              image1: string, context1: string, image2: string, context2: string)
    requires agentType !in w1.agents && agentType !in w2.agents
    ensures w1.RunAgent(agentType, image1, context1) == w2.RunAgent(agentType, image2, context2)
  {
  }

  /** No display name is a registry key. */
  lemma DisplayNamesAreNotKeys(key: string)
    requires key in AgentKeys
    ensures DisplayName(KindOf(key)) != key
  {
    DisplayNameStartsWithSymbol(KindOf(key));
    assert key[0] as int <= 0x7F;
  }

  /**
   * On a successful call the record names the agent by its display name, so it is
   * told apart from the failure records, which carry the raw registry key.
   */
  lemma SuccessCarriesDisplayName(llm: Llm, agentType: string, image: string, context: string)
    requires agentType in AgentKeys
    requires NewWorkflow(llm).agents[agentType].Analyze(image, context).Ok?
    ensures NewWorkflow(llm).RunAgent(agentType, image, context).agent == DisplayName(KindOf(agentType))
    ensures NewWorkflow(llm).RunAgent(agentType, image, context).agent != agentType
  {
    RegistryAgents(llm, agentType);
    DisplayNamesAreNotKeys(agentType);
  }
}

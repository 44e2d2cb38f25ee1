/**
 * The deep-research front end (Group04/deep-research-hackathon/app.py), with
 * the widgets stripped: which research agents the banner lists, the gate on
 * the chosen provider's key, the initial research state, the fold of the
 * graph's streamed updates into one state dictionary, the results tabs and
 * the rows of the sources table.
 *
 * The key store is a map from key names to strings, a key counting as set
 * when it is present and non-empty.  The graph's stream is a given sequence
 * of outputs, each a sequence of (node name, update) pairs in dictionary
 * order.
 */
module ResearchApp {
  import opened Wrappers
  import opened Sequences

  // ---------------------------------------------------------------------------
  // Python values held in the research state
  // ---------------------------------------------------------------------------

  /** A Python value of the state dictionary: the few shapes the page inspects. */
  datatype Value =
    | Null
    | Bool(b: bool)
    | Num(x: real)
    | Str(s: string)
    | List(items: seq<Value>)
    | Dict(entries: map<string, Value>)
    | Obj(attrs: map<string, Value>)
    | Logs(logs: seq<LogEntry>)

  /** One entry of a node's `logs` list. */
  datatype LogEntry = LogEntry(agentName: string, message: string)

  /** Python truthiness. */
  predicate Truthy(v: Value) {
    match v
    case Null => false
    case Bool(b) => b
    case Num(x) => x != 0.0
    case Str(s) => s != ""
    case List(items) => items != []
    case Dict(entries) => entries != map[]
    case Obj(_) => true
    case Logs(logs) => logs != []
  }

  /** `d.get(key)`, and `getattr(o, key, None)` on an object's attributes. */
  function Get(d: map<string, Value>, key: string): Value {
    if key in d then d[key] else Null
  }

  // ---------------------------------------------------------------------------
  // Keys, disciplines and modes
  // ---------------------------------------------------------------------------

  type Keys = map<string, string>

  /** `APIRegistry.get_key(name)` is truthy. */
  predicate IsSet(keys: Keys, name: string) {
    name in keys && keys[name] != ""
  }

  datatype Domain = Academic | Finance | Medical | ProductComparison | General {
    /** The internal name the research state carries. */
    function Name(): string {
      match this
      case Academic => "Academic"
      case Finance => "Finance"
      case Medical => "Medical"
      case ProductComparison => "Product/Tool Comparison"
      case General => "General"
    }
  }

  datatype Mode = Standard | Judge | Debate {
    function Name(): string {
      match this
      case Standard => "Standard"
      case Judge => "Judge"
      case Debate => "Debate"
    }
  }

  /** The discipline select box's options. */
  const DomainOptions: seq<string> :=
    ["Scientific & Academic Research", "Financial Analysis", "Medical Research", "Product Comparison", "General Knowledge"]

  /** `domain_map`. */
  const DomainMap: map<string, Domain> := map[
    "Scientific & Academic Research" := Academic,
    "Financial Analysis" := Finance,
    "Medical Research" := Medical,
    "Product Comparison" := ProductComparison,
    "General Knowledge" := General]

  /** The evaluation-mode select box's options. */
  const ModeOptions: seq<string> := ["Standard", "Judge Mode (Critique)", "Debate Mode (Pro/Con)"]

  /** `mode_map`. */
  const ModeMap: map<string, Mode> := map[
    "Standard" := Standard,
    "Judge Mode (Critique)" := Judge,
    "Debate Mode (Pro/Con)" := Debate]

  /** Every option the select boxes offer has an entry, so the lookups never fail, and every discipline and mode is reachable. */
  lemma MapsCoverOptions()
    ensures DomainMap.Keys == set o | o in DomainOptions
    ensures ModeMap.Keys == set o | o in ModeOptions
    ensures forall d: Domain :: d in DomainMap.Values
    ensures forall m: Mode :: m in ModeMap.Values
  {
    forall d: Domain ensures d in DomainMap.Values {
      match d
      case Academic => assert DomainMap["Scientific & Academic Research"] == d;
      case Finance => assert DomainMap["Financial Analysis"] == d;
      case Medical => assert DomainMap["Medical Research"] == d;
      case ProductComparison => assert DomainMap["Product Comparison"] == d;
      case General => assert DomainMap["General Knowledge"] == d;
    }
    forall m: Mode ensures m in ModeMap.Values {
      match m
      case Standard => assert ModeMap["Standard"] == m;
      case Judge => assert ModeMap["Judge Mode (Critique)"] == m;
      case Debate => assert ModeMap["Debate Mode (Pro/Con)"] == m;
    }
  }

  // ---------------------------------------------------------------------------
  // Active agents
  // ---------------------------------------------------------------------------

  /** The tools the banner can list; each is shown by its label. */
  datatype Tool =
    | LlmCore | Tavily | Arxiv | SemanticScholar | PubMed | ClinicalTrials
    | YahooFinance | Perplexity | Reddit | YouTube | GitHub | ContextAnalyzer
  {
    /** The string appended to `active_agents`. */
    function Label(): string {
      match this
      case LlmCore => "🧠 LLM Core"
      case Tavily => "🔍 Tavily Search"
      case Arxiv => "🎓 Arxiv"
      case SemanticScholar => "📚 Semantic Scholar"
      case PubMed => "🏥 PubMed"
      case ClinicalTrials => "💊 ClinicalTrials"
      case YahooFinance => "📈 Yahoo Finance"
      case Perplexity => "🧠 Perplexity"
      case Reddit => "👽 Reddit"
      case YouTube => "📺 YouTube Data"
      case GitHub => "🐙 GitHub"
      case ContextAnalyzer => "📂 Context Analyzer"
    }

    /** When the tool is listed: its own key, its discipline, or context material. */
    predicate ListedFor(keys: Keys, domain: Domain, hasContext: bool) {
      match this
      case LlmCore => IsSet(keys, "llm")
      case Tavily => IsSet(keys, "search")
      case Arxiv => domain == Academic
      case SemanticScholar => domain == Academic && IsSet(keys, "semanticscholar")
      case PubMed => domain == Medical
      case ClinicalTrials => domain == Medical
      case YahooFinance => domain == Finance
      case Perplexity => domain == Finance && (IsSet(keys, "perplexity") || IsSet(keys, "openrouter_key"))
      case Reddit => domain == ProductComparison && IsSet(keys, "reddit_client_id")
      case YouTube => domain == ProductComparison && IsSet(keys, "youtube_api_key")
      case GitHub => domain == ProductComparison && IsSet(keys, "github_token")
      case ContextAnalyzer => hasContext
    }
  }

  /** The tools of each section of the detection code, in the order it appends them. */
  const CoreTools: seq<Tool> := [LlmCore, Tavily]
  const AcademicTools: seq<Tool> := [Arxiv, SemanticScholar]
  const MedicalTools: seq<Tool> := [PubMed, ClinicalTrials]
  const FinanceTools: seq<Tool> := [YahooFinance, Perplexity]
  const ProductTools: seq<Tool> := [Reddit, YouTube, GitHub]
  const ContextTools: seq<Tool> := [ContextAnalyzer]

  /** Every tool, in the order the detection code appends them. */
  const Catalogue: seq<Tool> := CoreTools + AcademicTools + MedicalTools + FinanceTools + ProductTools + ContextTools

  /** Each tool's condition, for a sequence of tools. */
  function Listed(tools: seq<Tool>, keys: Keys, domain: Domain, hasContext: bool): (flags: seq<bool>)
    ensures |flags| == |tools|
    ensures forall i | 0 <= i < |tools| :: flags[i] == tools[i].ListedFor(keys, domain, hasContext)
  {
    seq(|tools|, i requires 0 <= i < |tools| => tools[i].ListedFor(keys, domain, hasContext))
  }

  /** The tools of `tools` whose condition holds, in their order. */
  function Select(tools: seq<Tool>, keys: Keys, domain: Domain, hasContext: bool): seq<Tool> {
    Filter(tools, Listed(tools, keys, domain, hasContext))
  }

  /** The banner's list: the catalogue entries whose condition holds, in catalogue order. */
  function ActiveAgents(keys: Keys, domain: Domain, hasContext: bool): seq<Tool> {
    Select(Catalogue, keys, domain, hasContext)
  }

  /** The banner's labels. */
  function Labels(tools: seq<Tool>): (labels: seq<string>)
    ensures |labels| == |tools| && forall i | 0 <= i < |tools| :: labels[i] == tools[i].Label()
  {
    seq(|tools|, i requires 0 <= i < |tools| => tools[i].Label())
  }

  /** `[t]` when `on`, else nothing. */
  function Pick(t: Tool, on: bool): seq<Tool> {
    if on then [t] else []
  }

  /** The core tools, as the first two `if`s add them. */
  function CoreAgents(keys: Keys): seq<Tool> {
    Pick(LlmCore, IsSet(keys, "llm")) + Pick(Tavily, IsSet(keys, "search"))
  }

  /** The tools the discipline's branch of the `if`/`elif` chain adds. */
  function DomainAgents(keys: Keys, domain: Domain): seq<Tool> {
    match domain
    case Academic => [Arxiv] + Pick(SemanticScholar, IsSet(keys, "semanticscholar"))
    case Medical => [PubMed, ClinicalTrials]
    case Finance => [YahooFinance] + Pick(Perplexity, IsSet(keys, "perplexity") || IsSet(keys, "openrouter_key"))
    case ProductComparison =>
      Pick(Reddit, IsSet(keys, "reddit_client_id")) + Pick(YouTube, IsSet(keys, "youtube_api_key"))
      + Pick(GitHub, IsSet(keys, "github_token"))
    case General => []
  }

  /** Selecting from a concatenation selects from each part. */
  lemma SelectAppend(a: seq<Tool>, b: seq<Tool>, keys: Keys, domain: Domain, hasContext: bool)
    ensures Select(a + b, keys, domain, hasContext) == Select(a, keys, domain, hasContext) + Select(b, keys, domain, hasContext)
  {
    assert Listed(a + b, keys, domain, hasContext) == Listed(a, keys, domain, hasContext) + Listed(b, keys, domain, hasContext);
    FilterAppend(a, Listed(a, keys, domain, hasContext), b, Listed(b, keys, domain, hasContext));
  }

  /** Selecting from two tools. */
  lemma SelectPair(x: Tool, y: Tool, keys: Keys, domain: Domain, hasContext: bool)
    ensures Select([x, y], keys, domain, hasContext)
         == Pick(x, x.ListedFor(keys, domain, hasContext)) + Pick(y, y.ListedFor(keys, domain, hasContext))
  {
    assert Listed([x, y], keys, domain, hasContext) == [x.ListedFor(keys, domain, hasContext), y.ListedFor(keys, domain, hasContext)];
    FilterPair(x, y, x.ListedFor(keys, domain, hasContext), y.ListedFor(keys, domain, hasContext));
  }

  lemma CoreSection(keys: Keys, domain: Domain, hasContext: bool)
    ensures Select(CoreTools, keys, domain, hasContext) == CoreAgents(keys)
  {
    SelectPair(LlmCore, Tavily, keys, domain, hasContext);
  }

  lemma ContextSection(keys: Keys, domain: Domain, hasContext: bool)
    ensures Select(ContextTools, keys, domain, hasContext) == Pick(ContextAnalyzer, hasContext)
  {
    assert Listed(ContextTools, keys, domain, hasContext) == [hasContext];
    FilterSnoc([], [], ContextAnalyzer, hasContext);
  }

  /** A discipline's section contributes its branch when that discipline is chosen, and nothing otherwise. */
  lemma AcademicSection(keys: Keys, domain: Domain, hasContext: bool)
    ensures domain == Academic ==> Select(AcademicTools, keys, domain, hasContext) == DomainAgents(keys, domain)
    ensures domain != Academic ==> Select(AcademicTools, keys, domain, hasContext) == []
  {
    SelectPair(Arxiv, SemanticScholar, keys, domain, hasContext);
  }

  lemma MedicalSection(keys: Keys, domain: Domain, hasContext: bool)
    ensures domain == Medical ==> Select(MedicalTools, keys, domain, hasContext) == DomainAgents(keys, domain)
    ensures domain != Medical ==> Select(MedicalTools, keys, domain, hasContext) == []
  {
    SelectPair(PubMed, ClinicalTrials, keys, domain, hasContext);
  }

  lemma FinanceSection(keys: Keys, domain: Domain, hasContext: bool)
    ensures domain == Finance ==> Select(FinanceTools, keys, domain, hasContext) == DomainAgents(keys, domain)
    ensures domain != Finance ==> Select(FinanceTools, keys, domain, hasContext) == []
  {
    SelectPair(YahooFinance, Perplexity, keys, domain, hasContext);
  }

  lemma ProductSection(keys: Keys, domain: Domain, hasContext: bool)
    ensures domain == ProductComparison ==> Select(ProductTools, keys, domain, hasContext) == DomainAgents(keys, domain)
    ensures domain != ProductComparison ==> Select(ProductTools, keys, domain, hasContext) == []
  {
    var f, g, h := Reddit.ListedFor(keys, domain, hasContext), YouTube.ListedFor(keys, domain, hasContext), GitHub.ListedFor(keys, domain, hasContext);
    assert Listed(ProductTools, keys, domain, hasContext) == [f, g, h];
    FilterTriple(Reddit, YouTube, GitHub, f, g, h);
  }

  /** Of the four discipline sections, only the chosen discipline's contributes. */
  lemma DomainSections(keys: Keys, domain: Domain, hasContext: bool)
    ensures Select(AcademicTools + MedicalTools + FinanceTools + ProductTools, keys, domain, hasContext) == DomainAgents(keys, domain)
  {
    SelectAppend(AcademicTools, MedicalTools, keys, domain, hasContext);
    SelectAppend(AcademicTools + MedicalTools, FinanceTools, keys, domain, hasContext);
    SelectAppend(AcademicTools + MedicalTools + FinanceTools, ProductTools, keys, domain, hasContext);
    AcademicSection(keys, domain, hasContext);
    MedicalSection(keys, domain, hasContext);
    FinanceSection(keys, domain, hasContext);
    ProductSection(keys, domain, hasContext);
    var b := Select(AcademicTools, keys, domain, hasContext);
    var c := Select(MedicalTools, keys, domain, hasContext);
    var d := Select(FinanceTools, keys, domain, hasContext);
    var e := Select(ProductTools, keys, domain, hasContext);
    match domain
    case Academic => assert c == [] && d == [] && e == [];
    case Medical => assert b == [] && d == [] && e == [];
    case Finance => assert b == [] && c == [] && e == [];
    case ProductComparison => assert b == [] && c == [] && d == [];
    case General => assert b == [] && c == [] && d == [] && e == [];
  }

  /** The section-by-section list equals the catalogue filtered by the conditions. */
  lemma ActiveAgentsBySection(keys: Keys, domain: Domain, hasContext: bool)
    ensures ActiveAgents(keys, domain, hasContext) == CoreAgents(keys) + DomainAgents(keys, domain) + Pick(ContextAnalyzer, hasContext)
  {
    var disciplines := AcademicTools + MedicalTools + FinanceTools + ProductTools;
    assert Catalogue == CoreTools + disciplines + ContextTools;
    SelectAppend(CoreTools, disciplines, keys, domain, hasContext);
    SelectAppend(CoreTools + disciplines, ContextTools, keys, domain, hasContext);
    CoreSection(keys, domain, hasContext);
    DomainSections(keys, domain, hasContext);
    ContextSection(keys, domain, hasContext);
  }

  /** The domain-specific section: the chosen discipline's branch of the `if`/`elif` chain. */
  method AddDomainAgents(active: seq<Tool>, keys: Keys, domain: Domain) returns (active': seq<Tool>)
    ensures active' == active + DomainAgents(keys, domain)
  {
    active' := active;
    if domain == Academic {
      active' := active' + [Arxiv];
      if IsSet(keys, "semanticscholar") {
        active' := active' + [SemanticScholar];
      }
    } else if domain == Medical {
      active' := active' + [PubMed];
      active' := active' + [ClinicalTrials];
    } else if domain == Finance {
      active' := active' + [YahooFinance];
      if IsSet(keys, "perplexity") || IsSet(keys, "openrouter_key") {
        active' := active' + [Perplexity];
      }
    } else if domain == ProductComparison {
      if IsSet(keys, "reddit_client_id") {
        active' := active' + [Reddit];
      }
      if IsSet(keys, "youtube_api_key") {
        active' := active' + [YouTube];
      }
      if IsSet(keys, "github_token") {
        active' := active' + [GitHub];
      }
    }
  }

  /**
   * The banner's `active_agents.append` chain: the core tools, the domain-specific
   * section, then the context analyzer; `warn` is the "no active agents" warning.
   */
  method DetectActiveAgents(keys: Keys, domain: Domain, uploadedFile: bool, videoUrl: string)
    returns (active: seq<Tool>, warn: bool)
    ensures active == ActiveAgents(keys, domain, uploadedFile || videoUrl != "")
    ensures warn <==> active == []
  {
    active := [];
    if IsSet(keys, "llm") {
      active := active + [LlmCore];
    }
    if IsSet(keys, "search") {
      active := active + [Tavily];
    }
    assert active == CoreAgents(keys);
    active := AddDomainAgents(active, keys, domain);
    ghost var sections := active;
    if uploadedFile || videoUrl != "" {
      active := active + [ContextAnalyzer];
    }
    assert active == sections + Pick(ContextAnalyzer, uploadedFile || videoUrl != "");
    ActiveAgentsBySection(keys, domain, uploadedFile || videoUrl != "");
    warn := active == [];
  }

  /** Every tool has a place in the catalogue, and no tool has two. */
  lemma CatalogueComplete(t: Tool)
    ensures t in Catalogue
    ensures Distinct(Catalogue)
  {
  }

  /** No two tools share a label, so the banner's strings are as distinct as its tools. */
  lemma LabelsDistinct(t1: Tool, t2: Tool)
    requires t1 != t2
    ensures t1.Label() != t2.Label()
  {
    if t1.Label()[0] == t2.Label()[0] {
      assert t1.Label()[2] != t2.Label()[2];
    }
  }

  /**
   * A tool is listed exactly when its condition holds; the list keeps catalogue
   * order (core, then discipline, then context) and never repeats a tool.
   */
  lemma ActiveAgentsCorrect(keys: Keys, domain: Domain, hasContext: bool, t: Tool)
    ensures t in ActiveAgents(keys, domain, hasContext) <==> t.ListedFor(keys, domain, hasContext)
    ensures IsSubsequence(ActiveAgents(keys, domain, hasContext), Catalogue)
    ensures Distinct(ActiveAgents(keys, domain, hasContext))
  {
    var flags := Listed(Catalogue, keys, domain, hasContext);
    CatalogueComplete(t);
    FilterMembers(Catalogue, flags, t);
    FilterIsSubsequence(Catalogue, flags);
    SubsequenceDistinct(ActiveAgents(keys, domain, hasContext), Catalogue);
  }

  /** The core entries follow their keys whatever the provider; Arxiv, PubMed, ClinicalTrials and Yahoo Finance need no key at all. */
  lemma CoreAndAlwaysOnAgents(keys: Keys, domain: Domain, hasContext: bool)
    ensures LlmCore in ActiveAgents(keys, domain, hasContext) <==> IsSet(keys, "llm")
    ensures Tavily in ActiveAgents(keys, domain, hasContext) <==> IsSet(keys, "search")
    ensures Arxiv in ActiveAgents(keys, domain, hasContext) <==> domain == Academic
    ensures PubMed in ActiveAgents(keys, domain, hasContext) <==> domain == Medical
    ensures ClinicalTrials in ActiveAgents(keys, domain, hasContext) <==> domain == Medical
    ensures YahooFinance in ActiveAgents(keys, domain, hasContext) <==> domain == Finance
    ensures ContextAnalyzer in ActiveAgents(keys, domain, hasContext) <==> hasContext
  {
    ActiveAgentsCorrect(keys, domain, hasContext, LlmCore);
    ActiveAgentsCorrect(keys, domain, hasContext, Tavily);
    ActiveAgentsCorrect(keys, domain, hasContext, Arxiv);
    ActiveAgentsCorrect(keys, domain, hasContext, PubMed);
    ActiveAgentsCorrect(keys, domain, hasContext, ClinicalTrials);
    ActiveAgentsCorrect(keys, domain, hasContext, YahooFinance);
    ActiveAgentsCorrect(keys, domain, hasContext, ContextAnalyzer);
  }

  /** The key-gated entries appear only in their discipline and with their keys. */
  lemma KeyGatedAgents(keys: Keys, domain: Domain, hasContext: bool)
    ensures SemanticScholar in ActiveAgents(keys, domain, hasContext) <==> domain == Academic && IsSet(keys, "semanticscholar")
    ensures Perplexity in ActiveAgents(keys, domain, hasContext) <==>
      domain == Finance && (IsSet(keys, "perplexity") || IsSet(keys, "openrouter_key"))
    ensures Reddit in ActiveAgents(keys, domain, hasContext) <==> domain == ProductComparison && IsSet(keys, "reddit_client_id")
    ensures YouTube in ActiveAgents(keys, domain, hasContext) <==> domain == ProductComparison && IsSet(keys, "youtube_api_key")
    ensures GitHub in ActiveAgents(keys, domain, hasContext) <==> domain == ProductComparison && IsSet(keys, "github_token")
  {
    ActiveAgentsCorrect(keys, domain, hasContext, SemanticScholar);
    ActiveAgentsCorrect(keys, domain, hasContext, Perplexity);
    ActiveAgentsCorrect(keys, domain, hasContext, Reddit);
    ActiveAgentsCorrect(keys, domain, hasContext, YouTube);
    ActiveAgentsCorrect(keys, domain, hasContext, GitHub);
  }

  /** With no keys, no context and the General discipline the list is empty, which triggers the warning. */
  lemma NothingListedWithoutKeys()
    ensures ActiveAgents(map[], General, false) == []
  {
    ActiveAgentsBySection(map[], General, false);
  }

  /** The banner's joined labels never repeat one: the listed tools are distinct and so are their labels. */
  lemma BannerLabelsDistinct(keys: Keys, domain: Domain, hasContext: bool)
    ensures Distinct(Labels(ActiveAgents(keys, domain, hasContext)))
  {
    var active := ActiveAgents(keys, domain, hasContext);
    ActiveAgentsCorrect(keys, domain, hasContext, LlmCore);
    forall i, j | 0 <= i < j < |active| ensures Labels(active)[i] != Labels(active)[j] {
      LabelsDistinct(active[i], active[j]);
    }
  }

  // ---------------------------------------------------------------------------
  // Provider gate
  // ---------------------------------------------------------------------------

  /** `get_key("llm_provider") or "OpenAI"`. */
  function ProviderOf(keys: Keys): string {
    if IsSet(keys, "llm_provider") then keys["llm_provider"] else "OpenAI"
  }

  /** The key each known provider needs. */
  function RequiredKey(provider: string): Option<string> {
    match provider
    case "OpenAI" => Some("llm")
    case "Anthropic" => Some("anthropic_key")
    case "OpenRouter" => Some("openrouter_key")
    case _ => None
  }

  /** The `has_valid_key` branches: the run goes on only if the provider is known and its key is set. */
  method CheckProviderKey(keys: Keys) returns (provider: string, hasValidKey: bool)
    ensures provider == ProviderOf(keys)
    ensures hasValidKey <==> RequiredKey(provider).Some? && IsSet(keys, RequiredKey(provider).value)
  {
    provider := if IsSet(keys, "llm_provider") then keys["llm_provider"] else "OpenAI";
    hasValidKey := false;
    if provider == "OpenAI" && IsSet(keys, "llm") {
      hasValidKey := true;
    } else if provider == "Anthropic" && IsSet(keys, "anthropic_key") {
      hasValidKey := true;
    } else if provider == "OpenRouter" && IsSet(keys, "openrouter_key") {
      hasValidKey := true;
    }
  }

  /**
   * An unknown provider never passes; with no provider chosen the gate is the
   * OpenAI key, and then passing it means the banner lists the LLM core.
   */
  lemma ProviderGate(keys: Keys, domain: Domain, hasContext: bool)
    ensures RequiredKey(ProviderOf(keys)).None? ==> ProviderOf(keys) !in {"OpenAI", "Anthropic", "OpenRouter"}
    ensures !IsSet(keys, "llm_provider") ==> RequiredKey(ProviderOf(keys)) == Some("llm")
    ensures ProviderOf(keys) == "OpenAI" && IsSet(keys, RequiredKey(ProviderOf(keys)).value) ==>
      LlmCore in ActiveAgents(keys, domain, hasContext)
  {
    CoreAndAlwaysOnAgents(keys, domain, hasContext);
  }

  // ---------------------------------------------------------------------------
  // Starting the research
  // ---------------------------------------------------------------------------

  /** `context_data`, with the DOI or arXiv ID appended when one was given. */
  function ContextData(processed: string, arxivId: string): string {
    if arxivId != "" then processed + "\n[User provided ID: " + arxivId + "]" else processed
  }

  /** The six fields the page passes to `ResearchState(...)`. */
  const GivenFields: set<string> := {"question", "domain", "evaluation_mode", "context_data", "demo_mode", "research_objective"}

  /**
   * `ResearchState(...).model_dump()`: every field of the schema with its
   * default (`defaults`), overwritten by the six fields the page passes.
   */
  function InitialState(defaults: map<string, Value>, question: string, domain: Domain, mode: Mode, contextData: string)
    : (s: map<string, Value>)
    ensures s.Keys == defaults.Keys + GivenFields
    ensures forall key | key in defaults && key !in GivenFields :: s[key] == defaults[key]
  {
    defaults + map[
      "question" := Str(if question != "" then question else "Research"),
      "domain" := Str(domain.Name()),
      "evaluation_mode" := Str(mode.Name()),
      "context_data" := Str(contextData),
      "demo_mode" := Bool(false),
      "research_objective" := Str("Deep Dive")]
  }

  /** Whatever the defaults, the initial state keeps the question unless it is empty and has demo mode off. */
  lemma InitialStateDefaults(defaults: map<string, Value>, question: string, domain: Domain, mode: Mode, contextData: string)
    ensures var s := InitialState(defaults, question, domain, mode, contextData);
      && (question != "" ==> s["question"] == Str(question))
      && (question == "" ==> s["question"] == Str("Research"))
      && s["demo_mode"] == Bool(false)
      && !Truthy(s["demo_mode"])
      && s["research_objective"] == Str("Deep Dive")
  {
  }

  /** An ID adds one bracketed line after the processed context, which stays in front unchanged. */
  lemma ContextDataKeepsContext(processed: string, arxivId: string)
    ensures |processed| <= |ContextData(processed, arxivId)|
    ensures ContextData(processed, arxivId)[..|processed|] == processed
    ensures arxivId == "" <==> ContextData(processed, arxivId) == processed
  {
  }

  // ---------------------------------------------------------------------------
  // The stream of updates
  // ---------------------------------------------------------------------------

  type Update = map<string, Value>

  /** One output of `app.stream`: the (node name, update) pairs of its dictionary, in order. */
  type Output = seq<(string, Update)>

  /** An update's "logs" field, when present, is a list of log entries. */
  predicate LogsWellFormed(u: Update) {
    "logs" in u ==> u["logs"].Logs?
  }

  /** Every update the stream yields has well-formed logs. */
  predicate StreamWellFormed(stream: seq<Output>) {
    forall o, p | 0 <= o < |stream| && 0 <= p < |stream[o]| :: LogsWellFormed(stream[o][p].1)
  }

  /** The updates of one output, in order. */
  function UpdatesOf(output: Output): (us: seq<Update>)
    ensures |us| == |output| && forall i | 0 <= i < |us| :: us[i] == output[i].1
  {
    seq(|output|, i requires 0 <= i < |output| => output[i].1)
  }

  /** Every update of the stream, in the order the loops visit them. */
  function Flatten(stream: seq<Output>): seq<Update> {
    if stream == [] then [] else Flatten(stream[..|stream| - 1]) + UpdatesOf(stream[|stream| - 1])
  }

  /** `current_state.update(u)` for each update in turn. */
  function MergeAll(initial: Update, us: seq<Update>): Update {
    if us == [] then initial else MergeAll(initial, us[..|us| - 1]) + us[|us| - 1]
  }

  /** The status line written for one log entry. */
  function LogLine(log: LogEntry): string {
    "**" + log.agentName + "**: " + log.message
  }

  /** The status lines of a list of log entries, in order. */
  function Lines(logs: seq<LogEntry>): (lines: seq<string>)
    ensures |lines| == |logs| && forall i | 0 <= i < |logs| :: lines[i] == LogLine(logs[i])
  {
    seq(|logs|, i requires 0 <= i < |logs| => LogLine(logs[i]))
  }

  /** The status lines of one update's log entries (none when it has no well-formed logs). */
  function LinesOf(u: Update): seq<string> {
    if "logs" in u && u["logs"].Logs? then Lines(u["logs"].logs) else []
  }

  /** All status lines of a sequence of updates. */
  function LogLines(us: seq<Update>): seq<string> {
    FlatMap(LinesOf, us)
  }

  lemma FlattenSnoc(stream: seq<Output>, o: nat)
    requires o < |stream|
    ensures Flatten(stream[..o + 1]) == Flatten(stream[..o]) + UpdatesOf(stream[o])
  {
    assert stream[..o + 1][..o] == stream[..o];
  }

  lemma UpdatesSnoc(output: Output, p: nat)
    requires p < |output|
    ensures UpdatesOf(output[..p + 1]) == UpdatesOf(output[..p]) + [output[p].1]
  {
  }

  /** One more update: merged on top, its lines after the earlier ones. */
  lemma FoldSnoc(initial: Update, us: seq<Update>, u: Update)
    ensures MergeAll(initial, us + [u]) == MergeAll(initial, us) + u
    ensures LogLines(us + [u]) == LogLines(us) + LinesOf(u)
  {
    assert (us + [u])[..|us|] == us;
    FlatMapSnoc(LinesOf, us, u);
  }

  /** The innermost loop: one `status.write` per log entry, in order. */
  method WriteLogs(shown: seq<string>, logs: seq<LogEntry>) returns (shown': seq<string>)
    ensures shown' == shown + Lines(logs)
  {
    shown' := shown;
    for l := 0 to |logs|
      invariant shown' == shown + seq(l, i requires 0 <= i < l => LogLine(logs[i]))
    {
      shown' := shown' + [LogLine(logs[l])];
    }
  }

  /** The middle loop: each (node, update) pair of one output, its log lines written, then merged into the state. */
  method FoldOutput(state: Update, shown: seq<string>, output: Output) returns (state': Update, shown': seq<string>)
    requires forall p | 0 <= p < |output| :: LogsWellFormed(output[p].1)
    ensures state' == MergeAll(state, UpdatesOf(output))
    ensures shown' == shown + LogLines(UpdatesOf(output))
  {
    state', shown' := state, shown;
    for p := 0 to |output|
      invariant state' == MergeAll(state, UpdatesOf(output[..p]))
      invariant shown' == shown + LogLines(UpdatesOf(output[..p]))
    {
      var update: Update := output[p].1;
      ghost var prior := UpdatesOf(output[..p]);
      assert LogsWellFormed(update);
      if "logs" in update {
        shown' := WriteLogs(shown', update["logs"].logs);
      }
      assert shown' == shown + LogLines(prior) + LinesOf(update);
      state' := state' + update;
      FoldSnoc(state, prior, update);
      UpdatesSnoc(output, p);
    }
    assert output[..|output|] == output;
  }

  /** The nested loops over the stream: fold every update into the state and write every log line. */
  method FoldStream(initial: Update, stream: seq<Output>) returns (state: Update, shown: seq<string>)
    requires StreamWellFormed(stream)
    ensures state == MergeAll(initial, Flatten(stream))
    ensures shown == LogLines(Flatten(stream))
  {
    state, shown := initial, [];
    for o := 0 to |stream|
      invariant state == MergeAll(initial, Flatten(stream[..o]))
      invariant shown == LogLines(Flatten(stream[..o]))
    {
      ghost var done := Flatten(stream[..o]);
      state, shown := FoldOutput(state, shown, stream[o]);
      FlattenSnoc(stream, o);
      MergeAppend(initial, done, UpdatesOf(stream[o]));
      LogLinesAppend(done, UpdatesOf(stream[o]));
    }
    assert stream[..|stream|] == stream;
  }

  /** Folding `a + b` is folding `a`, then folding `b` on top. */
  lemma {:induction false} MergeAppend(initial: Update, a: seq<Update>, b: seq<Update>)
    ensures MergeAll(initial, a + b) == MergeAll(MergeAll(initial, a), b)
    decreases |b|
  {
    if b == [] {
      assert a + b == a;
    } else {
      var n := |b| - 1;
      assert a + b == (a + b[..n]) + [b[n]];
      assert b == b[..n] + [b[n]];
      FoldSnoc(initial, a + b[..n], b[n]);
      FoldSnoc(MergeAll(initial, a), b[..n], b[n]);
      MergeAppend(initial, a, b[..n]);
    }
  }

  /**
   * After the stream, a key holds the value of the last update that contained
   * it; this is `dict.update`, so later writers win.
   */
  lemma {:induction false} LastWriterWins(initial: Update, us: seq<Update>, key: string, j: nat)
    requires j < |us| && key in us[j]
    requires forall k | j < k < |us| :: key !in us[k]
    ensures key in MergeAll(initial, us) && MergeAll(initial, us)[key] == us[j][key]
  {
    var n := |us| - 1;
    if j < n {
      LastWriterWins(initial, us[..n], key, j);
    }
  }

  /** A key no update contains keeps its initial value (or stays absent). */
  lemma {:induction false} UntouchedKeysKept(initial: Update, us: seq<Update>, key: string)
    requires forall k | 0 <= k < |us| :: key !in us[k]
    ensures key in MergeAll(initial, us) <==> key in initial
    ensures key in initial ==> MergeAll(initial, us)[key] == initial[key]
  {
    if us != [] {
      UntouchedKeysKept(initial, us[..|us| - 1], key);
    }
  }

  /** The fold is the initial state overwritten by the merge of all updates. */
  lemma {:induction false} MergeIsOverwrite(initial: Update, us: seq<Update>)
    ensures MergeAll(initial, us) == initial + MergeAll(map[], us)
  {
    if us != [] {
      MergeIsOverwrite(initial, us[..|us| - 1]);
    }
  }

  /** Replaying the same stream on the final state changes nothing. */
  lemma MergeIdempotent(initial: Update, us: seq<Update>)
    ensures MergeAll(MergeAll(initial, us), us) == MergeAll(initial, us)
  {
    MergeIsOverwrite(initial, us);
    MergeIsOverwrite(MergeAll(initial, us), us);
  }

  /** The status pane shows the lines of earlier updates first: the lines of `a + b` are those of `a`, then those of `b`. */
  lemma LogLinesAppend(a: seq<Update>, b: seq<Update>)
    ensures LogLines(a + b) == LogLines(a) + LogLines(b)
  {
    FlatMapAppend(LinesOf, a, b);
  }

  // ---------------------------------------------------------------------------
  // Results
  // ---------------------------------------------------------------------------

  const ReportTab := "📄 Report"
  const DebateTab := "🗣️ Debate"
  const CritiqueTab := "⚖️ Critique"
  const SourcesTab := "📚 Sources"

  /** The report pane's text: `templated_output`, or `report_md` when that is falsy. */
  function ReportText(r: map<string, Value>): Value {
    if Truthy(Get(r, "templated_output")) then Get(r, "templated_output") else Get(r, "report_md")
  }

  /**
   * The report pane shows `templated_output` when it is truthy and `report_md`
   * otherwise, so it shows something exactly when either field holds something.
   */
  lemma ReportTextChoice(r: map<string, Value>)
    ensures Truthy(Get(r, "templated_output")) ==> ReportText(r) == Get(r, "templated_output")
    ensures !Truthy(Get(r, "templated_output")) ==> ReportText(r) == Get(r, "report_md")
    ensures Truthy(ReportText(r)) <==> Truthy(Get(r, "templated_output")) || Truthy(Get(r, "report_md"))
  {
  }

  /**
   * The tab list (built by inserting at position 1) and the index counter used
   * for the debate, critique and sources panes.
   */
  method TabLayout(r: map<string, Value>)
    returns (tabs: seq<string>, debateIdx: Option<nat>, critiqueIdx: Option<nat>, sourcesIdx: nat)
    ensures tabs == [ReportTab] + (if Truthy(Get(r, "debate_transcript")) then [DebateTab] else [])
                    + (if Truthy(Get(r, "judge_scorecard")) then [CritiqueTab] else []) + [SourcesTab]
    ensures debateIdx.Some? <==> Truthy(Get(r, "debate_transcript"))
    ensures debateIdx.Some? ==> debateIdx.value < |tabs| && tabs[debateIdx.value] == DebateTab
    ensures critiqueIdx.Some? <==> Truthy(Get(r, "judge_scorecard"))
    ensures critiqueIdx.Some? ==> critiqueIdx.value < |tabs| && tabs[critiqueIdx.value] == CritiqueTab
    ensures sourcesIdx == |tabs| - 1 && tabs[sourcesIdx] == SourcesTab
  {
    tabs := [ReportTab, SourcesTab];
    if Truthy(Get(r, "judge_scorecard")) {
      tabs := tabs[..1] + [CritiqueTab] + tabs[1..];
    }
    if Truthy(Get(r, "debate_transcript")) {
      tabs := tabs[..1] + [DebateTab] + tabs[1..];
    }
    var idx := 1;
    debateIdx, critiqueIdx := None, None;
    if Truthy(Get(r, "debate_transcript")) {
      debateIdx := Some(idx);
      idx := idx + 1;
    }
    if Truthy(Get(r, "judge_scorecard")) {
      critiqueIdx := Some(idx);
      idx := idx + 1;
    }
    sourcesIdx := idx;
  }

  /** One row of the sources table. */
  datatype Row = Row(title: Value, source: Value, url: Value)

  /** A field of a source: `s.get(name)` on a dictionary, `getattr(s, name, None)` on an object. */
  function Field(s: Value, name: string): Value {
    match s
    case Dict(entries) => Get(entries, name)
    case Obj(attrs) => Get(attrs, name)
    case _ => Null
  }

  /** The row a source gives: its title, its venue or else its domain, and its URL. */
  function RowOf(s: Value): (row: Row)
    ensures row.title == Field(s, "title") && row.url == Field(s, "url")
    ensures Truthy(Field(s, "venue")) ==> row.source == Field(s, "venue")
    ensures !Truthy(Field(s, "venue")) ==> row.source == Field(s, "domain")
  {
    var venue := Field(s, "venue");
    Row(Field(s, "title"), if Truthy(venue) then venue else Field(s, "domain"), Field(s, "url"))
  }

  /** The `df_data.append` loop: one row per source, in order, with the dictionary and the attribute branch. */
  method SourceRows(sources: seq<Value>) returns (rows: seq<Row>)
    ensures |rows| == |sources|
    ensures forall i | 0 <= i < |sources| :: rows[i] == RowOf(sources[i])
  {
    rows := [];
    for i := 0 to |sources|
      invariant |rows| == i
      invariant forall k | 0 <= k < i :: rows[k] == RowOf(sources[k])
    {
      var s := sources[i];
      var title, source, url;
      if s.Dict? {
        title := Get(s.entries, "title");
        source := if Truthy(Get(s.entries, "venue")) then Get(s.entries, "venue") else Get(s.entries, "domain");
        url := Get(s.entries, "url");
      } else {
        var attrs := if s.Obj? then s.attrs else map[];
        title := Get(attrs, "title");
        source := if Truthy(Get(attrs, "venue")) then Get(attrs, "venue") else Get(attrs, "domain");
        url := Get(attrs, "url");
      }
      rows := rows + [Row(title, source, url)];
    }
  }

  /** A source gives the same row whether it arrives as a dictionary or as an object with the same fields. */
  lemma RowIgnoresForm(fields: map<string, Value>)
    ensures RowOf(Dict(fields)) == RowOf(Obj(fields))
  {
  }
}

/**
 * The design-analysis agents (the five files agents/brand_agent.py, aesthetic_agent.py,
 * conversion_agent.py, privacy_agent.py and ethical_agent.py).
 *
 * All seven agents are generated from one template: they differ only in
 * their display name, the role line that opens the prompt and the list of
 * analysis points.  `analyze` builds one user message (the design image as a
 * base64 data URL, then the prompt), makes exactly one completion call and
 * returns the record {agent, analysis, score}, the score being the
 * extractor's reading of the analysis.
 *
 * The completion call is an oracle: a function from the message list to
 * either the returned text or the message of the exception it raised.
 * `analyze` has no try/except, so a raised exception is its outcome too.
 */
module Agents {
  import opened Wrappers
  import opened ScoreExtractor

  datatype AgentKind = Brand | Aesthetic | Conversion | Monetization | Privacy | Ethical | Trends

  /** One part of a chat message: an image given by URL, or text. */
  datatype ContentPart = ImageUrl(url: string) | TextPart(text: string)

  datatype Message = Message(role: string, content: seq<ContentPart>)

  /** What a completion call does: return the model's text, or raise. */
  datatype Completion = Returned(text: string) | Raised(error: string)

  /** The completion oracle shared by the agents (the LLM factory). */
  type Llm = seq<Message> -> Completion

  /** A score as Python holds it: a float from the extractor, or the int 0 of a failure record. */
  datatype Score = Float(r: real) | Int(i: int) {
    function Value(): real {
      match this
      case Float(r) => r
      case Int(i) => i as real
    }
  }

  /** The dictionary {"agent", "analysis", "score"} every agent and the dispatcher return. */
  datatype Record = Record(agent: string, analysis: string, score: Score)

  /** What a call of `analyze` ends in: a returned record, or an exception propagating out. */
  datatype Outcome = Ok(record: Record) | Raise(error: string)

  /** `self.name`, fixed in `__init__`. */
  function DisplayName(k: AgentKind): string {
    match k
    case Brand => "🏷️ Brand Consistency Agent"
    case Aesthetic => "✨ Aesthetic Quality Agent"
    case Conversion => "💰 Conversion Optimization Agent"
    case Monetization => "💳 Monetization Agent"
    case Privacy => "🔒 Privacy & Security Agent"
    case Ethical => "⚖️ Ethical Design Agent"
    case Trends => "📈 Trend Analysis Agent"
  }

  /** The role line that opens the prompt. */
  function RoleLine(k: AgentKind): string {
    match k
    case Brand => "You are a Brand Strategist expert."
    case Aesthetic => "You are a Design Aesthetics Expert."
    case Conversion => "You are a CRO specialist."
    case Monetization => "You are a Monetization Strategy Expert."
    case Privacy => "You are a Privacy and Security UX Expert."
    case Ethical => "You are an Ethical Design Advocate."
    case Trends => "You are a Design Trend Analyst."
  }

  /** The heading and the six numbered analysis points of the prompt. */
  function AnalysisPoints(k: AgentKind): string {
    match k
    case Brand =>
      "Analyze brand consistency:\n1. Brand Alignment - Values reflection\n2. Color Guidelines - Brand color adherence  \n3. Typography - Brand font usage\n4. Tone & Voice - Communication style\n5. Logo & Assets - Implementation\n6. Score: Rate X/10 (MUST include)"
    case Aesthetic =>
      "Analyze aesthetic quality:\n1. Visual Appeal - First impression\n2. Balance & Harmony - Composition\n3. Modernity - Contemporary design\n4. Sophistication - Polish level\n5. Emotional Impact - Feelings evoked\n6. Score: Rate X/10 (MUST include)"
    case Conversion =>
      "Analyze conversion potential:\n1. CTA Analysis - Effectiveness\n2. Layout Optimization - Funnel design\n3. Friction Points - Journey obstacles\n4. Trust Signals - Credibility\n5. Value Proposition - Clarity\n6. Score: Rate X/10 (MUST include)"
    case Monetization =>
      "Analyze monetization UX:\n1. Ad Placement - Intrusiveness\n2. Subscription Flow - Payment UX\n3. In-App Purchases - IAP implementation\n4. Pricing Display - Transparency\n5. Value Communication - Benefits\n6. Score: Rate X/10 (MUST include)"
    case Privacy =>
      "Analyze privacy & security:\n1. Data Collection - Transparency\n2. Privacy Controls - User control\n3. Security Patterns - Trust signals\n4. GDPR Compliance - Regulation adherence\n5. Cookie Consent - Implementation\n6. Score: Rate X/10 (MUST include)"
    case Ethical =>
      "Conduct ethical audit:\n1. Dark Patterns - Manipulative UX\n2. Transparency - Honest communication\n3. User Autonomy - Choice and control\n4. Addictive Design - Unhealthy tactics\n5. Inclusivity - Bias check\n6. Score: Rate X/10 (MUST include)"
    case Trends =>
      "Analyze trend alignment:\n1. Current Trends - 2024-2025 trends\n2. Dated Elements - Outdated patterns\n3. Emerging Patterns - Cutting-edge techniques\n4. Industry Standards - Best practices\n5. Future-Proofing - Design longevity\n6. Score: Rate X/10 (MUST include)"
  }

  /** What tells one generated agent from another: its display name, its role line and its analysis points. */
  datatype Profile = Profile(displayName: string, roleLine: string, analysisPoints: string)

  /** The profile of each kind of agent, as the generating table fills it in. */
  function ProfileOf(k: AgentKind): Profile {
    Profile(DisplayName(k), RoleLine(k), AnalysisPoints(k))
  }

  const ContextLabel := "\n\nContext: "
  const Closing := "\n\nProvide detailed, actionable insights with specific recommendations."
  const DataUrlPrefix := "data:image/png;base64,"

  /** What comes before the caller's context in the prompt. */
  function PromptHead(p: Profile): string {
    p.roleLine + ContextLabel
  }

  /** What comes after the caller's context in the prompt. */
  function PromptTail(p: Profile): string {
    "\n\n" + p.analysisPoints + Closing
  }

  /** The f-string prompt: role line, "Context: " and the context, the analysis points, the closing request. */
  function Prompt(p: Profile, context: string): string {
    PromptHead(p) + context + PromptTail(p)
  }

  /** The image part's URL. */
  function DataUrl(image: string): string {
    DataUrlPrefix + image
  }

  /** The message list handed to the completion call: one user message, image first, prompt second. */
  function Request(p: Profile, image: string, context: string): seq<Message> {
    [Message("user", [ImageUrl(DataUrl(image)), TextPart(Prompt(p, context))])]
  }

  /** An agent object: the constants of its class and the completion oracle given to `__init__`. */
  datatype Agent = Agent(profile: Profile, llm: Llm) {

    /** `self.name`. */
    function Name(): string {
      profile.displayName
    }

    /** `analyze(image_data, context)`: one completion call, then the record, or the call's exception. */
    function Analyze(image: string, context: string): (o: Outcome)
      ensures o.Raise? <==> llm(Request(profile, image, context)).Raised?
      ensures o.Raise? ==> o.error == llm(Request(profile, image, context)).error
      ensures o.Ok? ==> o.record.agent == Name()
      ensures o.Ok? ==> o.record.analysis == llm(Request(profile, image, context)).text
    {
      match llm(Request(profile, image, context))
      case Raised(e) => Raise(e)
      case Returned(analysis) => Ok(Record(Name(), analysis, Float(ExtractScore(analysis))))
    }
  }

  /** Reads the image data back out of a data URL, if it has the PNG base64 prefix. */
  function ImageOf(url: string): (r: Option<string>)
    ensures r.Some? ==> DataUrl(r.value) == url
  {
    if |DataUrlPrefix| <= |url| && url[..|DataUrlPrefix|] == DataUrlPrefix
    then Some(url[|DataUrlPrefix|..])
    else None
  }

  /** Strips a known head and tail off `s`, if `s` starts with the one and ends with the other. */
  function Unframe(head: string, tail: string, s: string): (r: Option<string>)
    ensures r.Some? ==> head + r.value + tail == s
  {
    if |head| + |tail| <= |s| && s[..|head|] == head && s[|s| - |tail|..] == tail
    then
      var c := s[|head|..|s| - |tail|];
      assert s == s[..|head|] + c + s[|s| - |tail|..];
      Some(c)
    else None
  }

  lemma UnframeFramed(head: string, c: string, tail: string)
    ensures Unframe(head, tail, head + c + tail) == Some(c)
  {
    var s := head + c + tail;
    assert s[..|head|] == head;
    assert s[|s| - |tail|..] == tail;
    assert s[|head|..|s| - |tail|] == c;
  }

  /** Reads the caller's context back out of a prompt of agent `k`, if it has that agent's frame. */
  function ContextOf(p: Profile, prompt: string): (r: Option<string>)
    ensures r.Some? ==> Prompt(p, r.value) == prompt
  {
    Unframe(PromptHead(p), PromptTail(p), prompt)
  }

  /** The image reaches the model unchanged, after "data:image/png;base64,". */
  lemma ImageRoundTrip(image: string)
    ensures ImageOf(DataUrl(image)) == Some(image)
  {
    assert DataUrl(image)[..|DataUrlPrefix|] == DataUrlPrefix;
  }

  /** The caller's context sits verbatim after "Context: " in the prompt. */
  lemma ContextRoundTrip(p: Profile, context: string)
    ensures ContextOf(p, Prompt(p, context)) == Some(context)
  {
    UnframeFramed(PromptHead(p), context, PromptTail(p));
  }

  /** Different contexts give different prompts: nothing of the context is lost or rewritten. */
  lemma PromptKeepsContext(p: Profile, c1: string, c2: string)
    requires Prompt(p, c1) == Prompt(p, c2)
    ensures c1 == c2
  {
    ContextRoundTrip(p, c1);
    ContextRoundTrip(p, c2);
  }

  /** The request is a single user message with two parts, the image first and the prompt second. */
  lemma RequestShape(p: Profile, image: string, context: string)
    ensures |Request(p, image, context)| == 1
    ensures Request(p, image, context)[0].role == "user" && |Request(p, image, context)[0].content| == 2
    ensures Request(p, image, context)[0].content[0].ImageUrl?
    ensures Request(p, image, context)[0].content[1].TextPart?
  {
  }

  /** The first part carries the image data unchanged. */
  lemma RequestCarriesImage(p: Profile, image: string, context: string)
    ensures ImageOf(Request(p, image, context)[0].content[0].url) == Some(image)
  {
    ImageRoundTrip(image);
  }

  /** The second part carries the caller's context verbatim. */
  lemma RequestCarriesContext(p: Profile, image: string, context: string)
    ensures ContextOf(p, Request(p, image, context)[0].content[1].text) == Some(context)
  {
    ContextRoundTrip(p, context);
  }

  /** The score field is the extractor's reading of the analysis field, hence never negative. */
  lemma AnalyzeScoreReadsAnalysis(a: Agent, image: string, context: string)
    requires a.Analyze(image, context).Ok?
    ensures var rec := a.Analyze(image, context).record;
      rec.score == Float(ExtractScore(rec.analysis)) && rec.score.Value() >= 0.0
  {
  }

  /**
   * `analyze` depends on the oracle only through its answer to the one request
   * it makes: two oracles that agree there give the same outcome.
   */
  lemma AnalyzeMakesOneCall(p: Profile, llm1: Llm, llm2: Llm, image: string, context: string)
    requires llm1(Request(p, image, context)) == llm2(Request(p, image, context))
    ensures Agent(p, llm1).Analyze(image, context) == Agent(p, llm2).Analyze(image, context)
  {
  }

  /** Every display name opens with a pictograph, outside ASCII. */
  lemma DisplayNameStartsWithSymbol(k: AgentKind)
    ensures |DisplayName(k)| > 0 && DisplayName(k)[0] as int > 0x7F
  {
  }
}

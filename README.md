# Multi-agent design analysis and deep research: a verified model

The repository runs a set of LLM "agents" over one input and aggregates what
they return. This project models the deterministic logic around the model
calls and proves its properties in Dafny:

- **The score extractor and the design agents** (`ScoreExtractor`, `Agents`).
  Every design agent carries the same `_extract_score`. It lower-cases the
  narrative and tries three regular expressions in priority order:
  `score[:\s]+N/10`, then `rate[:\s]+N/10`, then a bare `N\s*/\s*10`. The
  first one that finds anything gives the score, and 7.5 is the fallback.
  - The model is a hand-written leftmost matcher, proved equal to a
    declarative reading of the three expressions. Worked examples live in
    `ScoreExamples`.
  - `analyze` builds one user message (the image as a PNG data URL, then the
    prompt with the caller's context). It makes exactly one completion call
    and returns `{agent, analysis, score}`, or lets the call's exception
    propagate.
  - The completion call is an oracle: a function from the message list to
    `Returned(text)` or `Raised(error)`.
- **The registry and dispatcher** (`Workflow`). Seven keys map to agents that
  share one LLM factory. `run_agent` turns an unknown key or a raised
  exception into a score-0 record that carries the raw key.
- **The design-analysis run** (`DesignApp`):
  - the checked agents are selected in the registry's key order;
  - each selected agent is run in turn, with the progress value;
  - the mean score is graded EXCELLENT / GOOD / NEEDS WORK;
  - the gauges show the first three results;
  - the markdown report is assembled from a header and one section per
    result.
- **The deep-research front end** (`ResearchApp`):
  - the domain-conditioned list of active agents;
  - the gate on the chosen provider's key;
  - the initial research state;
  - the fold of the graph's streamed updates into one state dictionary,
    together with the status lines it writes;
  - the result tabs and their index counter;
  - the rows of the sources table.
- **Agent-file generation** (`SetupProject`). `create_agents` fills one
  template per agent by `str.replace` of each `{{KEY}}` placeholder, in the
  entry's order. Each agent starts from a fresh copy of the template.

`Wrappers` holds the `Option` type. `Sequences` holds generic facts about
filtering a sequence by flags and about concatenating over a sequence.

Two behaviours of the code are worth stating plainly:

- Streamed updates are merged with `dict.update`, so for each key the last
  update that contains it wins (`ResearchApp.LastWriterWins`).
- An extracted score is not clamped to [0, 10]: "score: 15/10" gives 15
  (`ScoreExamples.NoClamping`).

## Model

| member | source | states |
|---|---|---|
| ScoreExtractor.ExtractScore | agents/brand_agent.py:49-56 | the extracted score is never negative, and it is exactly 7.5 when no pattern finds anything in the lower-cased text |
| ScoreExtractor.NumeralEndSound | agents/brand_agent.py:51 | what the greedy parse takes as group 1 is a numeral `\d+(\.\d+)?` |
| ScoreExtractor.NumeralEndExact | agents/brand_agent.py:51 | a numeral followed by neither a digit nor a dot is exactly what the greedy parse takes |
| ScoreExtractor.MatchAtCorrect | agents/brand_agent.py:51 | the matcher at position k yields v if and only if the regular expression matches at k with group 1 reading v |
| ScoreExtractor.SearchNoneIsNoMatch | agents/brand_agent.py:53 | a search finds nothing exactly when no position from its start on matches |
| ScoreExtractor.SearchStopsFirst | agents/conversion_agent.py:53-55 | a successful search reports the match at the first position that matches |
| ScoreExtractor.SearchCorrect | agents/brand_agent.py:53 | the search yields v if and only if `re.search` succeeds and its leftmost match has group 1 reading v |
| ScoreExtractor.ExtractScorePriority | agents/brand_agent.py:51-56 | a score label found anywhere decides the score; failing that a rate label; failing both a bare N/10; with none, 7.5 |
| ScoreExtractor.ScoreComesFromText | agents/ethical_agent.py:51-55 | any non-fallback score is a numeral of the lower-cased text standing just before `\s*/\s*10` |
| ScoreExtractor.ExtractScoreIgnoresCase | agents/brand_agent.py:53 | a text and its lower-cased form give the same score |
| ScoreExamples.LabelledScore | agents/brand_agent.py:51-55 | "Score: 8/10" gives 8 |
| ScoreExamples.LabelWinsOverEarlierRate | agents/brand_agent.py:51-55 | "rate 3/10 then 4/10, score: 9/10" gives 9: the score label wins over earlier rate and bare matches |
| ScoreExamples.RateLabel | agents/aesthetic_agent.py:51-55 | with no score label, "Rate 6.5/10" gives 6.5 |
| ScoreExamples.NoClamping | agents/aesthetic_agent.py:51-55 | "score: 15/10" gives 15, not 10 |
| ScoreExamples.NoDigitsFallsThrough | agents/aesthetic_agent.py:51-56 | "score: x/10" falls through every pattern to 7.5 |
| ScoreExamples.LabelNeedsAdjacentSlash | agents/conversion_agent.py:51-55 | "score: 9 /10, rate 3/10" gives 3: the label patterns need "/10" right after the number |
| ScoreExamples.BareAllowsSpaces | agents/conversion_agent.py:51 | "7 / 10" gives 7 |
| ScoreExamples.LeftmostWins | agents/conversion_agent.py:53-55 | "4/10 then 9/10" gives 4 |
| ScoreExamples.EmptyNarrative | agents/privacy_agent.py:52-56 | the empty text gives 7.5 |
| ScoreExamples.DecimalScore | agents/privacy_agent.py:51-55 | "score: 8.5/10" gives 8.5 |
| ScoreExamples.BareDotFallsThrough | agents/privacy_agent.py:51-56 | "score: 8./10" gives 7.5: a dot with no fraction digits defeats every pattern |
| ScoreExamples.NoBoundaryAfterTen | agents/ethical_agent.py:51 | "5/100" gives 5 |
| ScoreExamples.RateInsideWord | agents/ethical_agent.py:51-55 | "overall 2/10, accurate 3/10" gives 3, found by the rate pattern inside "accurate" |
| Agents.Agent.Analyze | agents/brand_agent.py:13-47 | the call raises exactly when the completion call raises, with the same message; otherwise the record names the agent by its display name and carries the completion text as analysis |
| Agents.AnalyzeScoreReadsAnalysis | agents/ethical_agent.py:40-47 | the score field is the extractor's reading of the analysis field, and it is never negative |
| Agents.AnalyzeMakesOneCall | agents/conversion_agent.py:30-40 | the outcome depends on the oracle only through its answer to the one request |
| Agents.RequestShape | agents/conversion_agent.py:30-38 | the request is one user message with two parts, the image first and the text second |
| Agents.ImageRoundTrip | agents/privacy_agent.py:34 | the image data is read back unchanged from after "data:image/png;base64," |
| Agents.RequestCarriesImage | agents/privacy_agent.py:30-38 | the image part of the request carries the image data unchanged |
| Agents.ContextRoundTrip | agents/privacy_agent.py:16-28 | the context is read back verbatim from between the prompt's fixed head (ending "Context: ") and its fixed tail |
| Agents.PromptKeepsContext | agents/privacy_agent.py:16-28 | different contexts give different prompts |
| Agents.RequestCarriesContext | agents/privacy_agent.py:16-35 | the text part of the request carries the context verbatim |
| Agents.DisplayNameStartsWithSymbol | agents/privacy_agent.py:11 | every display name opens with a non-ASCII pictograph |
| Workflow.NewWorkflow | graph/workflow.py:19-29 | the registry holds exactly the seven keys, and every agent uses the one LLM factory |
| Workflow.RegistryKeys | graph/workflow.py:21-29 | the keys are brand, aesthetic, conversion, monetization, privacy, ethical and trends |
| Workflow.RegistryAgents | graph/workflow.py:21-29 | each key holds the agent generated for its kind, built around the shared oracle |
| Workflow.KindsDistinct | graph/workflow.py:21-29 | no two keys hold the same kind of agent |
| Workflow.DesignAnalysisWorkflow.RunAgent | graph/workflow.py:31-41 | an unknown key gives (key, "Agent not found", 0); a raised error gives (key, "Error: " + message, 0); success gives the agent's own record unchanged |
| Workflow.RunAgentFailsSoftly | graph/workflow.py:31-41 | the score is the int 0 exactly when the key is unknown or the agent raised; a score-0 record carries the raw key; no score is negative |
| Workflow.UnknownKeyRunsNothing | graph/workflow.py:33-35 | for an unknown key, the record depends on neither the image, the context nor any agent |
| Workflow.DisplayNamesAreNotKeys | graph/workflow.py:33-41 | no display name equals a registry key |
| Workflow.SuccessCarriesDisplayName | graph/workflow.py:37-39 | a successful record names the agent by its display name, never by its raw key |
| DesignApp.SelectionCorrect | app.py:221-231 | a key is selected if and only if its box is checked; the selection keeps the registry's key order; the sidebar total is its length |
| DesignApp.SelectedByBox | app.py:221-231 | box by box, in the order of the boxes, each checked box adds its agent's key and an unchecked one adds nothing |
| DesignApp.DefaultSelection | app.py:174-188 | the default boxes select brand, aesthetic, conversion and trends, a total of 4 |
| DesignApp.RunSelected | app.py:248-259 | one result per selected key, result i being `run_agent` of key i, with progress value i being (i+1)/n |
| DesignApp.ProgressInRange | app.py:255 | every progress value (i+1)/n lies in (0, 1], and the last one is 1, for any number of selected agents |
| DesignApp.ProgressGrows | app.py:249-255 | the progress value increases strictly from one agent to the next |
| DesignApp.Scores | app.py:269 | score i is the score of result i, so the 7.5 default never applies |
| DesignApp.MeanBetween | app.py:270 | the average of a non-empty list lies between its lowest and highest score |
| DesignApp.MeanNotNegative | app.py:269-270 | the average of non-negative scores is never negative |
| DesignApp.StatusBands | app.py:282-283 | EXCELLENT if and only if avg >= 7, GOOD if and only if 5 <= avg < 7, NEEDS WORK if and only if avg < 5; the colour always agrees with the grade |
| DesignApp.StatusMonotone | app.py:282 | a higher average never gets a worse grade |
| DesignApp.EightAndSixIsExcellent | app.py:269-282 | scores 8 and 6 average to 7.0, graded EXCELLENT |
| DesignApp.Gauges | app.py:289-292 | gauges show (score, agent) of the first min(3, n) results, in order |
| DesignApp.NatToStringRoundTrip | app.py:308 | reading back the decimal digits of the agent count gives the count |
| DesignApp.SectionsSnoc | app.py:315-323 | one more result adds its section at the end of the report |
| DesignApp.SectionsAppend | app.py:315-323 | the sections of a concatenation are the sections of each part, concatenated |
| DesignApp.BuildReport | app.py:304-323 | the report is the header followed by one section per result, in order |
| DesignApp.SectionAt | app.py:315-323 | section i sits right after the header and the sections of the results before it |
| DesignApp.RunAnalysis | app.py:231-323 | warns without running anything exactly when nothing is selected; otherwise gives the results of the selected keys in order, their non-negative mean, its grade, the gauges and the report |
| ResearchApp.MapsCoverOptions | Group04/deep-research-hackathon/app.py:147-168 | every select-box option has a map entry, so the lookups never fail, and every discipline and mode is reachable |
| ResearchApp.AddDomainAgents | Group04/deep-research-hackathon/app.py:203-218 | the domain branch appends exactly the chosen discipline's tools |
| ResearchApp.DetectActiveAgents | Group04/deep-research-hackathon/app.py:193-227 | the list built by the append chain is the catalogue filtered by each tool's condition; the warning shows exactly when the list is empty |
| ResearchApp.ActiveAgentsBySection | Group04/deep-research-hackathon/app.py:193-222 | the list is the core tools, then the discipline's tools, then the context analyzer |
| ResearchApp.ActiveAgentsCorrect | Group04/deep-research-hackathon/app.py:193-222 | a tool is listed if and only if its condition holds; the list keeps catalogue order and has no duplicates |
| ResearchApp.CoreAndAlwaysOnAgents | Group04/deep-research-hackathon/app.py:196-222 | LLM Core if and only if "llm" is set, Tavily if and only if "search" is set, whatever the provider; Arxiv, PubMed, ClinicalTrials and Yahoo Finance if and only if their discipline is chosen; Context Analyzer if and only if a file or video URL was given |
| ResearchApp.KeyGatedAgents | Group04/deep-research-hackathon/app.py:203-218 | Semantic Scholar, Perplexity, Reddit, YouTube and GitHub are listed if and only if their discipline is chosen and their key is set |
| ResearchApp.LabelsDistinct | Group04/deep-research-hackathon/app.py:196-222 | different tools show different labels |
| ResearchApp.BannerLabelsDistinct | Group04/deep-research-hackathon/app.py:193-227 | the banner's joined list never shows a label twice |
| ResearchApp.NothingListedWithoutKeys | Group04/deep-research-hackathon/app.py:193-225 | no keys, no context and General give the empty list, and so the warning |
| ResearchApp.CheckProviderKey | Group04/deep-research-hackathon/app.py:233-241 | the provider defaults to OpenAI; the gate passes if and only if the provider is OpenAI, Anthropic or OpenRouter and its own key is set |
| ResearchApp.ProviderGate | Group04/deep-research-hackathon/app.py:233-245 | an unknown provider never passes; with no provider chosen the gate is the "llm" key, and passing it means LLM Core is listed |
| ResearchApp.InitialState | Group04/deep-research-hackathon/app.py:255-272 | the dumped state holds the schema's fields and the six given ones; every field the page does not pass keeps its default |
| ResearchApp.InitialStateDefaults | Group04/deep-research-hackathon/app.py:255-262 | whatever the schema's defaults, the question is kept unless empty (then "Research"), demo mode is off and the objective is "Deep Dive" |
| ResearchApp.ContextDataKeepsContext | Group04/deep-research-hackathon/app.py:251-252 | the processed context stays in front unchanged, and it is extended exactly when an ID was given |
| ResearchApp.WriteLogs | Group04/deep-research-hackathon/app.py:276-278 | one status line per log entry, in order, after those already written |
| ResearchApp.FoldOutput | Group04/deep-research-hackathon/app.py:275-279 | one output's updates are merged in order, and their status lines are written in order |
| ResearchApp.FoldStream | Group04/deep-research-hackathon/app.py:272-279 | the final state is the initial state merged with every update in stream order; the status pane shows every log line in emission order |
| ResearchApp.MergeAppend | Group04/deep-research-hackathon/app.py:274-279 | folding a + b is folding a, then folding b on top |
| ResearchApp.LastWriterWins | Group04/deep-research-hackathon/app.py:279 | a key ends with the value of the last update that contains it |
| ResearchApp.UntouchedKeysKept | Group04/deep-research-hackathon/app.py:272-279 | a key no update contains keeps its initial value, or stays absent |
| ResearchApp.MergeIsOverwrite | Group04/deep-research-hackathon/app.py:272-279 | the final state is the initial state overwritten by the merge of all updates |
| ResearchApp.MergeIdempotent | Group04/deep-research-hackathon/app.py:279 | replaying the same updates on the final state changes nothing |
| ResearchApp.LogLinesAppend | Group04/deep-research-hackathon/app.py:274-278 | the lines of earlier updates come first |
| ResearchApp.ReportTextChoice | Group04/deep-research-hackathon/app.py:297-298 | the report pane shows `templated_output` when truthy, else `report_md`, so it shows something exactly when either field holds something |
| ResearchApp.TabLayout | Group04/deep-research-hackathon/app.py:289-322 | tabs are Report, [Debate], [Critique], Sources; each pane's index points at the tab with its label, and Sources is last |
| ResearchApp.RowOf | Group04/deep-research-hackathon/app.py:327-335 | a row holds the title, the venue when truthy (else the domain) and the URL |
| ResearchApp.SourceRows | Group04/deep-research-hackathon/app.py:323-335 | one row per source, in order |
| ResearchApp.RowIgnoresForm | Group04/deep-research-hackathon/app.py:327-334 | a dictionary and an object with the same fields give the same row |
| SetupProject.ReplaceAbsent | setup_project.py:297 | replacing a placeholder that does not occur leaves the content unchanged |
| SetupProject.ReplaceLeftmostNonOverlapping | setup_project.py:297 | occurrences are replaced leftmost first and never overlap ("aaa" with "aa" replaced by "b" gives "ba") |
| SetupProject.ReplaceBySelf | setup_project.py:297 | replacing a pattern by itself leaves the content unchanged |
| SetupProject.NoNewPlaceholder | setup_project.py:296-297 | replacing with a brace-free value that is not part of a key creates no placeholder for that key |
| SetupProject.PlaceholderReplaced | setup_project.py:297 | after replacing `{{KEY}}` by a brace-free value that is not part of KEY, no `{{KEY}}` remains |
| SetupProject.FillAllReplacesEveryKey | setup_project.py:294-297 | after filling an entry with clean values, no placeholder for any of its keys remains |
| SetupProject.CreateAgents | setup_project.py:294-297 | file i is (name i, the template filled with entry i alone), so each agent starts from a fresh copy |
| SetupProject.MakeEntry | setup_project.py:193-292 | an entry supplies the six keys in order, and its last three values are the agent's profile |
| SetupProject.AgentsTable | setup_project.py:193-292 | the table has one entry per agent kind, in order |
| SetupProject.EntryKeys | setup_project.py:193-292 | every kind's entry supplies NAME, CLASS_NAME, DESCRIPTION, DISPLAY_NAME, PROMPT, ANALYSIS_POINTS in that order |
| SetupProject.TableKeys | setup_project.py:193-292 | every table entry supplies the same six keys in the same order |
| SetupProject.FileNamesDistinct | setup_project.py:193-292 | different kinds are written to different files |
| SetupProject.TableFilesDistinct | setup_project.py:193-294 | the table's file names are all different |

## Left out

- Streamlit rendering (CSS, HTML cards, spinners, progress widgets, status boxes, download buttons, chat messages). It is UI.
- `install_dependencies`, `image_to_base64` and `create_gauge`. They call pip, PIL and plotly; the model takes the base64 image as a string.
- The LLM client (`modules/llm_factory.py`) and `config.py`. A completion call is an oracle (`Agents.Llm`), and keys are a map from names to strings.
- LangGraph's `build_graph` and `app.stream`, `APIRegistry`, `process_context`, and loading or saving the environment. These are not part of this model. The stream is a given sequence of outputs, the processed context a given string, and the key store a map.
- agents/monetization_agent.py and agents/trend_agent.py are not part of this model. Their registry entries use the name, role line and analysis points from the generator's table in setup_project.py.
- The debate transcript and critique scorecard panes (Group04/deep-research-hackathon/app.py:302-318). Only their tab indices are modelled.
- Folder and file creation in setup_project.py. `CreateAgents` returns the (file name, content) pairs that would be written.
- ScoreExtractor.ExtractScore: text is ASCII. `lower()` maps A-Z only, `\d` is 0-9, and `\s` is ASCII whitespace; Unicode case folding and Unicode digits are not modelled.
- ScoreExtractor.NumeralValue: `float(...)` is read as an exact decimal. Binary rounding, here and in the average, is not modelled.
- DesignApp.RunAnalysis: the `:.1f` rendering of the average, the rendering of a score and the timestamp are parameters. The try/except at app.py:247 and 334-336 is not modelled, because in the model nothing inside it raises: `run_agent` catches every agent error, and the image conversion and widgets are left out.
- ResearchApp.InitialState: the research state's schema (its other fields and their defaults) is not part of this model, so it is a parameter. Only the six fields the page passes have known values.
- ResearchApp.FoldOutput: requires every update's "logs" field to be a list of log entries, as the graph's nodes emit them. A malformed field would make the Python loop raise or iterate differently.
- ResearchApp.FoldStream: requires every update of the stream to have well-formed logs, for the same reason.
- ResearchApp.RowOf: `getattr` on a value that is neither a dictionary nor a modelled object gives `Null` for every field.
- SetupProject.FillAllReplacesEveryKey: proved for any entry whose values are brace-free and not part of any key. That the seven concrete entries meet this is not proved, because the proof over their long literal values is too costly for the verifier.
- The prompt wording is constant data, written out in `Agents.RoleLine` and `Agents.AnalysisPoints`. Nothing is proved about it beyond its place in the prompt.

/**
 * One design-analysis run of the Streamlit front end (app.py, `main`), with
 * the widgets stripped: the checked agents are selected in the registry's
 * key order, run one after the other, their scores averaged and graded, and
 * a markdown report assembled from a header and one section per result.
 *
 * The `:.1f` rendering of the average and Python's rendering of a score are
 * given as parameters, and so is the timestamp.
 */
module DesignApp {
  import opened ScoreExtractor
  import opened Agents
  import opened Workflow
  import opened Sequences

  // ---------------------------------------------------------------------------
  // Agent selection
  // ---------------------------------------------------------------------------

  /** The seven sidebar checkboxes. */
  datatype Checklist = Checklist(brand: bool, aesthetic: bool, conversion: bool, monetization: bool,
                                 privacy: bool, ethical: bool, trends: bool)

  /** The boxes as the page first shows them. */
  const DefaultChecklist := Checklist(true, true, true, false, false, false, true)

  /** The values of `agent_map`, in the order of its keys (the registry's key order). */
  function Checked(c: Checklist): (flags: seq<bool>)
    ensures |flags| == |AgentKeys|
  {
    [c.brand, c.aesthetic, c.conversion, c.monetization, c.privacy, c.ethical, c.trends]
  }

  /** The sidebar's "agents active" figure. */
  function Total(c: Checklist): nat {
    CountTrue(Checked(c))
  }

  /** `selected`: the keys whose box is checked. */
  function Selected(c: Checklist): seq<string> {
    Filter(AgentKeys, Checked(c))
  }

  /**
   * The selection keeps exactly the checked keys, in the registry's key order,
   * and the sidebar's total is its length.
   */
  lemma SelectionCorrect(c: Checklist)
    ensures forall key :: key in Selected(c) <==> exists i :: 0 <= i < |AgentKeys| && AgentKeys[i] == key && Checked(c)[i]
    ensures IsSubsequence(Selected(c), AgentKeys)
    ensures Total(c) == |Selected(c)|
  {
    forall key {
      FilterMembers(AgentKeys, Checked(c), key);
    }
    FilterIsSubsequence(AgentKeys, Checked(c));
    FilterLength(AgentKeys, Checked(c));
  }

  /** Box by box: each checked box adds its agent's key, in the order of the boxes. */
  lemma SelectedByBox(c: Checklist)
    ensures Selected(c)
      == ((if c.brand then ["brand"] else []) + (if c.aesthetic then ["aesthetic"] else []) + (if c.conversion then ["conversion"] else []))
      + ((if c.monetization then ["monetization"] else []) + (if c.privacy then ["privacy"] else []) + (if c.ethical then ["ethical"] else []))
      + (if c.trends then ["trends"] else [])
  {
    var k1, k2, k3 := ["brand", "aesthetic", "conversion"], ["monetization", "privacy", "ethical"], ["trends"];
    var f1, f2, f3 := [c.brand, c.aesthetic, c.conversion], [c.monetization, c.privacy, c.ethical], [c.trends];
    assert AgentKeys == k1 + k2 + k3;
    assert Checked(c) == f1 + f2 + f3;
    FilterTriple("brand", "aesthetic", "conversion", c.brand, c.aesthetic, c.conversion);
    FilterTriple("monetization", "privacy", "ethical", c.monetization, c.privacy, c.ethical);
    FilterSnoc([], [], "trends", c.trends);
    assert [] + ["trends"] == k3 && [] + [c.trends] == f3;
    assert Filter(k3, f3) == (if c.trends then ["trends"] else []);
    FilterAppend(k1, f1, k2, f2);
    FilterAppend(k1 + k2, f1 + f2, k3, f3);
  }

  /** The default boxes select brand, aesthetic, conversion and trends. */
  lemma DefaultSelection()
    ensures Selected(DefaultChecklist) == ["brand", "aesthetic", "conversion", "trends"]
    ensures Total(DefaultChecklist) == 4
  {
    SelectedByBox(DefaultChecklist);
    FilterLength(AgentKeys, Checked(DefaultChecklist));
  }

  // ---------------------------------------------------------------------------
  // The run loop
  // ---------------------------------------------------------------------------

  /** The agent loop: one `run_agent` per selected key, in order, with the progress bar's value at each step. */
  method RunSelected(w: DesignAnalysisWorkflow, selected: seq<string>, image: string, context: string)
    returns (results: seq<Record>, progress: seq<real>)
    ensures |results| == |selected| && |progress| == |selected|
    ensures forall i | 0 <= i < |selected| :: results[i] == w.RunAgent(selected[i], image, context)
    ensures forall i | 0 <= i < |progress| :: progress[i] == Progress(i, |selected|)
  {
    results, progress := [], [];
    var n := |selected|;
    for idx := 0 to n
      invariant |results| == idx && |progress| == idx
      invariant forall i | 0 <= i < idx :: results[i] == w.RunAgent(selected[i], image, context)
      invariant forall i | 0 <= i < idx :: progress[i] == Progress(i, n)
    {
      progress := progress + [Progress(idx, n)];
      var result := w.RunAgent(selected[idx], image, context);
      results := results + [result];
    }
  }

  /** `(idx+1)/len(selected)`: the progress bar's value after starting agent `idx` of `n`. */
  function Progress(idx: nat, n: nat): real
    requires idx < n
  {
    (idx + 1) as real / n as real
  }

  /** Every progress value lies in (0, 1], and the last agent's is 1, even when only one agent runs. */
  lemma ProgressInRange(i: nat, n: nat)
    requires i < n
    ensures 0.0 < Progress(i, n) <= 1.0
    ensures Progress(n - 1, n) == 1.0
  {
    var m := n as real;
    assert 0.0 < (i + 1) as real <= m;
    assert Progress(i, n) * m == (i + 1) as real;
  }

  /** The progress value grows strictly from one agent to the next. */
  lemma ProgressGrows(i: nat, j: nat, n: nat)
    requires i < j < n
    ensures Progress(i, n) < Progress(j, n)
  {
    var m := n as real;
    assert (i + 1) as real < (j + 1) as real <= m;
    assert Progress(i, n) * m == (i + 1) as real;
    assert Progress(j, n) * m == (j + 1) as real;
  }

  // ---------------------------------------------------------------------------
  // Average and status
  // ---------------------------------------------------------------------------

  /** `scores = [r.get('score', 7.5) for r in results]`: every record has a score, so the default is never used. */
  function Scores(results: seq<Record>): (s: seq<real>)
    ensures |s| == |results| && forall i | 0 <= i < |s| :: s[i] == results[i].score.Value()
  {
    seq(|results|, i requires 0 <= i < |results| => results[i].score.Value())
  }

  function Sum(s: seq<real>): real {
    if s == [] then 0.0 else Sum(s[..|s| - 1]) + s[|s| - 1]
  }

  /** `sum(scores) / len(scores) if scores else 0`. */
  function Mean(s: seq<real>): real {
    if s == [] then 0.0 else Sum(s) / |s| as real
  }

  lemma {:induction false} SumBounds(s: seq<real>, lo: real, hi: real)
    requires forall i | 0 <= i < |s| :: lo <= s[i] <= hi
    ensures |s| as real * lo <= Sum(s) <= |s| as real * hi
  {
    if s != [] {
      SumBounds(s[..|s| - 1], lo, hi);
    }
  }

  /** The average lies between the lowest and the highest score. */
  lemma MeanBetween(s: seq<real>, lo: real, hi: real)
    requires s != []
    requires forall i | 0 <= i < |s| :: lo <= s[i] <= hi
    ensures lo <= Mean(s) <= hi
  {
    SumBounds(s, lo, hi);
    var n := |s| as real;
    assert n * lo <= Sum(s) <= n * hi;
    assert Mean(s) == Sum(s) / n;
    assert lo == (n * lo) / n && hi == (n * hi) / n;
  }

  /** The record scores of a run are never negative, so neither is their average. */
  lemma MeanNotNegative(s: seq<real>)
    requires forall i | 0 <= i < |s| :: s[i] >= 0.0
    ensures Mean(s) >= 0.0
  {
    SumNotNegative(s);
  }

  lemma {:induction false} SumNotNegative(s: seq<real>)
    requires forall i | 0 <= i < |s| :: s[i] >= 0.0
    ensures Sum(s) >= 0.0
  {
    if s != [] {
      SumNotNegative(s[..|s| - 1]);
    }
  }

  datatype Status = Excellent | Good | NeedsWork {
    function Label(): string {
      match this
      case Excellent => "EXCELLENT"
      case Good => "GOOD"
      case NeedsWork => "NEEDS WORK"
    }

    /** How good the grade is, for comparing grades. */
    function Rank(): nat {
      match this
      case Excellent => 2
      case Good => 1
      case NeedsWork => 0
    }
  }

  /** `status_txt`: EXCELLENT from 7, GOOD from 5, NEEDS WORK below. */
  function StatusOf(avg: real): Status {
    if avg >= 7.0 then Excellent else if avg >= 5.0 then Good else NeedsWork
  }

  /** `color`, chosen by its own conditional on the same thresholds. */
  function ColorOf(avg: real): string {
    if avg >= 7.0 then "#00ff00" else if avg >= 5.0 then "#ffa500" else "#ff0000"
  }

  /** The colour that goes with each grade. */
  function StatusColor(s: Status): string {
    match s
    case Excellent => "#00ff00"
    case Good => "#ffa500"
    case NeedsWork => "#ff0000"
  }

  /** The three grades split the number line at 5 and 7, and the colour always agrees with the grade. */
  lemma StatusBands(avg: real)
    ensures StatusOf(avg) == Excellent <==> avg >= 7.0
    ensures StatusOf(avg) == Good <==> 5.0 <= avg < 7.0
    ensures StatusOf(avg) == NeedsWork <==> avg < 5.0
    ensures ColorOf(avg) == StatusColor(StatusOf(avg))
  {
  }

  /** A higher average never gets a worse grade. */
  lemma StatusMonotone(a: real, b: real)
    requires a <= b
    ensures StatusOf(a).Rank() <= StatusOf(b).Rank()
  {
  }

  /** Scores 8 and 6 average to 7.0, which is graded EXCELLENT. */
  lemma EightAndSixIsExcellent()
    ensures Mean([8.0, 6.0]) == 7.0
    ensures StatusOf(Mean([8.0, 6.0])).Label() == "EXCELLENT"
  {
    assert [8.0, 6.0][..1] == [8.0];
    assert Sum([8.0, 6.0]) == 14.0;
  }

  // ---------------------------------------------------------------------------
  // Gauges and report
  // ---------------------------------------------------------------------------

  /** The gauges: (score, agent) of the first three results at most. */
  function Gauges(results: seq<Record>): (g: seq<(real, string)>)
    ensures |g| == if |results| < 3 then |results| else 3
    ensures forall i | 0 <= i < |g| :: g[i] == (results[i].score.Value(), results[i].agent)
  {
    var shown := if |results| < 3 then results else results[..3];
    seq(|shown|, i requires 0 <= i < |shown| => (shown[i].score.Value(), shown[i].agent))
  }

  function DigitChar(d: nat): (c: char)
    requires d < 10
    ensures '0' <= c <= '9' && DigitValue(c) == d
  {
    ('0' as int + d) as char
  }

  /** `str(n)` for a count. */
  function NatToString(n: nat): (s: string)
    ensures |s| > 0
    ensures forall i | 0 <= i < |s| :: '0' <= s[i] <= '9'
  {
    if n < 10 then [DigitChar(n)] else NatToString(n / 10) + [DigitChar(n % 10)]
  }

  /** Reading the decimal digits back gives the count. */
  lemma {:induction false} NatToStringRoundTrip(n: nat)
    ensures DigitsValue(NatToString(n)) == n
  {
    var s := NatToString(n);
    if n >= 10 {
      NatToStringRoundTrip(n / 10);
      assert s[..|s| - 1] == NatToString(n / 10);
    } else {
      assert s[..0] == [];
    }
  }

  const ReportTitle := "# 🤖 AI DESIGN INTELLIGENCE REPORT\n**Multi-Agent Analysis System**\n\n"

  /** The report header: context, number of agents, the rendered average and the timestamp. */
  function Header(context: string, agents: nat, avgText: string, timestamp: string): string {
    ReportTitle + "**Context:** " + context + "\n**Agents:** " + NatToString(agents)
    + "\n**Avg Score:** " + avgText + "/10\n**Timestamp:** " + timestamp + "\n\n---\n\n"
  }

  /** One result's section: heading with the agent, the rendered score, the analysis and a rule. */
  function Section(r: Record, showScore: Score -> string): string {
    "## " + r.agent + "\n**Score:** " + showScore(r.score) + "/10\n\n" + r.analysis + "\n\n---\n\n"
  }

  /** The sections of `results`, in order. */
  function Sections(results: seq<Record>, showScore: Score -> string): string {
    if results == [] then "" else Sections(results[..|results| - 1], showScore) + Section(results[|results| - 1], showScore)
  }

  /** One more result adds its section at the end. */
  lemma SectionsSnoc(s: seq<Record>, x: Record, showScore: Score -> string)
    ensures Sections(s + [x], showScore) == Sections(s, showScore) + Section(x, showScore)
  {
    assert (s + [x])[..|s|] == s;
  }

  lemma {:induction false} SectionsAppend(a: seq<Record>, b: seq<Record>, showScore: Score -> string)
    ensures Sections(a + b, showScore) == Sections(a, showScore) + Sections(b, showScore)
    decreases |b|
  {
    if b == [] {
      assert a + b == a;
    } else {
      var c, x := b[..|b| - 1], b[|b| - 1];
      assert a + b == (a + c) + [x];
      assert b == c + [x];
      SectionsSnoc(a + c, x, showScore);
      SectionsSnoc(c, x, showScore);
      SectionsAppend(a, c, showScore);
    }
  }

  /** The `report +=` loop over the results. */
  method BuildReport(header: string, results: seq<Record>, showScore: Score -> string) returns (report: string)
    ensures report == header + Sections(results, showScore)
  {
    report := header;
    for i := 0 to |results|
      invariant report == header + Sections(results[..i], showScore)
    {
      assert results[..i + 1] == results[..i] + [results[i]];
      SectionsSnoc(results[..i], results[i], showScore);
      report := report + Section(results[i], showScore);
    }
    assert results[..|results|] == results;
  }

  /**
   * Section `i` of the report sits right after the header and the sections
   * of the results before it: one section per result, in order.
   */
  lemma SectionAt(header: string, results: seq<Record>, showScore: Score -> string, i: nat)
    requires i < |results|
    ensures var report := header + Sections(results, showScore);
      var start := |header| + |Sections(results[..i], showScore)|;
      start + |Section(results[i], showScore)| <= |report|
      && report[start..start + |Section(results[i], showScore)|] == Section(results[i], showScore)
  {
    var before, here, after := results[..i], results[i], results[i + 1..];
    assert results == (before + [here]) + after;
    SectionsSnoc(before, here, showScore);
    SectionsAppend(before + [here], after, showScore);
    SliceOfJoin(header, Sections(before, showScore), Section(here, showScore), Sections(after, showScore));
  }

  /** In `h + ((a + y) + z)`, the part `y` is found right after `h + a`. */
  lemma SliceOfJoin(h: string, a: string, y: string, z: string)
    ensures |h| + |a| + |y| <= |h + ((a + y) + z)|
    ensures (h + ((a + y) + z))[|h| + |a|..|h| + |a| + |y|] == y
  {
    assert h + ((a + y) + z) == (h + a) + y + z;
  }

  // ---------------------------------------------------------------------------
  // The whole run
  // ---------------------------------------------------------------------------

  datatype DesignRun =
    | NoAgents
    | Done(results: seq<Record>, progress: seq<real>, avg: real, status: Status,
           gauges: seq<(real, string)>, report: string)

  /** Pressing the scan button: warn on an empty selection, otherwise run, grade and report. */
  method RunAnalysis(checks: Checklist, llm: Llm, image: string, context: string, timestamp: string,
                     showAvg: real -> string, showScore: Score -> string)
    returns (run: DesignRun)
    ensures run.NoAgents? <==> Selected(checks) == []
    ensures run.Done? ==>
      && |run.results| == |Selected(checks)|
      && (forall i | 0 <= i < |run.results| :: run.results[i] == NewWorkflow(llm).RunAgent(Selected(checks)[i], image, context))
      && run.avg == Mean(Scores(run.results))
      && run.avg >= 0.0
      && run.status == StatusOf(run.avg)
      && run.gauges == Gauges(run.results)
      && run.report == Header(context, |Selected(checks)|, showAvg(run.avg), timestamp) + Sections(run.results, showScore)
  {
    var selected := Selected(checks);
    if selected == [] {
      return NoAgents;
    }
    var workflow := NewWorkflow(llm);
    var results, progress := RunSelected(workflow, selected, image, context);
    var scores := Scores(results);
    var avg := Mean(scores);
    forall i | 0 <= i < |scores| ensures scores[i] >= 0.0 {
      RunAgentFailsSoftly(workflow, selected[i], image, context);
    }
    MeanNotNegative(scores);
    var header := Header(context, |selected|, showAvg(avg), timestamp);
    var report := BuildReport(header, results, showScore);
    run := Done(results, progress, avg, StatusOf(avg), Gauges(results), report);
  }
}

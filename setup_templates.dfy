/**
 * The agent-file generator of setup_project.py (`create_agents`).
 *
 * Every agent module is produced from one template by replacing the
 * placeholders `{{KEY}}` with the entry's values, key by key in the entry's
 * order, each replacement rewriting every non-overlapping occurrence
 * (Python's `str.replace`).  Each agent starts from a fresh copy of the
 * template.  The file writes are left out: the result is the list of
 * (file name, content) pairs that would be written.
 */
module SetupProject {
  import opened Agents

  // ---------------------------------------------------------------------------
  // str.replace
  // ---------------------------------------------------------------------------

  /** `x` occurs in `s` as a contiguous block starting at index `i`. */
  predicate At(x: string, s: string, i: int) {
    0 <= i && i + |x| <= |s| && s[i..i + |x|] == x
  }

  /** `x` occurs in `s` as a contiguous block. */
  predicate Occurs(x: string, s: string) {
    exists i | 0 <= i <= |s| :: At(x, s, i)
  }

  /** `s` starts with `x`. */
  predicate StartsWith(s: string, x: string) {
    |x| <= |s| && s[..|x|] == x
  }

  /** `s.replace(pat, rep)`: scanning left to right, each occurrence of `pat` is replaced and scanning resumes after it. */
  function ReplaceAll(s: string, pat: string, rep: string): string
    requires pat != []
    decreases |s|
  {
    if |s| < |pat| then s
    else if s[..|pat|] == pat then rep + ReplaceAll(s[|pat|..], pat, rep)
    else [s[0]] + ReplaceAll(s[1..], pat, rep)
  }

  predicate BraceFree(s: string) {
    forall i | 0 <= i < |s| :: s[i] != '{' && s[i] != '}'
  }

  /** The placeholder written for `key`. */
  function Placeholder(key: string): (p: string)
    ensures |p| == |key| + 4 && p[0] == '{' && p[1] == '{' && p[|p| - 2] == '}' && p[|p| - 1] == '}'
    ensures p[2..|p| - 2] == key
  {
    "{{" + key + "}}"
  }

  /** Replacing a pattern that does not occur leaves the text unchanged. */
  lemma {:induction false} ReplaceAbsent(s: string, pat: string, rep: string)
    requires pat != [] && !Occurs(pat, s)
    ensures ReplaceAll(s, pat, rep) == s
    decreases |s|
  {
    if |s| >= |pat| {
      assert s[0..|pat|] == s[..|pat|];
      assert !At(pat, s, 0);
      assert !Occurs(pat, s[1..]) by {
        forall i ensures !At(pat, s[1..], i) {
          if At(pat, s[1..], i) {
            assert s[1..][i..i + |pat|] == s[i + 1..i + 1 + |pat|];
            assert At(pat, s, i + 1);
          }
        }
      }
      ReplaceAbsent(s[1..], pat, rep);
    }
  }

  /** Occurrences are replaced leftmost first and never overlap: in "aaa" only the first "aa" is rewritten. */
  lemma ReplaceLeftmostNonOverlapping()
    ensures ReplaceAll("aaa", "aa", "b") == "ba"
  {
    assert "aaa"[2..] == "a";
  }

  /** Replacing a pattern by itself leaves the text unchanged. */
  lemma {:induction false} ReplaceBySelf(s: string, pat: string)
    requires pat != []
    ensures ReplaceAll(s, pat, pat) == s
    decreases |s|
  {
    if |s| >= |pat| {
      if s[..|pat|] == pat {
        ReplaceBySelf(s[|pat|..], pat);
        assert s == s[..|pat|] + s[|pat|..];
      } else {
        ReplaceBySelf(s[1..], pat);
        assert s == [s[0]] + s[1..];
      }
    }
  }

  /** `x` occurring in a suffix of `s` occurs in `s`. */
  lemma OccursInSuffix(x: string, s: string, n: nat)
    requires n <= |s| && Occurs(x, s[n..])
    ensures Occurs(x, s)
  {
    var k: int :| At(x, s[n..], k);
    assert At(x, s[n..], k);
    assert s[n + k..n + k + |x|] == s[n..][k..k + |x|];
    assert At(x, s, n + k);
  }

  /**
   * A brace-free value supplies no piece of a placeholder for a key it is not
   * part of: `v + rest` does not start with any suffix of `{{key}}`.
   */
  lemma ValueIsNoPiece(v: string, rest: string, key: string, j: nat)
    requires BraceFree(v) && !Occurs(v, key) && j < |Placeholder(key)|
    ensures !StartsWith(v + rest, Placeholder(key)[j..])
  {
    var p, w := Placeholder(key), v + rest;
    assert v != [] by {
      assert At([], key, 0);
    }
    if |w| >= |p| - j {
      // an index where `w` and the suffix of the placeholder differ
      var d: nat;
      if |p| - j <= |v| {
        d := |p| - j - 1;
        assert w[d] == v[d] != p[|p| - 1];
      } else if j < 2 {
        d := 0;
        assert w[0] == v[0] != p[j];
      } else if j + |v| > |p| - 2 {
        d := |p| - 2 - j;
        assert w[d] == v[d] != p[|p| - 2];
      } else {
        assert !At(v, key, j - 2);
        assert v != key[j - 2..j - 2 + |v|];
        d :| 0 <= d < |v| && v[d] != key[j - 2..j - 2 + |v|][d];
        assert w[d] == v[d] != p[j + d];
      }
      assert w[d] != p[j..][d];
    }
  }

  /** A placeholder found in `v + rest` lies wholly inside `rest`. */
  lemma PlaceholderAfterValue(v: string, rest: string, p: string, i: int)
    requires BraceFree(v) && |p| > 0 && p[0] == '{' && At(p, v + rest, i)
    ensures i >= |v| && At(p, rest, i - |v|)
  {
    assert (v + rest)[i] == '{' by {
      assert (v + rest)[i..i + |p|][0] == p[0];
    }
    assert i >= |v|;
    assert (v + rest)[i..i + |p|] == rest[i - |v|..i - |v| + |p|];
  }

  /**
   * If the output of replacing `q` by `v` starts with a suffix `p[j..]` of the
   * placeholder `p = {{key}}`, so does the input: a brace-free value that is
   * not part of `key` cannot supply any piece of a placeholder for `key`.
   */
  lemma {:induction false} SuffixComesFromInput(t: string, q: string, v: string, key: string, j: nat)
    requires q != [] && BraceFree(v) && !Occurs(v, key) && j < |Placeholder(key)|
    ensures StartsWith(ReplaceAll(t, q, v), Placeholder(key)[j..]) ==> StartsWith(t, Placeholder(key)[j..])
    decreases |t|
  {
    var p := Placeholder(key);
    var r := ReplaceAll(t, q, v);
    if StartsWith(r, p[j..]) && |t| >= |q| {
      ValueIsNoPiece(v, ReplaceAll(t[|q|..], q, v), key, j);
      assert t[..|q|] != q;
      var rest := ReplaceAll(t[1..], q, v);
      assert r == [t[0]] + rest;
      assert t[0] == r[0] == p[j];
      if j + 1 < |p| {
        assert StartsWith(rest, p[j + 1..]) by {
          forall k | 0 <= k < |p| - j - 1 ensures rest[k] == p[j + 1..][k] {
            assert r[k + 1] == p[j..][k + 1];
          }
        }
        SuffixComesFromInput(t[1..], q, v, key, j + 1);
        assert t[..|p| - j] == [t[0]] + t[1..][..|p| - j - 1];
      } else {
        assert t[..|p| - j] == [t[0]];
      }
    }
  }

  /** The inductive step of `NoNewPlaceholder`, for a placeholder found at index `i` of the output. */
  lemma {:induction false} NoNewPlaceholderAt(t: string, q: string, v: string, key: string, i: int)
    requires q != [] && BraceFree(v) && !Occurs(v, key)
    requires At(Placeholder(key), ReplaceAll(t, q, v), i)
    ensures Occurs(Placeholder(key), t)
    decreases |t|, 1
  {
    var p := Placeholder(key);
    if |t| < |q| {
      assert ReplaceAll(t, q, v) == t;
      assert At(p, t, i);
    } else if t[..|q|] == q {
      NoNewPlaceholderAfterMatch(t, q, v, key, i);
    } else {
      NoNewPlaceholderAfterChar(t, q, v, key, i);
    }
  }

  /** `NoNewPlaceholderAt` when the input starts with `q`: the placeholder lies after the value. */
  lemma {:induction false} NoNewPlaceholderAfterMatch(t: string, q: string, v: string, key: string, i: int)
    requires q != [] && BraceFree(v) && !Occurs(v, key)
    requires |t| >= |q| && t[..|q|] == q
    requires At(Placeholder(key), ReplaceAll(t, q, v), i)
    ensures Occurs(Placeholder(key), t)
    decreases |t|, 0
  {
    var p := Placeholder(key);
    var rest := ReplaceAll(t[|q|..], q, v);
    assert ReplaceAll(t, q, v) == v + rest;
    PlaceholderAfterValue(v, rest, p, i);
    NoNewPlaceholderAt(t[|q|..], q, v, key, i - |v|);
    OccursInSuffix(p, t, |q|);
  }

  /** A placeholder at the very start of the output was at the start of the input. */
  lemma PlaceholderAtStart(t: string, q: string, v: string, key: string)
    requires q != [] && BraceFree(v) && !Occurs(v, key)
    requires StartsWith(ReplaceAll(t, q, v), Placeholder(key))
    ensures At(Placeholder(key), t, 0)
  {
    var p := Placeholder(key);
    assert p[0..] == p;
    SuffixComesFromInput(t, q, v, key, 0);
    assert t[0..|p|] == t[..|p|];
  }

  /** A block found past the first character of `[c] + s` is found in `s`, one index earlier. */
  lemma AtCons(c: char, s: string, x: string, i: int)
    requires 0 < i && At(x, [c] + s, i)
    ensures At(x, s, i - 1)
  {
    assert ([c] + s)[i..i + |x|] == s[i - 1..i - 1 + |x|];
  }

  /** `NoNewPlaceholderAt` when the input does not start with `q`: its first character is copied. */
  lemma {:induction false} NoNewPlaceholderAfterChar(t: string, q: string, v: string, key: string, i: int)
    requires q != [] && BraceFree(v) && !Occurs(v, key)
    requires |t| >= |q| && t[..|q|] != q
    requires At(Placeholder(key), ReplaceAll(t, q, v), i)
    ensures Occurs(Placeholder(key), t)
    decreases |t|, 0
  {
    var p := Placeholder(key);
    var r := ReplaceAll(t, q, v);
    var rest := ReplaceAll(t[1..], q, v);
    assert r == [t[0]] + rest;
    if i == 0 {
      assert r[0..|p|] == r[..|p|];
      PlaceholderAtStart(t, q, v, key);
    } else {
      AtCons(t[0], rest, p, i);
      NoNewPlaceholderAt(t[1..], q, v, key, i - 1);
      OccursInSuffix(p, t, 1);
    }
  }

  /**
   * Replacing `q` by a brace-free value that is not part of `key` creates no
   * new placeholder for `key`: every one in the output was already in the input.
   */
  lemma NoNewPlaceholder(t: string, q: string, v: string, key: string)
    requires q != [] && BraceFree(v) && !Occurs(v, key)
    ensures Occurs(Placeholder(key), ReplaceAll(t, q, v)) ==> Occurs(Placeholder(key), t)
  {
    var p := Placeholder(key);
    var r := ReplaceAll(t, q, v);
    if Occurs(p, r) {
      var i: int :| At(p, r, i);
      NoNewPlaceholderAt(t, q, v, key, i);
    }
  }

  /** The inductive step of `PlaceholderReplaced`: no placeholder is left at index `i`. */
  lemma {:induction false} PlaceholderReplacedAt(t: string, v: string, key: string, i: int)
    requires BraceFree(v) && !Occurs(v, key)
    ensures !At(Placeholder(key), ReplaceAll(t, Placeholder(key), v), i)
    decreases |t|, 1
  {
    var p := Placeholder(key);
    if |t| < |p| {
      assert ReplaceAll(t, p, v) == t;
    } else if t[..|p|] == p {
      PlaceholderReplacedAfterMatch(t, v, key, i);
    } else {
      PlaceholderReplacedAfterChar(t, v, key, i);
    }
  }

  /** `PlaceholderReplacedAt` when the input starts with the placeholder, which becomes the value. */
  lemma {:induction false} PlaceholderReplacedAfterMatch(t: string, v: string, key: string, i: int)
    requires BraceFree(v) && !Occurs(v, key)
    requires |t| >= |Placeholder(key)| && t[..|Placeholder(key)|] == Placeholder(key)
    ensures !At(Placeholder(key), ReplaceAll(t, Placeholder(key), v), i)
    decreases |t|, 0
  {
    var p := Placeholder(key);
    var r := ReplaceAll(t, p, v);
    var rest := ReplaceAll(t[|p|..], p, v);
    assert r == v + rest;
    if 0 <= i < |v| && i + |p| <= |r| {
      assert r[i] == v[i] != p[0];
      assert r[i..i + |p|][0] != p[0];
    } else if |v| <= i && i + |p| <= |r| {
      assert r[i..i + |p|] == rest[i - |v|..i - |v| + |p|];
      PlaceholderReplacedAt(t[|p|..], v, key, i - |v|);
    }
  }

  /** `PlaceholderReplacedAt` when the input does not start with the placeholder: its first character is copied. */
  lemma {:induction false} PlaceholderReplacedAfterChar(t: string, v: string, key: string, i: int)
    requires BraceFree(v) && !Occurs(v, key)
    requires |t| >= |Placeholder(key)| && t[..|Placeholder(key)|] != Placeholder(key)
    ensures !At(Placeholder(key), ReplaceAll(t, Placeholder(key), v), i)
    decreases |t|, 0
  {
    var p := Placeholder(key);
    var r := ReplaceAll(t, p, v);
    var rest := ReplaceAll(t[1..], p, v);
    assert r == [t[0]] + rest;
    if i == 0 && |p| <= |r| {
      SuffixComesFromInput(t, p, v, key, 0);
      assert p[0..] == p;
      assert !StartsWith(t, p);
      assert !StartsWith(r, p);
      assert r[0..|p|] == r[..|p|];
    } else if 0 < i && i + |p| <= |r| {
      assert r[i..i + |p|] == rest[i - 1..i - 1 + |p|];
      PlaceholderReplacedAt(t[1..], v, key, i - 1);
    }
  }

  /** After replacing `{{key}}` by a brace-free value that is not part of `key`, no `{{key}}` remains. */
  lemma PlaceholderReplaced(t: string, v: string, key: string)
    requires BraceFree(v) && !Occurs(v, key)
    ensures !Occurs(Placeholder(key), ReplaceAll(t, Placeholder(key), v))
  {
    var r := ReplaceAll(t, Placeholder(key), v);
    forall i | 0 <= i <= |r| ensures !At(Placeholder(key), r, i) {
      PlaceholderReplacedAt(t, v, key, i);
    }
  }

  // ---------------------------------------------------------------------------
  // Filling the template
  // ---------------------------------------------------------------------------

  /** An entry of the agents table: (key, value) pairs in insertion order. */
  type Entry = seq<(string, string)>

  /** The content after replacing each key of `entry` in turn. */
  function FillAll(template: string, entry: Entry): string {
    if entry == [] then template
    else
      var n := |entry| - 1;
      ReplaceAll(FillAll(template, entry[..n]), Placeholder(entry[n].0), entry[n].1)
  }

  /** Every value is brace-free and is not part of any key of the entry. */
  predicate CleanValues(entry: Entry) {
    forall m, n | 0 <= m < |entry| && 0 <= n < |entry| :: BraceFree(entry[m].1) && !Occurs(entry[m].1, entry[n].0)
  }

  /** After filling, no placeholder for any of the entry's keys is left. */
  lemma {:induction false} FillAllReplacesEveryKey(template: string, entry: Entry, m: nat)
    requires CleanValues(entry) && m < |entry|
    ensures !Occurs(Placeholder(entry[m].0), FillAll(template, entry))
  {
    var n := |entry| - 1;
    var before := FillAll(template, entry[..n]);
    if m == n {
      PlaceholderReplaced(before, entry[n].1, entry[n].0);
    } else {
      assert CleanValues(entry[..n]);
      FillAllReplacesEveryKey(template, entry[..n], m);
      assert entry[..n][m] == entry[m];
      NoNewPlaceholder(before, Placeholder(entry[n].0), entry[n].1, entry[m].0);
    }
  }

  /** The nested loops of `create_agents`: for each entry, a fresh copy of the template with every key replaced. */
  method CreateAgents(template: string, table: seq<(string, Entry)>) returns (files: seq<(string, string)>)
    ensures |files| == |table|
    ensures forall i | 0 <= i < |table| :: files[i] == (table[i].0, FillAll(template, table[i].1))
  {
    files := [];
    for i := 0 to |table|
      invariant |files| == i
      invariant forall k | 0 <= k < i :: files[k] == (table[k].0, FillAll(template, table[k].1))
    {
      var filename, data := table[i].0, table[i].1;
      var content := template;
      for j := 0 to |data|
        invariant content == FillAll(template, data[..j])
      {
        content := ReplaceAll(content, "{{" + data[j].0 + "}}", data[j].1);
        assert data[..j + 1][..j] == data[..j];
      }
      assert data[..|data|] == data;
      files := files + [(filename, content)];
    }
  }

  // ---------------------------------------------------------------------------
  // The agents table
  // ---------------------------------------------------------------------------

  /** The six keys every entry supplies, in order. */
  const TemplateKeys: seq<string> := ["NAME", "CLASS_NAME", "DESCRIPTION", "DISPLAY_NAME", "PROMPT", "ANALYSIS_POINTS"]

  /** The generated kinds, in the table's order. */
  const TableKinds: seq<AgentKind> := [Brand, Aesthetic, Conversion, Monetization, Privacy, Ethical, Trends]

  function FileName(k: AgentKind): string {
    match k
    case Brand => "brand_agent.py"
    case Aesthetic => "aesthetic_agent.py"
    case Conversion => "conversion_agent.py"
    case Monetization => "monetization_agent.py"
    case Privacy => "privacy_agent.py"
    case Ethical => "ethical_agent.py"
    case Trends => "trend_agent.py"
  }

  /** The NAME value, used in the module docstring. */
  function Title(k: AgentKind): string {
    match k
    case Brand => "Brand Consistency"
    case Aesthetic => "Aesthetic Quality"
    case Conversion => "Conversion Optimization"
    case Monetization => "Monetization"
    case Privacy => "Privacy & Security"
    case Ethical => "Ethical Design"
    case Trends => "Trend Analysis"
  }

  function ClassName(k: AgentKind): string {
    match k
    case Brand => "BrandAgent"
    case Aesthetic => "AestheticAgent"
    case Conversion => "ConversionAgent"
    case Monetization => "MonetizationAgent"
    case Privacy => "PrivacyAgent"
    case Ethical => "EthicalAgent"
    case Trends => "TrendAgent"
  }

  function Description(k: AgentKind): string {
    match k
    case Brand => "Analyzes brand consistency"
    case Aesthetic => "Analyzes aesthetic quality"
    case Conversion => "Analyzes conversion optimization"
    case Monetization => "Analyzes monetization strategy"
    case Privacy => "Analyzes privacy and security"
    case Ethical => "Analyzes ethical design"
    case Trends => "Analyzes design trends"
  }

  /** The six values of an entry under the six keys, in the table's order. */
  function MakeEntry(name: string, className: string, description: string, p: Profile): (e: Entry)
    ensures KeysOf(e) == TemplateKeys
    ensures Profile(e[3].1, e[4].1, e[5].1) == p
  {
    [ ("NAME", name),
      ("CLASS_NAME", className),
      ("DESCRIPTION", description),
      ("DISPLAY_NAME", p.displayName),
      ("PROMPT", p.roleLine),
      ("ANALYSIS_POINTS", p.analysisPoints) ]
  }

  /** The table entry of a kind; its prompt values are the agent's profile. */
  function EntryOf(k: AgentKind): Entry {
    MakeEntry(Title(k), ClassName(k), Description(k), ProfileOf(k))
  }

  /** The agents table. */
  function AgentsTable(): (table: seq<(string, Entry)>)
    ensures |table| == |TableKinds|
    ensures forall i | 0 <= i < |table| :: table[i] == (FileName(TableKinds[i]), EntryOf(TableKinds[i]))
  {
    seq(|TableKinds|, i requires 0 <= i < |TableKinds| => (FileName(TableKinds[i]), EntryOf(TableKinds[i])))
  }

  /** The keys of an entry, in order. */
  function KeysOf(entry: Entry): (keys: seq<string>)
    ensures |keys| == |entry| && forall i | 0 <= i < |entry| :: keys[i] == entry[i].0
  {
    seq(|entry|, i requires 0 <= i < |entry| => entry[i].0)
  }

  /** Different kinds are written to different files. */
  lemma FileNamesDistinct(k1: AgentKind, k2: AgentKind)
    requires k1 != k2
    ensures FileName(k1) != FileName(k2)
  {
    assert FileName(k1)[0] != FileName(k2)[0];
  }

  /** Every entry supplies the six template keys, in order. */
  lemma EntryKeys(k: AgentKind)
    ensures KeysOf(EntryOf(k)) == TemplateKeys
  {
  }

  /** Every entry of the table supplies the same six keys, in the same order. */
  lemma TableKeys(i: nat)
    requires i < |AgentsTable()|
    ensures KeysOf(AgentsTable()[i].1) == TemplateKeys
  {
    EntryKeys(TableKinds[i]);
  }

  /** The position of each kind in the table. */
  function Position(k: AgentKind): nat {
    match k
    case Brand => 0
    case Aesthetic => 1
    case Conversion => 2
    case Monetization => 3
    case Privacy => 4
    case Ethical => 5
    case Trends => 6
  }

  /** Every kind appears in the table once, at its position. */
  lemma TableKindsAt(i: nat)
    requires i < |TableKinds|
    ensures Position(TableKinds[i]) == i
  {
  }

  /** The table's file names are all different. */
  lemma TableFilesDistinct(i: nat, j: nat)
    requires i < j < |AgentsTable()|
    ensures AgentsTable()[i].0 != AgentsTable()[j].0
  {
    TableKindsAt(i);
    TableKindsAt(j);
    FileNamesDistinct(TableKinds[i], TableKinds[j]);
  }
}

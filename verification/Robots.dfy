/**
  robots.txt: grouping of lines, selection of a group for an agent, and longest-match precedence among its rules.
  A line is its lower-cased field name and its value; splitting text into such lines is not part of this model.
 */
module Robots {
  import opened Basics

  datatype Rule = Rule(allow: bool, pattern: string)

  datatype Group = Group(agents: seq<string>, rules: seq<Rule>)

  datatype Document = Document(groups: seq<Group>, sitemaps: seq<string>)

  /** `Skipped` is a line without a field: blank, a comment, or without a colon. */
  datatype Line = Skipped | Field(name: string, value: string)

  // ---------- parsing ----------

  /** The loop's variables: the document so far and whether the last field was a user-agent. */
  datatype State = State(doc: Document, lastWasAgent: bool)

  function AddAgent(s: State, token: string): State {
    var gs := s.doc.groups;
    State(
      s.doc.(groups :=
        if gs == [] || !s.lastWasAgent then gs + [Group([token], [])]
        else gs[|gs| - 1 := gs[|gs| - 1].(agents := gs[|gs| - 1].agents + [token])]),
      true)
  }

  function AddRule(s: State, r: Rule): State {
    var gs := s.doc.groups;
    State(if gs == [] then s.doc
          else s.doc.(groups := gs[|gs| - 1 := gs[|gs| - 1].(rules := gs[|gs| - 1].rules + [r])]),
          false)
  }

  function Feed(lower: string -> string, s: State, line: Line): State {
    if line.Skipped? then s
    else if line.name == "user-agent" then AddAgent(s, lower(line.value))
    else if line.name == "sitemap" then State(s.doc.(sitemaps := s.doc.sitemaps + [line.value]), false)
    else if line.name == "allow" || line.name == "disallow" then AddRule(s, Rule(line.name == "allow", line.value))
    else s.(lastWasAgent := false)
  }

  function FeedAll(lower: string -> string, s: State, lines: seq<Line>): State
    decreases |lines|
  {
    if lines == [] then s else FeedAll(lower, Feed(lower, s, lines[0]), lines[1..])
  }

  const EMPTY := State(Document([], []), false)

  function Parse(lower: string -> string, lines: seq<Line>): Document {
    FeedAll(lower, EMPTY, lines).doc
  }

  method ParseRobots(lower: string -> string, lines: seq<Line>) returns (doc: Document)
    ensures doc == Parse(lower, lines)
  {
    var groups: seq<Group>, sitemaps: seq<string>, lastWasAgent := [], [], false;
    for i := 0 to |lines|
      invariant FeedAll(lower, State(Document(groups, sitemaps), lastWasAgent), lines[i..])
           == FeedAll(lower, EMPTY, lines)
    {
      var line := lines[i];
      ghost var s := State(Document(groups, sitemaps), lastWasAgent);
      assert lines[i..][1..] == lines[i + 1..];
      assert FeedAll(lower, s, lines[i..]) == FeedAll(lower, Feed(lower, s, line), lines[i + 1..]);
      if line.Skipped? {
        continue;
      }
      if line.name == "user-agent" {
        if |groups| == 0 || !lastWasAgent {
          groups := groups + [Group([], [])];
        }
        var current := groups[|groups| - 1];
        groups := groups[|groups| - 1 := current.(agents := current.agents + [lower(line.value)])];
        lastWasAgent := true;
        assert [] + [lower(line.value)] == [lower(line.value)];
        assert groups == AddAgent(s, lower(line.value)).doc.groups;
        assert State(Document(groups, sitemaps), lastWasAgent) == Feed(lower, s, line);
        continue;
      }
      lastWasAgent := false;
      if line.name == "sitemap" {
        sitemaps := sitemaps + [line.value];
        continue;
      }
      if (line.name == "allow" || line.name == "disallow") && |groups| > 0 {
        var current := groups[|groups| - 1];
        groups := groups[|groups| - 1 := current.(rules := current.rules + [Rule(line.name == "allow", line.value)])];
      }
      assert State(Document(groups, sitemaps), lastWasAgent) == Feed(lower, s, line);
    }
    return Document(groups, sitemaps);
  }

  // ---------- printing and parsing back ----------

  function PrintAgents(agents: seq<string>): seq<Line> {
    if agents == [] then [] else [Field("user-agent", agents[0])] + PrintAgents(agents[1..])
  }

  function PrintRules(rules: seq<Rule>): seq<Line> {
    if rules == [] then []
    else [Field(if rules[0].allow then "allow" else "disallow", rules[0].pattern)] + PrintRules(rules[1..])
  }

  function PrintSitemaps(urls: seq<string>): seq<Line> {
    if urls == [] then [] else [Field("sitemap", urls[0])] + PrintSitemaps(urls[1..])
  }

  function PrintGroups(groups: seq<Group>): seq<Line> {
    if groups == [] then []
    else PrintAgents(groups[0].agents) + PrintRules(groups[0].rules) + PrintGroups(groups[1..])
  }

  /** Sitemaps first, then the groups: their agents and then their rules. */
  function PrintLines(doc: Document): seq<Line> {
    PrintSitemaps(doc.sitemaps) + PrintGroups(doc.groups)
  }

  function LowerAll(lower: string -> string, agents: seq<string>): (r: seq<string>)
    ensures |r| == |agents|
  {
    seq(|agents|, i requires 0 <= i < |agents| => lower(agents[i]))
  }

  function LowerGroups(lower: string -> string, groups: seq<Group>): (r: seq<Group>)
    ensures |r| == |groups|
  {
    seq(|groups|, i requires 0 <= i < |groups| => Group(LowerAll(lower, groups[i].agents), groups[i].rules))
  }

  /** Every group names an agent, and every group but the last has a rule. */
  predicate Separable(groups: seq<Group>) {
    && (forall i :: 0 <= i < |groups| ==> groups[i].agents != [])
    && (forall i :: 0 <= i < |groups| - 1 ==> groups[i].rules != [])
  }

  predicate LowerCase(lower: string -> string, groups: seq<Group>) {
    forall i, j :: 0 <= i < |groups| && 0 <= j < |groups[i].agents| ==>
      lower(groups[i].agents[j]) == groups[i].agents[j]
  }

  lemma {:induction false} FeedConcat(lower: string -> string, s: State, a: seq<Line>, b: seq<Line>)
    ensures FeedAll(lower, s, a + b) == FeedAll(lower, FeedAll(lower, s, a), b)
    decreases |a|
  {
    if a == [] {
      assert a + b == b;
    } else {
      assert (a + b)[1..] == a[1..] + b;
      FeedConcat(lower, Feed(lower, s, a[0]), a[1..], b);
    }
  }

  lemma FeedFirst(lower: string -> string, s: State, line: Line, rest: seq<Line>)
    ensures FeedAll(lower, s, [line] + rest) == FeedAll(lower, Feed(lower, s, line), rest)
  {
    assert ([line] + rest)[1..] == rest;
  }

  lemma FeedRule(lower: string -> string, s: State, r: Rule)
    ensures Feed(lower, s, Field(if r.allow then "allow" else "disallow", r.pattern)) == AddRule(s, r)
  {}

  lemma FeedAgent(lower: string -> string, s: State, token: string)
    ensures Feed(lower, s, Field("user-agent", token)) == AddAgent(s, lower(token))
  {}

  lemma FeedSitemap(lower: string -> string, s: State, url: string)
    ensures Feed(lower, s, Field("sitemap", url)) == State(s.doc.(sitemaps := s.doc.sitemaps + [url]), false)
  {}

  /** The agents of a group: a new group, or more agents for the one just opened. */
  lemma {:induction false} FeedAgents(lower: string -> string, s: State, agents: seq<string>, more: seq<string>)
    requires s.doc.groups != [] && s.lastWasAgent && s.doc.groups[|s.doc.groups| - 1] == Group(agents, [])
    ensures var gs := s.doc.groups;
            FeedAll(lower, s, PrintAgents(more))
            == State(s.doc.(groups := gs[|gs| - 1 := Group(agents + LowerAll(lower, more), [])]), true)
    decreases |more|
  {
    var gs := s.doc.groups;
    if more == [] {
      assert agents + LowerAll(lower, more) == agents;
      assert gs[|gs| - 1 := Group(agents, [])] == gs;
    } else {
      hide Feed, FeedAll;
      var t := AddAgent(s, lower(more[0]));
      FeedAgent(lower, s, more[0]);
      FeedFirst(lower, s, Field("user-agent", more[0]), PrintAgents(more[1..]));
      FeedAgents(lower, t, agents + [lower(more[0])], more[1..]);
      assert agents + [lower(more[0])] + LowerAll(lower, more[1..]) == agents + LowerAll(lower, more);
    }
  }

  /** The state with its last group replaced. */
  function WithLast(s: State, g: Group, lastWasAgent: bool): State
    requires s.doc.groups != []
  {
    State(s.doc.(groups := s.doc.groups[|s.doc.groups| - 1 := g]), lastWasAgent)
  }

  lemma LastReplaced(s: State, g: Group, h: Group, a: bool, b: bool)
    requires s.doc.groups != []
    ensures var t := WithLast(s, g, a);
            && t.doc.groups != [] && t.doc.groups[|t.doc.groups| - 1] == g && t.lastWasAgent == a
            && WithLast(t, h, b) == WithLast(s, h, b)
    ensures s.doc.groups[|s.doc.groups| - 1] == g ==> WithLast(s, g, s.lastWasAgent) == s
  {
    var gs := s.doc.groups;
    assert gs[|gs| - 1 := g][|gs| - 1 := h] == gs[|gs| - 1 := h];
    assert gs[|gs| - 1] == g ==> gs[|gs| - 1 := g] == gs;
  }

  lemma AddRuleIs(s: State, agents: seq<string>, rules: seq<Rule>, r: Rule)
    requires s.doc.groups != [] && s.doc.groups[|s.doc.groups| - 1] == Group(agents, rules)
    ensures AddRule(s, r) == WithLast(s, Group(agents, rules + [r]), false)
  {}

  lemma {:induction false} FeedRules(lower: string -> string, s: State, agents: seq<string>, rules: seq<Rule>,
                                     more: seq<Rule>)
    requires s.doc.groups != [] && s.doc.groups[|s.doc.groups| - 1] == Group(agents, rules)
    ensures FeedAll(lower, s, PrintRules(more))
         == WithLast(s, Group(agents, rules + more), s.lastWasAgent && more == [])
    decreases |more|
  {
    var now := Group(agents, rules + more[..if more == [] then 0 else 1]);
    LastReplaced(s, now, Group(agents, rules + more), false, s.lastWasAgent && more == []);
    if more == [] {
      assert rules + more == rules;
    } else {
      assert PrintRules(more)
          == [Field(if more[0].allow then "allow" else "disallow", more[0].pattern)] + PrintRules(more[1..]);
      hide Feed, FeedAll, PrintRules, AddRule, WithLast;
      AddRuleIs(s, agents, rules, more[0]);
      FeedRule(lower, s, more[0]);
      FeedFirst(lower, s, Field(if more[0].allow then "allow" else "disallow", more[0].pattern), PrintRules(more[1..]));
      assert more[..1] == [more[0]];
      FeedRules(lower, AddRule(s, more[0]), agents, rules + [more[0]], more[1..]);
      assert rules + [more[0]] + more[1..] == rules + more;
    }
  }

  lemma LowerAllFirst(lower: string -> string, agents: seq<string>)
    requires agents != []
    ensures LowerAll(lower, agents) == [lower(agents[0])] + LowerAll(lower, agents[1..])
  {}

  /** One printed group, read where a new group can begin. */
  lemma FeedGroup(lower: string -> string, s: State, g: Group)
    requires (s.doc.groups == [] || !s.lastWasAgent) && g.agents != []
    ensures FeedAll(lower, s, PrintAgents(g.agents) + PrintRules(g.rules))
         == State(s.doc.(groups := s.doc.groups + [Group(LowerAll(lower, g.agents), g.rules)]), g.rules == [])
  {
    hide Feed, FeedAll, PrintRules, LowerAll;
    var first := AddAgent(s, lower(g.agents[0]));
    FeedAgent(lower, s, g.agents[0]);
    FeedFirst(lower, s, Field("user-agent", g.agents[0]), PrintAgents(g.agents[1..]));
    FeedAgents(lower, first, [lower(g.agents[0])], g.agents[1..]);
    LowerAllFirst(lower, g.agents);
    FeedConcat(lower, s, PrintAgents(g.agents), PrintRules(g.rules));
    FeedRules(lower, FeedAll(lower, s, PrintAgents(g.agents)), LowerAll(lower, g.agents), [], g.rules);
    assert [] + g.rules == g.rules;
  }

  lemma Regroup<T>(a: seq<T>, b: seq<T>, c: seq<T>)
    ensures (a + b) + c == a + (b + c)
  {}

  lemma LowerFirst(lower: string -> string, groups: seq<Group>)
    requires groups != []
    ensures LowerGroups(lower, groups)
         == [Group(LowerAll(lower, groups[0].agents), groups[0].rules)] + LowerGroups(lower, groups[1..])
  {
    hide LowerAll;
  }

  lemma FeedNothing(lower: string -> string, s: State, groups: seq<Group>)
    requires groups == []
    ensures FeedAll(lower, s, PrintGroups(groups)).doc == s.doc.(groups := s.doc.groups + LowerGroups(lower, groups))
  {
    assert s.doc.groups + LowerGroups(lower, groups) == s.doc.groups;
  }

  lemma {:induction false} FeedGroups(lower: string -> string, s: State, groups: seq<Group>)
    requires Separable(groups) && (s.doc.groups == [] || !s.lastWasAgent)
    ensures FeedAll(lower, s, PrintGroups(groups)).doc == s.doc.(groups := s.doc.groups + LowerGroups(lower, groups))
    decreases |groups|
  {
    if groups == [] {
      assert s.doc.groups + LowerGroups(lower, groups) == s.doc.groups;
    } else {
      hide Feed, FeedAll, PrintAgents, PrintRules, LowerAll, LowerGroups;
      var g := groups[0];
      var lines := PrintAgents(g.agents) + PrintRules(g.rules);
      FeedGroup(lower, s, g);
      FeedConcat(lower, s, lines, PrintGroups(groups[1..]));
      LowerFirst(lower, groups);
      var t := FeedAll(lower, s, lines);
      if |groups| > 1 {
        FeedGroups(lower, t, groups[1..]);
      } else {
        FeedNothing(lower, t, groups[1..]);
      }
      Regroup(s.doc.groups, [Group(LowerAll(lower, g.agents), g.rules)], LowerGroups(lower, groups[1..]));
    }
  }

  lemma {:induction false} FeedSitemaps(lower: string -> string, s: State, urls: seq<string>)
    requires !s.lastWasAgent
    ensures FeedAll(lower, s, PrintSitemaps(urls)) == s.(doc := s.doc.(sitemaps := s.doc.sitemaps + urls))
    decreases |urls|
  {
    if urls == [] {
      assert s.doc.sitemaps + urls == s.doc.sitemaps;
    } else {
      hide Feed;
      FeedSitemap(lower, s, urls[0]);
      FeedFirst(lower, s, Field("sitemap", urls[0]), PrintSitemaps(urls[1..]));
      FeedSitemaps(lower, s.(doc := s.doc.(sitemaps := s.doc.sitemaps + [urls[0]])), urls[1..]);
      assert s.doc.sitemaps + [urls[0]] + urls[1..] == s.doc.sitemaps + urls;
    }
  }

  lemma ParsesPrinted(lower: string -> string, doc: Document)
    requires Separable(doc.groups)
    ensures Parse(lower, PrintLines(doc)) == Document(LowerGroups(lower, doc.groups), doc.sitemaps)
  {
    FeedConcat(lower, EMPTY, PrintSitemaps(doc.sitemaps), PrintGroups(doc.groups));
    FeedSitemaps(lower, EMPTY, doc.sitemaps);
    FeedGroups(lower, FeedAll(lower, EMPTY, PrintSitemaps(doc.sitemaps)), doc.groups);
    assert [] + doc.sitemaps == doc.sitemaps && [] + LowerGroups(lower, doc.groups) == LowerGroups(lower, doc.groups);
  }

  /** Lines that come from groups only. */
  predicate GroupLines(lines: seq<Line>) {
    forall l :: l in lines ==> l.Field? && (l.name == "user-agent" || l.name == "allow" || l.name == "disallow")
  }

  /** Between sitemaps and the end, the groups read so far stay separable: only a rule ends a run of agents. */
  predicate ReadsSeparable(s: State) {
    && Separable(s.doc.groups)
    && (s.doc.groups != [] ==> (s.lastWasAgent <==> s.doc.groups[|s.doc.groups| - 1].rules == []))
  }

  lemma {:induction false} ReadingSeparates(lower: string -> string, s: State, lines: seq<Line>)
    requires ReadsSeparable(s) && GroupLines(lines)
    ensures Separable(FeedAll(lower, s, lines).doc.groups)
    decreases |lines|
  {
    if lines != [] {
      assert lines[0] in lines;
      assert forall l :: l in lines[1..] ==> l in lines;
      ReadingSeparates(lower, Feed(lower, s, lines[0]), lines[1..]);
    }
  }

  lemma {:induction false} PrintedGroupLines(groups: seq<Group>)
    ensures GroupLines(PrintGroups(groups))
  {
    if groups != [] {
      PrintedGroupLines(groups[1..]);
      AgentLines(groups[0].agents);
      RuleLines(groups[0].rules);
    }
  }

  lemma {:induction false} AgentLines(agents: seq<string>)
    ensures GroupLines(PrintAgents(agents))
  {
    if agents != [] {
      AgentLines(agents[1..]);
    }
  }

  lemma {:induction false} RuleLines(rules: seq<Rule>)
    ensures GroupLines(PrintRules(rules))
  {
    if rules != [] {
      RuleLines(rules[1..]);
    }
  }

  /**
    Parsing a printed document gives it back exactly when every group names an agent, every group but the last has a
    rule, and the agents are lower-case.
   */
  lemma RoundTrip(lower: string -> string, doc: Document)
    ensures Parse(lower, PrintLines(doc)) == doc <==> Separable(doc.groups) && LowerCase(lower, doc.groups)
  {
    if Separable(doc.groups) {
      ParsesPrinted(lower, doc);
      LoweredIsSame(lower, doc.groups);
    } else {
      FeedConcat(lower, EMPTY, PrintSitemaps(doc.sitemaps), PrintGroups(doc.groups));
      FeedSitemaps(lower, EMPTY, doc.sitemaps);
      PrintedGroupLines(doc.groups);
      ReadingSeparates(lower, FeedAll(lower, EMPTY, PrintSitemaps(doc.sitemaps)), PrintGroups(doc.groups));
    }
  }

  lemma LoweredIsSame(lower: string -> string, groups: seq<Group>)
    ensures LowerGroups(lower, groups) == groups <==> LowerCase(lower, groups)
  {
    var lowered := LowerGroups(lower, groups);
    if lowered == groups {
      forall i, j | 0 <= i < |groups| && 0 <= j < |groups[i].agents|
        ensures lower(groups[i].agents[j]) == groups[i].agents[j]
      {
        assert lowered[i].agents[j] == lower(groups[i].agents[j]);
      }
    }
    if LowerCase(lower, groups) {
      forall i | 0 <= i < |groups| ensures lowered[i] == groups[i] {
        assert LowerAll(lower, groups[i].agents) == groups[i].agents;
      }
    }
  }

  // ---------- parsing, line by line ----------

  /** The last line with a field is a user-agent. */
  predicate EndsWithAgent(lines: seq<Line>) {
    exists i :: 0 <= i < |lines| && lines[i].Field? && lines[i].name == "user-agent"
                && forall j :: i < j < |lines| ==> lines[j].Skipped?
  }

  lemma FeedLast(lower: string -> string, lines: seq<Line>, line: Line)
    ensures FeedAll(lower, EMPTY, lines + [line]) == Feed(lower, FeedAll(lower, EMPTY, lines), line)
  {
    hide Feed;
    FeedConcat(lower, EMPTY, lines, [line]);
    assert [line][1..] == [];
  }

  lemma {:induction false} AgentLineIsRemembered(lower: string -> string, lines: seq<Line>)
    ensures FeedAll(lower, EMPTY, lines).lastWasAgent <==> EndsWithAgent(lines)
    decreases |lines|
  {
    if lines != [] {
      var n := |lines| - 1;
      AgentLineIsRemembered(lower, lines[..n]);
      assert lines == lines[..n] + [lines[n]];
      FeedLast(lower, lines[..n], lines[n]);
      hide FeedAll;
      if lines[n].Skipped? {
        if EndsWithAgent(lines[..n]) {
          var i :| 0 <= i < n && lines[..n][i].Field? && lines[..n][i].name == "user-agent"
            && forall j :: i < j < n ==> lines[..n][j].Skipped?;
          assert forall j :: i < j < n ==> lines[j] == lines[..n][j];
          assert lines[i].Field? && lines[i].name == "user-agent";
        }
        if EndsWithAgent(lines) {
          var i :| 0 <= i < |lines| && lines[i].Field? && lines[i].name == "user-agent"
            && forall j :: i < j < |lines| ==> lines[j].Skipped?;
          assert i < n && lines[..n][i] == lines[i];
        }
      } else if lines[n].name == "user-agent" {
        assert EndsWithAgent(lines);
      }
    }
  }

  /**
    What each further line does to the document, for any lines before it: a user-agent joins the group whose agents
    are still being listed, else it opens one; a rule goes to the last group, or nowhere if there is none; a sitemap
    is noted; other fields and lines without a field change nothing.
   */
  lemma ParseOneMore(lower: string -> string, lines: seq<Line>, line: Line)
    ensures var doc, more := Parse(lower, lines), Parse(lower, lines + [line]);
            var gs := doc.groups;
            && (line.Skipped? ==> more == doc)
            && (line.Field? && line.name == "user-agent" ==>
                  && more.sitemaps == doc.sitemaps
                  && (EndsWithAgent(lines) && gs != [] ==>
                        |more.groups| == |gs| && more.groups[..|gs| - 1] == gs[..|gs| - 1]
                        && more.groups[|gs| - 1].agents == gs[|gs| - 1].agents + [lower(line.value)]
                        && more.groups[|gs| - 1].rules == gs[|gs| - 1].rules)
                  && (!EndsWithAgent(lines) || gs == [] ==> more.groups == gs + [Group([lower(line.value)], [])]))
            && (line.Field? && (line.name == "allow" || line.name == "disallow") ==>
                  && more.sitemaps == doc.sitemaps
                  && (gs == [] ==> more.groups == [])
                  && (gs != [] ==>
                        |more.groups| == |gs| && more.groups[..|gs| - 1] == gs[..|gs| - 1]
                        && more.groups[|gs| - 1].agents == gs[|gs| - 1].agents
                        && more.groups[|gs| - 1].rules == gs[|gs| - 1].rules
                             + [Rule(line.name == "allow", line.value)]))
            && (line.Field? && line.name == "sitemap" ==>
                  more.groups == gs && more.sitemaps == doc.sitemaps + [line.value])
            && (line.Field? && line.name !in {"user-agent", "allow", "disallow", "sitemap"} ==> more == doc)
  {
    FeedLast(lower, lines, line);
    AgentLineIsRemembered(lower, lines);
    hide FeedAll, EndsWithAgent;
  }

  // ---------- patterns ----------

  /** The regular expression built from a pattern, tested from the start of the path: `*` is anything, `$` the end. */
  predicate Matches(pattern: string, path: string)
    decreases |pattern| + |path|
  {
    if pattern == "" then true
    else if pattern[0] == '*' then Matches(pattern[1..], path) || (path != "" && Matches(pattern, path[1..]))
    else if pattern[0] == '$' then path == "" && Matches(pattern[1..], path)
    else path != "" && path[0] == pattern[0] && Matches(pattern[1..], path[1..])
  }

  /** The whole text is the pattern with each `*` replaced by some text. */
  ghost predicate Expands(pattern: string, text: string)
    decreases |pattern|
  {
    if pattern == "" then text == ""
    else if pattern[0] == '*' then exists rest :: IsSuffix(rest, text) && Expands(pattern[1..], rest)
    else text != "" && text[0] == pattern[0] && Expands(pattern[1..], text[1..])
  }

  predicate IsSuffix(rest: string, text: string) {
    |rest| <= |text| && text[|text| - |rest|..] == rest
  }

  predicate NoDollar(pattern: string) {
    '$' !in pattern
  }

  /** The pattern up to its first `$`. */
  function Stem(pattern: string): (r: string)
    ensures NoDollar(r)
  {
    if pattern == "" || pattern[0] == '$' then "" else [pattern[0]] + Stem(pattern[1..])
  }

  lemma {:induction false} SkipInto(pattern: string, path: string, rest: string)
    requires pattern != "" && pattern[0] == '*' && IsSuffix(rest, path) && Matches(pattern[1..], rest)
    ensures Matches(pattern, path)
    decreases |path|
  {
    if |rest| < |path| {
      assert path[1..][|path[1..]| - |rest|..] == rest;
      SkipInto(pattern, path[1..], rest);
    } else {
      assert path == rest;
    }
  }

  lemma {:induction false} SkipOut(pattern: string, path: string) returns (rest: string)
    requires pattern != "" && pattern[0] == '*' && Matches(pattern, path)
    ensures IsSuffix(rest, path) && Matches(pattern[1..], rest)
    decreases |path|
  {
    if Matches(pattern[1..], path) {
      rest := path;
    } else {
      rest := SkipOut(pattern, path[1..]);
      assert path[|path| - |rest|..] == path[1..][|path[1..]| - |rest|..];
    }
  }

  /** With a `$` after the stem, the stem must account for the whole path, and what follows must match nothing. */
  lemma {:induction false} AnchoredMatch(stem: string, after: string, path: string)
    requires NoDollar(stem)
    ensures Matches(stem + "$" + after, path) <==> Expands(stem, path) && Matches(after, "")
    decreases |stem| + |path|
  {
    var p := stem + "$" + after;
    if stem == "" {
      assert p[0] == '$' && p[1..] == after;
    } else {
      assert p[0] == stem[0] && p[1..] == stem[1..] + "$" + after;
      if stem[0] == '*' {
        if Matches(p, path) {
          var rest := SkipOut(p, path);
          AnchoredMatch(stem[1..], after, rest);
        }
        if Expands(stem, path) && Matches(after, "") {
          var rest :| IsSuffix(rest, path) && Expands(stem[1..], rest);
          AnchoredMatch(stem[1..], after, rest);
          SkipInto(p, path, rest);
        }
      } else if path != "" {
        AnchoredMatch(stem[1..], after, path[1..]);
      }
    }
  }

  /** Some beginning of the path is the pattern with each `*` replaced. */
  ghost predicate ExpandsStart(stem: string, path: string) {
    exists part :: part <= path && Expands(stem, part)
  }

  lemma StartAfterStar(stem: string, path: string, rest: string)
    requires stem != "" && stem[0] == '*' && IsSuffix(rest, path) && ExpandsStart(stem[1..], rest)
    ensures ExpandsStart(stem, path)
  {
    var part :| part <= rest && Expands(stem[1..], part);
    var before := path[..|path| - |rest|];
    assert path == before + rest;
    assert IsSuffix(part, before + part);
    assert before + part <= path && Expands(stem, before + part);
  }

  lemma StartOfStar(stem: string, path: string) returns (rest: string)
    requires stem != "" && stem[0] == '*' && ExpandsStart(stem, path)
    ensures IsSuffix(rest, path) && ExpandsStart(stem[1..], rest)
  {
    var part :| part <= path && Expands(stem, part);
    var mid :| IsSuffix(mid, part) && Expands(stem[1..], mid);
    rest := path[|part| - |mid|..];
    assert mid <= rest;
  }

  lemma ExpandsLetter(stem: string, text: string)
    requires stem != "" && stem[0] != '*'
    ensures Expands(stem, text) <==> text != "" && text[0] == stem[0] && Expands(stem[1..], text[1..])
  {}

  lemma StartOfLetter(stem: string, path: string)
    requires stem != "" && stem[0] != '*' && path != ""
    ensures ExpandsStart(stem, path) <==> path[0] == stem[0] && ExpandsStart(stem[1..], path[1..])
  {
    hide Expands;
    if ExpandsStart(stem, path) {
      var part :| part <= path && Expands(stem, part);
      ExpandsLetter(stem, part);
      assert part[1..] <= path[1..];
    }
    if path[0] == stem[0] && ExpandsStart(stem[1..], path[1..]) {
      var part :| part <= path[1..] && Expands(stem[1..], part);
      var longer := [path[0]] + part;
      assert longer[1..] == part;
      ExpandsLetter(stem, longer);
      assert path == [path[0]] + path[1..];
      assert longer <= path && Expands(stem, longer);
    }
  }

  lemma StartOfNothing(stem: string, path: string)
    ensures stem == "" ==> ExpandsStart(stem, path)
    ensures stem != "" && stem[0] != '*' && path == "" ==> !ExpandsStart(stem, path)
  {
    if stem == "" {
      assert "" <= path && Expands(stem, "");
    }
  }

  /** Without `$` a pattern matches when it accounts for some beginning of the path. */
  lemma {:induction false} PrefixMatch(stem: string, path: string)
    requires NoDollar(stem)
    ensures Matches(stem, path) <==> ExpandsStart(stem, path)
    decreases |stem| + |path|
  {
    hide ExpandsStart, IsSuffix;
    StartOfNothing(stem, path);
    if stem != "" {
      assert stem[0] in stem;
      assert NoDollar(stem[1..]);
      if stem[0] == '*' {
        if Matches(stem, path) {
          var rest := SkipOut(stem, path);
          SuffixIsShort(rest, path);
          PrefixMatch(stem[1..], rest);
          StartAfterStar(stem, path, rest);
        }
        if ExpandsStart(stem, path) {
          var rest := StartOfStar(stem, path);
          SuffixIsShort(rest, path);
          PrefixMatch(stem[1..], rest);
          SkipInto(stem, path, rest);
        }
      } else if path != "" {
        StartOfLetter(stem, path);
        PrefixMatch(stem[1..], path[1..]);
      }
    }
  }

  lemma SuffixIsShort(rest: string, text: string)
    requires IsSuffix(rest, text)
    ensures |rest| <= |text|
  {}

  predicate OnlyWildcards(pattern: string) {
    forall i :: 0 <= i < |pattern| ==> pattern[i] == '*' || pattern[i] == '$'
  }

  lemma {:induction false} MatchesEmpty(pattern: string)
    ensures Matches(pattern, "") <==> OnlyWildcards(pattern)
  {
    if pattern != "" {
      MatchesEmpty(pattern[1..]);
      assert OnlyWildcards(pattern) <==> (pattern[0] == '*' || pattern[0] == '$') && OnlyWildcards(pattern[1..]);
    }
  }

  /**
    A `$` that is not at the end still anchors: such a rule matches no path at all unless only wildcards follow,
    where section 2.2.3 of RFC 9309 gives `$` its meaning only at the end of the pattern.
   */
  lemma MiddleDollarIsAnchor(stem: string, after: string, path: string)
    requires NoDollar(stem)
    ensures Matches(stem + "$" + after, path) <==> Expands(stem, path) && OnlyWildcards(after)
  {
    AnchoredMatch(stem, after, path);
    MatchesEmpty(after);
  }

  // ---------- the standard's reading of `$` ----------

  /**
    Section 2.2.3 of RFC 9309: `*` is anything, and `$` designates the end of the path at the end of the pattern
    only.
   */
  predicate RfcMatches(pattern: string, path: string)
    decreases |pattern| + |path|
  {
    if pattern == "" then true
    else if pattern == "$" then path == ""
    else if pattern[0] == '*' then RfcMatches(pattern[1..], path) || (path != "" && RfcMatches(pattern, path[1..]))
    else path != "" && path[0] == pattern[0] && RfcMatches(pattern[1..], path[1..])
  }

  predicate DollarOnlyLast(pattern: string) {
    forall i :: 0 <= i < |pattern| - 1 ==> pattern[i] != '$'
  }

  lemma {:induction false} AgreesWhenLast(pattern: string, path: string)
    requires DollarOnlyLast(pattern)
    ensures Matches(pattern, path) == RfcMatches(pattern, path)
    decreases |pattern| + |path|
  {
    if pattern != "" {
      if pattern[0] == '$' {
        assert pattern == "$";
        assert Matches("", path);
      } else {
        AgreesWhenLast(pattern[1..], path);
        if path != "" {
          AgreesWhenLast(pattern, path[1..]);
          AgreesWhenLast(pattern[1..], path[1..]);
        }
      }
    }
  }

  lemma {:induction false} SplitAtDollar(pattern: string)
    requires '$' in pattern
    ensures |Stem(pattern)| < |pattern| && pattern == Stem(pattern) + "$" + pattern[|Stem(pattern)| + 1..]
  {
    if pattern[0] != '$' {
      SplitAtDollar(pattern[1..]);
    }
  }

  /** For the standard a `$` that is not last is a character like any other. */
  lemma {:induction false} RfcNeedsDollar(stem: string, after: string, path: string)
    requires after != "" && RfcMatches(stem + "$" + after, path)
    ensures '$' in path
    decreases |stem| + |path|
  {
    var p := stem + "$" + after;
    if stem != "" {
      assert p[0] == stem[0] && p[1..] == stem[1..] + "$" + after;
      if stem[0] == '*' {
        if RfcMatches(p[1..], path) {
          RfcNeedsDollar(stem[1..], after, path);
        } else {
          RfcNeedsDollar(stem, after, path[1..]);
        }
      } else {
        RfcNeedsDollar(stem[1..], after, path[1..]);
      }
    }
  }

  /** The shortest path the standard matches: no text for `*`, and `$` itself unless it is last. */
  function Literal(pattern: string): string {
    if pattern == "" || pattern == "$" then ""
    else if pattern[0] == '*' then Literal(pattern[1..])
    else [pattern[0]] + Literal(pattern[1..])
  }

  lemma {:induction false} RfcMatchesLiteral(pattern: string)
    ensures RfcMatches(pattern, Literal(pattern))
  {
    if pattern != "" && pattern != "$" {
      RfcMatchesLiteral(pattern[1..]);
      assert pattern[0] != '*' ==> Literal(pattern)[1..] == Literal(pattern[1..]);
    }
  }

  lemma {:induction false} ExpandsLiteral(stem: string)
    requires NoDollar(stem)
    ensures Expands(stem, Literal(stem)) && '$' !in Literal(stem)
  {
    if stem != "" {
      assert stem[0] in stem;
      assert NoDollar(stem[1..]);
      ExpandsLiteral(stem[1..]);
      var rest := Literal(stem[1..]);
      assert stem[0] == '*' ==> IsSuffix(rest, Literal(stem));
      assert stem[0] != '*' ==> Literal(stem)[1..] == rest;
    }
  }

  /**
    The code matches as the standard says, on every path, exactly for patterns with no `$` before the last position.
   */
  lemma DollarAgreement(pattern: string)
    ensures (forall path: string :: Matches(pattern, path) == RfcMatches(pattern, path)) <==> DollarOnlyLast(pattern)
  {
    hide Matches, RfcMatches;
    if DollarOnlyLast(pattern) {
      forall path: string ensures Matches(pattern, path) == RfcMatches(pattern, path) {
        AgreesWhenLast(pattern, path);
      }
    } else {
      var witnessPath := Disagreement(pattern);
      assert Matches(pattern, witnessPath) != RfcMatches(pattern, witnessPath);
    }
  }

  /** A path on which they differ. */
  lemma Disagreement(pattern: string) returns (path: string)
    requires !DollarOnlyLast(pattern)
    ensures Matches(pattern, path) != RfcMatches(pattern, path)
  {
    hide Matches, RfcMatches;
    SplitAtDollar(pattern);
    StemStopsFirst(pattern);
    var stem := Stem(pattern);
    var after := pattern[|stem| + 1..];
    assert after != "";
    if OnlyWildcards(after) {
      path := Literal(stem);
      ExpandsLiteral(stem);
      MiddleDollarIsAnchor(stem, after, path);
      if RfcMatches(pattern, path) {
        RfcNeedsDollar(stem, after, path);
      }
    } else {
      path := Literal(pattern);
      RfcMatchesLiteral(pattern);
      MiddleDollarIsAnchor(stem, after, path);
    }
  }

  lemma {:induction false} StemStopsFirst(pattern: string)
    requires !DollarOnlyLast(pattern)
    ensures |Stem(pattern)| < |pattern| - 1
  {
    if pattern[0] != '$' {
      var i :| 0 <= i < |pattern| - 1 && pattern[i] == '$';
      assert pattern[1..][i - 1] == '$';
      StemStopsFirst(pattern[1..]);
    }
  }

  /** The rule "/a$b" does not apply to the path "/a$b", which the standard says it matches. */
  lemma MiddleDollarDiffers()
    ensures !Matches("/a$b", "/a$b") && RfcMatches("/a$b", "/a$b")
  {
    MiddleDollarIsAnchor("/a", "b", "/a$b");
    assert "/a" + "$" + "b" == "/a$b";
    assert "b"[0] == 'b' && !OnlyWildcards("b");
    RfcMatchesLiteral("/a$b");
    assert "b"[1..] == "" && Literal("b") == "b";
    assert "$b"[1..] == "b" && Literal("$b") == "$b";
    assert "a$b"[1..] == "$b" && Literal("a$b") == "a$b";
    assert "/a$b"[1..] == "a$b" && Literal("/a$b") == "/a$b";
  }

  // ---------- precedence ----------

  predicate RuleApplies(r: Rule, path: string) {
    r.pattern != "" && Matches(r.pattern, path)
  }

  /** No applicable rule is longer. */
  predicate Longest(rules: seq<Rule>, r: Rule, path: string) {
    && r in rules && RuleApplies(r, path)
    && forall o :: o in rules && RuleApplies(o, path) ==> |o.pattern| <= |r.pattern|
  }

  /** Section 2.2.2 of RFC 9309: allowed if nothing matches, else if a longest matching rule is an allow. */
  predicate AllowedBy(rules: seq<Rule>, path: string) {
    || (forall r :: r in rules ==> !RuleApplies(r, path))
    || (exists r :: r in rules && r.allow && Longest(rules, r, path))
  }

  /** The order and repetition of rules do not matter. */
  lemma OrderIrrelevant(a: seq<Rule>, b: seq<Rule>, path: string)
    requires forall r :: r in a <==> r in b
    ensures AllowedBy(a, path) == AllowedBy(b, path)
  {
    hide RuleApplies;
    assert forall r :: r in a ==> (Longest(a, r, path) <==> Longest(b, r, path));
  }

  /** Adding an allow rule never closes a path; adding a disallow rule never opens one. */
  lemma AddingRules(rules: seq<Rule>, r: Rule, path: string)
    ensures r.allow && AllowedBy(rules, path) ==> AllowedBy(rules + [r], path)
    ensures !r.allow && AllowedBy(rules + [r], path) ==> AllowedBy(rules, path)
  {
    hide RuleApplies;
    var more := rules + [r];
    assert forall o :: o in more <==> o in rules || o == r;
    if r.allow && AllowedBy(rules, path) {
      if RuleApplies(r, path) {
        if w :| w in rules && w.allow && Longest(rules, w, path) {
          assert Longest(more, if |r.pattern| > |w.pattern| then r else w, path);
        } else {
          assert Longest(more, r, path);
        }
      } else if w :| w in rules && w.allow && Longest(rules, w, path) {
        assert Longest(more, w, path);
      }
    }
    if !r.allow && AllowedBy(more, path) {
      if w :| w in more && w.allow && Longest(more, w, path) {
        assert Longest(rules, w, path);
      }
    }
  }

  /** The one-pass scan with its running winner. */
  method Scan(rules: seq<Rule>, path: string) returns (winner: Option<Rule>)
    ensures (if winner.Some? then winner.value.allow else true) == AllowedBy(rules, path)
    ensures winner.None? <==> forall r :: r in rules ==> !RuleApplies(r, path)
    ensures winner.Some? ==> Longest(rules, winner.value, path)
  {
    winner := None;
    var winnerLen := -1;
    hide Matches;
    for i := 0 to |rules|
      invariant winnerLen == if winner.Some? then |winner.value.pattern| else -1
      invariant winner.None? ==> forall r :: r in rules[..i] ==> !RuleApplies(r, path)
      invariant winner.Some? ==> Longest(rules[..i], winner.value, path)
      invariant winner.Some? && !winner.value.allow ==>
        forall r :: r in rules[..i] && r.allow && RuleApplies(r, path) ==> |r.pattern| < winnerLen
    {
      var r := rules[i];
      assert rules[..i + 1] == rules[..i] + [r];
      if r.pattern != "" && Matches(r.pattern, path) {
        if |r.pattern| > winnerLen || (|r.pattern| == winnerLen && r.allow && winner.Some? && !winner.value.allow) {
          winner := Some(r);
          winnerLen := |r.pattern|;
        }
      }
    }
    assert rules[..|rules|] == rules;
  }

  // ---------- choosing the group ----------

  predicate Includes(text: string, part: string) {
    part <= text || (text != "" && Includes(text[1..], part))
  }

  /** One text includes another exactly when the other stands somewhere in it. */
  lemma {:induction false} IncludesMeans(text: string, part: string)
    ensures Includes(text, part) <==> exists i :: 0 <= i <= |text| && part <= text[i..]
  {
    assert text[0..] == text;
    if !(part <= text) && text != "" {
      IncludesMeans(text[1..], part);
      if Includes(text[1..], part) {
        var i :| 0 <= i <= |text[1..]| && part <= text[1..][i..];
        assert text[1..][i..] == text[i + 1..];
      }
      if i :| 0 <= i <= |text| && part <= text[i..] {
        assert text[1..][i - 1..] == text[i..];
      }
    }
  }

  /** The wildcard group is the first that lists `*`. */
  lemma {:induction false} FirstWildcardIsFirst(groups: seq<Group>)
    ensures FirstWildcard(groups).None? <==> forall g :: g in groups ==> "*" !in g.agents
    ensures FirstWildcard(groups).Some? ==>
      exists i :: 0 <= i < |groups| && FirstWildcard(groups) == Some(groups[i]) && "*" in groups[i].agents
                  && forall j :: 0 <= j < i ==> "*" !in groups[j].agents
  {
    if groups != [] && "*" !in groups[0].agents {
      FirstWildcardIsFirst(groups[1..]);
      assert forall g :: g in groups <==> g == groups[0] || g in groups[1..];
      if FirstWildcard(groups).Some? {
        var i :| 0 <= i < |groups[1..]| && FirstWildcard(groups[1..]) == Some(groups[1..][i])
          && "*" in groups[1..][i].agents && forall j :: 0 <= j < i ==> "*" !in groups[1..][j].agents;
        forall j | 0 <= j < i + 1 ensures "*" !in groups[j].agents {
          assert j > 0 ==> groups[j] == groups[1..][j - 1];
        }
        assert groups[i + 1] == groups[1..][i];
      }
    }
  }

  /** A group's token is about this agent; `*` is not. */
  predicate Names(token: string, agent: string) {
    token != "*" && (token <= agent || agent <= token || Includes(agent, token))
  }

  /** No token of any group that names the agent is longer than this. */
  predicate NoLongerName(groups: seq<Group>, agent: string, len: int) {
    forall g, t :: g in groups && t in g.agents && Names(t, agent) ==> |t| <= len
  }

  predicate NamedBy(g: Group, agent: string, len: int) {
    exists t :: t in g.agents && Names(t, agent) && |t| == len
  }

  /** The i-th group has a longest token that names the agent, and no earlier group has one of that length. */
  predicate ChosenAt(groups: seq<Group>, agent: string, i: nat) {
    && i < |groups|
    && exists t :: t in groups[i].agents && Names(t, agent) && NoLongerName(groups, agent, |t|)
                && forall j :: 0 <= j < i ==> !NamedBy(groups[j], agent, |t|)
  }

  /** The first group with a longest token that names the agent, else the first group for `*`. */
  predicate Chosen(groups: seq<Group>, agent: string, choice: Option<Group>) {
    if exists g, t :: g in groups && t in g.agents && Names(t, agent)
    then exists i :: 0 <= i < |groups| && choice == Some(groups[i]) && ChosenAt(groups, agent, i)
    else choice == FirstWildcard(groups)
  }

  function FirstWildcard(groups: seq<Group>): Option<Group> {
    if groups == [] then None
    else if "*" in groups[0].agents then Some(groups[0])
    else FirstWildcard(groups[1..])
  }

  /** The group at this index has a token of this length that names the agent, and no earlier group has. */
  predicate IsBest(groups: seq<Group>, agent: string, at: nat, len: int) {
    at < |groups| && NamedBy(groups[at], agent, len) && forall k :: 0 <= k < at ==> !NamedBy(groups[k], agent, len)
  }

  lemma LongerIsBest(groups: seq<Group>, agent: string, i: nat, token: string, len: int)
    requires i < |groups| && NoLongerName(groups[..i], agent, len)
    requires token in groups[i].agents && Names(token, agent) && |token| > len
    ensures IsBest(groups, agent, i, |token|)
  {
    hide Names;
    assert forall k :: 0 <= k < i ==> groups[k] in groups[..i];
  }

  lemma NoLongerNext(groups: seq<Group>, agent: string, i: nat, len: int)
    requires i < |groups| && NoLongerName(groups[..i], agent, len)
    requires forall t :: t in groups[i].agents && Names(t, agent) ==> |t| <= len
    ensures NoLongerName(groups[..i + 1], agent, len)
  {
    hide Names;
    assert groups[..i + 1] == groups[..i] + [groups[i]];
  }

  lemma NoLongerGrows(groups: seq<Group>, agent: string, len: int, more: int)
    requires NoLongerName(groups, agent, len) && len <= more
    ensures NoLongerName(groups, agent, more)
  {}

  lemma BestIsChosen(groups: seq<Group>, agent: string, at: nat, len: int)
    requires IsBest(groups, agent, at, len) && NoLongerName(groups, agent, len)
    ensures Chosen(groups, agent, Some(groups[at]))
  {
    hide Names;
    var t :| t in groups[at].agents && Names(t, agent) && |t| == len;
    assert ChosenAt(groups, agent, at);
  }

  lemma WildcardIsChosen(groups: seq<Group>, agent: string)
    requires NoLongerName(groups, agent, -1)
    ensures Chosen(groups, agent, FirstWildcard(groups))
  {
    hide Names;
    assert forall g, t :: g in groups && t in g.agents ==> !(Names(t, agent) && |t| <= -1);
  }

  method SelectGroup(lower: string -> string, doc: Document, name: string) returns (choice: Option<Group>)
    ensures Chosen(doc.groups, lower(name), choice)
  {
    hide NoLongerName, IsBest, Chosen;
    var agent := lower(name);
    var best: Option<Group>, len := None, -1;
    ghost var at: nat := 0;
    NothingIsLonger(agent);
    assert doc.groups[..0] == [];
    for i := 0 to |doc.groups|
      invariant best.None? ==> len == -1
      invariant best.Some? ==> at < |doc.groups| && best.value == doc.groups[at] && IsBest(doc.groups, agent, at, len)
      invariant NoLongerName(doc.groups[..i], agent, len)
    {
      var g := doc.groups[i];
      for j := 0 to |g.agents|
        invariant best.None? ==> len == -1
        invariant best.Some? ==> at < |doc.groups| && best.value == doc.groups[at] && IsBest(doc.groups, agent, at, len)
        invariant NoLongerName(doc.groups[..i], agent, len)
        invariant forall t :: t in g.agents[..j] && Names(t, agent) ==> |t| <= len
      {
        hide Names;
        var token := g.agents[j];
        assert g.agents[..j + 1] == g.agents[..j] + [token];
        if Names(token, agent) && (best.None? || |token| > len) {
          LongerIsBest(doc.groups, agent, i, token, len);
          NoLongerGrows(doc.groups[..i], agent, len, |token|);
          best, len, at := Some(g), |token|, i;
        }
      }
      assert g.agents[..|g.agents|] == g.agents;
      NoLongerNext(doc.groups, agent, i, len);
    }
    assert doc.groups[..|doc.groups|] == doc.groups;
    if best.Some? {
      BestIsChosen(doc.groups, agent, at, len);
      return best;
    }
    WildcardIsChosen(doc.groups, agent);
    choice := FirstWildcard(doc.groups);
  }

  lemma NothingIsLonger(agent: string)
    ensures NoLongerName([], agent, -1)
  {}

  /** `isAllowed`: everything is allowed without a group; otherwise the group's rules decide. */
  method IsAllowed(lower: string -> string, doc: Document, agent: string, path: string)
    returns (allowed: bool, rule: Option<Rule>, group: Option<Group>)
    ensures Chosen(doc.groups, lower(agent), group)
    ensures allowed == (group.None? || AllowedBy(group.value.rules, path))
    ensures rule.Some? ==> group.Some? && Longest(group.value.rules, rule.value, path) && rule.value.allow == allowed
    ensures rule.None? ==> allowed
  {
    group := SelectGroup(lower, doc, agent);
    if group.None? {
      return true, None, None;
    }
    rule := Scan(group.value.rules, path);
    allowed := if rule.Some? then rule.value.allow else true;
  }
}

/** robots.txt: reading the groups, matching a path pattern, and the verdict for one crawler. */
module Robots {
  import opened Text

  datatype Rule = Rule(allow: bool, pattern: string)

  datatype Group = Group(agents: seq<string>, rules: seq<Rule>)

  // ---- Lines ----

  datatype Directive = Agent(name: string) | Path(rule: Rule) | Other

  function LowerChar(c: char): char { if 'A' <= c <= 'Z' then (c as int + 32) as char else c }

  lemma LowerCharMeans(c: char)
    ensures c in UPPER_CASE ==> LowerChar(c) in LOWER_CASE && LowerChar(c) as int - 'a' as int == c as int - 'A' as int
    ensures c !in UPPER_CASE ==> LowerChar(c) == c
  {
    UpperCaseIff(c);
    LowerCaseIff(LowerChar(c));
  }

  function Lower(s: string): string { seq(|s|, i requires 0 <= i < |s| => LowerChar(s[i])) }

  function TextOf(line: string, space: set<char>): string { Trim(Before(line, '#'), space) }

  function FieldOf(text: string, space: set<char>): string { Trim(Before(text, ':'), space) }

  function ValueOf(text: string, space: set<char>): string { Trim(After(text, ':'), space) }

  function ParseLine(line: string, space: set<char>): Directive {
    var text := TextOf(line, space);
    var field, value := Lower(FieldOf(text, space)), ValueOf(text, space);
    if ':' !in text then Other
    else if field == "user-agent" then Agent(value)
    else if field == "allow" then Path(Rule(true, value))
    else if field == "disallow" then Path(Rule(false, value))
    else Other
  }

  function Directives(lines: seq<string>, space: set<char>): seq<Directive> {
    if lines == [] then [] else [ParseLine(lines[0], space)] + Directives(lines[1..], space)
  }

  // ---- Groups ----

  /** The groups that are complete, and the one being read; `collecting` once it has a rule. */
  datatype State = State(groups: seq<Group>, agents: seq<string>, rules: seq<Rule>, collecting: bool)
  {
    function Step(d: Directive): State {
      match d
      case Agent(a) =>
        if collecting then State(groups + [Group(agents, rules)], [a], [], false) else this.(agents := agents + [a])
      case Path(r) => this.(rules := rules + [r], collecting := true)
      case Other => this
    }

    function Finish(): seq<Group> {
      if agents != [] || rules != [] then groups + [Group(agents, rules)] else groups
    }
  }

  function Feed(s: State, ds: seq<Directive>): State
    decreases |ds|
  {
    if ds == [] then s else Feed(s.Step(ds[0]), ds[1..])
  }

  const START := State([], [], [], false)

  function Groups(lines: seq<string>, space: set<char>): seq<Group> { Feed(START, Directives(lines, space)).Finish() }

  method ParseRobots(lines: seq<string>, space: set<char>) returns (groups: seq<Group>)
    ensures groups == Groups(lines, space)
  {
    groups := [];
    var agents: seq<string>, rules: seq<Rule>, collecting := [], [], false;
    var n := 0;
    while n < |lines|
      invariant n <= |lines|
      invariant Feed(State(groups, agents, rules, collecting), Directives(lines[n..], space))
          == Feed(START, Directives(lines, space))
    {
      assert lines[n..][1..] == lines[n + 1..];
      ghost var ds := Directives(lines[n..], space);
      assert ds[0] == ParseLine(lines[n], space) && ds[1..] == Directives(lines[n + 1..], space);
      assert forall a: string :: [] + [a] == [a];
      match ParseLine(lines[n], space) {
        case Agent(a) =>
          if collecting {
            groups := groups + [Group(agents, rules)];
            agents, rules, collecting := [], [], false;
          }
          agents := agents + [a];
        case Path(r) =>
          collecting := true;
          rules := rules + [r];
        case Other =>
      }
      n := n + 1;
    }
    if agents != [] || rules != [] { groups := groups + [Group(agents, rules)]; }
  }

  // ---- Nothing is lost ----

  function AgentsOf(ds: seq<Directive>): seq<string> {
    if ds == [] then [] else (if ds[0].Agent? then [ds[0].name] else []) + AgentsOf(ds[1..])
  }

  function RulesOf(ds: seq<Directive>): seq<Rule> {
    if ds == [] then [] else (if ds[0].Path? then [ds[0].rule] else []) + RulesOf(ds[1..])
  }

  function AllAgents(gs: seq<Group>): seq<string> {
    if gs == [] then [] else AllAgents(gs[..|gs| - 1]) + gs[|gs| - 1].agents
  }

  function AllRules(gs: seq<Group>): seq<Rule> {
    if gs == [] then [] else AllRules(gs[..|gs| - 1]) + gs[|gs| - 1].rules
  }

  function HeldAgents(s: State): seq<string> { AllAgents(s.groups) + s.agents }

  function HeldRules(s: State): seq<Rule> { AllRules(s.groups) + s.rules }

  lemma StepKeeps(s: State, d: Directive)
    ensures HeldAgents(s.Step(d)) == HeldAgents(s) + (if d.Agent? then [d.name] else [])
    ensures HeldRules(s.Step(d)) == HeldRules(s) + (if d.Path? then [d.rule] else [])
  {
    var t := s.Step(d);
    if t.groups != s.groups { assert t.groups[..|t.groups| - 1] == s.groups; }
  }

  lemma {:induction false} FeedKeepsAgents(s: State, ds: seq<Directive>)
    ensures HeldAgents(Feed(s, ds)) == HeldAgents(s) + AgentsOf(ds)
    decreases |ds|
  {
    if ds == [] {
      assert HeldAgents(s) + [] == HeldAgents(s);
    } else {
      var one := if ds[0].Agent? then [ds[0].name] else [];
      StepKeeps(s, ds[0]);
      FeedKeepsAgents(s.Step(ds[0]), ds[1..]);
      assert HeldAgents(s) + one + AgentsOf(ds[1..]) == HeldAgents(s) + (one + AgentsOf(ds[1..]));
    }
  }

  lemma {:induction false} FeedKeepsRules(s: State, ds: seq<Directive>)
    ensures HeldRules(Feed(s, ds)) == HeldRules(s) + RulesOf(ds)
    decreases |ds|
  {
    if ds == [] {
      assert HeldRules(s) + [] == HeldRules(s);
    } else {
      var one := if ds[0].Path? then [ds[0].rule] else [];
      StepKeeps(s, ds[0]);
      FeedKeepsRules(s.Step(ds[0]), ds[1..]);
      assert HeldRules(s) + one + RulesOf(ds[1..]) == HeldRules(s) + (one + RulesOf(ds[1..]));
    }
  }

  lemma FinishKeeps(s: State)
    ensures AllAgents(s.Finish()) == HeldAgents(s) && AllRules(s.Finish()) == HeldRules(s)
  {
    var gs := s.groups + [Group(s.agents, s.rules)];
    assert gs[..|gs| - 1] == s.groups;
  }

  lemma KeptAll(ds: seq<Directive>)
    ensures AllAgents(Feed(START, ds).Finish()) == AgentsOf(ds) && AllRules(Feed(START, ds).Finish()) == RulesOf(ds)
  {
    var t := Feed(START, ds);
    FinishKeeps(t);
    FeedKeepsAgents(START, ds);
    assert HeldAgents(START) + AgentsOf(ds) == AgentsOf(ds);
    FeedKeepsRules(START, ds);
    assert HeldRules(START) + RulesOf(ds) == RulesOf(ds);
  }

  /** Whatever the text, the groups hold its agents and its rules, all of them and in order. */
  lemma Conserved(lines: seq<string>, space: set<char>)
    ensures AllAgents(Groups(lines, space)) == AgentsOf(Directives(lines, space))
    ensures AllRules(Groups(lines, space)) == RulesOf(Directives(lines, space))
  {
    KeptAll(Directives(lines, space));
  }

  // ---- Printing and reading again ----

  /** No group is empty; only the first can lack agents and only the last can lack rules. */
  predicate Normal(gs: seq<Group>) {
    && (forall i | 0 < i < |gs| :: gs[i].agents != [])
    && (forall i | 0 <= i < |gs| - 1 :: gs[i].rules != [])
    && (gs != [] ==> gs[0].agents != [] || gs[0].rules != [])
  }

  lemma {:induction false} FeedNormal(s: State, ds: seq<Directive>)
    requires Normal(s.Finish()) && (s.collecting <==> s.rules != []) && (s.groups != [] ==> s.agents != [])
    ensures Normal(Feed(s, ds).Finish())
    decreases |ds|
  {
    if ds != [] {
      var t := s.Step(ds[0]);
      if t.groups != s.groups {
        assert t.Finish() == s.Finish() + [Group(t.agents, t.rules)];
      } else if t != s {
        assert t.Finish() == s.groups + [Group(t.agents, t.rules)];
        assert forall i | 0 <= i < |s.groups| :: t.Finish()[i] == s.Finish()[i];
      }
      FeedNormal(t, ds[1..]);
    }
  }

  function AgentDirectives(agents: seq<string>): seq<Directive> {
    if agents == [] then [] else [Agent(agents[0])] + AgentDirectives(agents[1..])
  }

  function RuleDirectives(rules: seq<Rule>): seq<Directive> {
    if rules == [] then [] else [Path(rules[0])] + RuleDirectives(rules[1..])
  }

  function Listed(gs: seq<Group>): seq<Directive> {
    if gs == [] then [] else AgentDirectives(gs[0].agents) + RuleDirectives(gs[0].rules) + Listed(gs[1..])
  }

  lemma {:induction false} FeedConcat(s: State, ds: seq<Directive>, es: seq<Directive>)
    ensures Feed(s, ds + es) == Feed(Feed(s, ds), es)
    decreases |ds|
  {
    if ds == [] {
      assert ds + es == es;
    } else {
      assert (ds + es)[1..] == ds[1..] + es;
      FeedConcat(s.Step(ds[0]), ds[1..], es);
    }
  }

  lemma {:induction false} FeedAgents(s: State, agents: seq<string>)
    requires !s.collecting
    ensures Feed(s, AgentDirectives(agents)) == s.(agents := s.agents + agents)
    decreases |agents|
  {
    if agents == [] {
      assert s.agents + agents == s.agents;
    } else {
      FeedAgents(s.Step(Agent(agents[0])), agents[1..]);
      assert s.agents + [agents[0]] + agents[1..] == s.agents + agents;
    }
  }

  lemma {:induction false} FeedRules(s: State, rules: seq<Rule>)
    ensures Feed(s, RuleDirectives(rules)) == s.(rules := s.rules + rules, collecting := s.collecting || rules != [])
    decreases |rules|
  {
    if rules == [] {
      assert s.rules + rules == s.rules;
    } else {
      FeedRules(s.Step(Path(rules[0])), rules[1..]);
      assert s.rules + [rules[0]] + rules[1..] == s.rules + rules;
    }
  }

  /** The state in which group `g` is being read. */
  function Reading(done: seq<Group>, g: Group): State { State(done, g.agents, g.rules, g.rules != []) }

  lemma FeedGroup(s: State, g: Group)
    requires s.agents == [] && s.rules == [] && !s.collecting
    ensures Feed(s, AgentDirectives(g.agents) + RuleDirectives(g.rules)) == Reading(s.groups, g)
  {
    FeedConcat(s, AgentDirectives(g.agents), RuleDirectives(g.rules));
    FeedAgents(s, g.agents);
    FeedRules(s.(agents := s.agents + g.agents), g.rules);
    assert s.agents + g.agents == g.agents && s.rules + g.rules == g.rules;
  }

  lemma NextGroup(done: seq<Group>, f: Group, g: Group)
    requires f.rules != [] && g.agents != []
    ensures Feed(Reading(done, f), AgentDirectives(g.agents) + RuleDirectives(g.rules)) == Reading(done + [f], g)
  {
    var s := State(done + [f], [], [], false);
    var ds := AgentDirectives(g.agents) + RuleDirectives(g.rules);
    FeedGroup(s, g);
    assert ds[0] == Agent(g.agents[0]);
    assert [] + [g.agents[0]] == [g.agents[0]];
    assert Reading(done, f).Step(ds[0]) == s.Step(ds[0]);
  }

  lemma {:induction false} FeedListed(done: seq<Group>, f: Group, gs: seq<Group>)
    requires Normal([f] + gs)
    ensures Feed(Reading(done, f), Listed(gs)).Finish() == done + [f] + gs
    decreases |gs|
  {
    if gs == [] {
      assert [f] + gs == [f];
      assert done + [f] + gs == done + [f];
    } else {
      var all := [f] + gs;
      assert all[0] == f && all[1] == gs[0];
      NextGroup(done, f, gs[0]);
      FeedConcat(Reading(done, f), AgentDirectives(gs[0].agents) + RuleDirectives(gs[0].rules), Listed(gs[1..]));
      assert [gs[0]] + gs[1..] == gs;
      assert Normal(gs) by {
        assert forall i | 0 <= i < |gs| :: gs[i] == all[i + 1];
      }
      FeedListed(done + [f], gs[0], gs[1..]);
      assert done + [f] + gs == done + [f] + [gs[0]] + gs[1..];
    }
  }

  /** Reading the directives of a list of groups gives the list back exactly if it is normal, and
      reading gives only normal lists. */
  lemma ReadsBack(gs: seq<Group>)
    ensures Feed(START, Listed(gs)).Finish() == gs <==> Normal(gs)
    ensures forall ds :: Normal(Feed(START, ds).Finish())
  {
    forall ds ensures Normal(Feed(START, ds).Finish()) { FeedNormal(START, ds); }
    if Normal(gs) && gs != [] {
      var first := AgentDirectives(gs[0].agents) + RuleDirectives(gs[0].rules);
      FeedConcat(START, first, Listed(gs[1..]));
      FeedGroup(START, gs[0]);
      assert [gs[0]] + gs[1..] == gs;
      FeedListed([], gs[0], gs[1..]);
      assert [] + [gs[0]] + gs[1..] == gs;
    }
  }

  // ---- Lines of printed groups ----

  /** Can be printed: no white space around it and no comment in it. */
  predicate Clean(v: string, space: set<char>) { Trimmed(v, space) && '#' !in v }

  predicate CleanGroup(g: Group, space: set<char>) {
    && (forall i | 0 <= i < |g.agents| :: Clean(g.agents[i], space))
    && forall i | 0 <= i < |g.rules| :: Clean(g.rules[i].pattern, space)
  }

  function AgentLines(agents: seq<string>): seq<string> {
    if agents == [] then [] else ["User-agent: " + agents[0]] + AgentLines(agents[1..])
  }

  function Field(r: Rule): string { if r.allow then "Allow" else "Disallow" }

  function RuleLines(rules: seq<Rule>): seq<string> {
    if rules == [] then [] else [Field(rules[0]) + ": " + rules[0].pattern] + RuleLines(rules[1..])
  }

  function Print(gs: seq<Group>): seq<string> {
    if gs == [] then [] else AgentLines(gs[0].agents) + RuleLines(gs[0].rules) + Print(gs[1..])
  }

  lemma FieldText(field: string, rest: string, space: set<char>)
    requires ':' !in field && Trimmed(field, space)
    ensures var text := field + ":" + rest;
      ':' in text && Trim(Before(text, ':'), space) == field && After(text, ':') == rest
  {
    var text := field + ":" + rest;
    assert text == field + (":" + rest);
    BeforeConcat(field, ":" + rest, ':');
    assert text[|field|] == ':';
    TrimTrimmed(field, space);
  }

  lemma PrintedValue(field: string, v: string, space: set<char>)
    requires ':' !in field && '#' !in field && field != "" && Trimmed(field, space) && v != ""
    requires Invisible(space) && ' ' in space && Clean(v, space)
    ensures var text := Trim(field + ": " + v, space);
      ':' in text && FieldOf(text, space) == field && ValueOf(text, space) == v
  {
    var line := field + ": " + v;
    assert line[0] == field[0] && line[|line| - 1] == v[|v| - 1];
    TrimTrimmed(line, space);
    assert line == field + ":" + (" " + v);
    FieldText(field, " " + v, space);
    TrimTrimmed(v, space);
    assert TrimStart(" " + v, space) == v by { assert (" " + v)[1..] == v; }
  }

  lemma TrimOne(s: string, space: set<char>)
    requires ' ' in space && s != "" && s[0] !in space && s[|s| - 1] !in space
    ensures Trim(s + " ", space) == s
  {
    var t := s + " ";
    assert t[0] == s[0] && t[|s|] == ' ' && t[..|t| - 1] == s;
    assert TrimEnd(s, space) == s;
  }

  lemma PrintedLine(field: string, v: string, space: set<char>)
    requires ':' !in field && '#' !in field && field != "" && Trimmed(field, space)
    requires Invisible(space) && ' ' in space && Clean(v, space)
    ensures var text := TextOf(field + ": " + v, space);
      ':' in text && FieldOf(text, space) == field && ValueOf(text, space) == v
  {
    var line := field + ": " + v;
    BeforeConcat(line, "", '#');
    assert line + "" == line;
    assert line[0] == field[0];
    if v == "" {
      assert line == field + ":" + " ";
      TrimOne(field + ":", space);
      assert field + ":" + "" == field + ":";
      FieldText(field, "", space);
    } else {
      PrintedValue(field, v, space);
    }
  }

  /** A field name as printed. */
  predicate Plain(field: string) {
    ':' !in field && '#' !in field && field != "" && forall c | c in field :: '!' <= c <= '~'
  }

  lemma FieldNames()
    ensures Plain("User-agent") && Lower("User-agent") == "user-agent"
    ensures Plain("Allow") && Lower("Allow") == "allow"
    ensures Plain("Disallow") && Lower("Disallow") == "disallow"
  {}

  lemma PlainTrimmed(field: string, space: set<char>)
    requires Plain(field) && Invisible(space)
    ensures Trimmed(field, space)
  {
    assert field[0] in field && field[|field| - 1] in field;
  }

  lemma PrintedAgent(v: string, space: set<char>)
    requires Invisible(space) && ' ' in space && Clean(v, space)
    ensures ParseLine("User-agent: " + v, space) == Agent(v)
  {
    FieldNames();
    PlainTrimmed("User-agent", space);
    assert "User-agent" + ": " + v == "User-agent: " + v;
    PrintedLine("User-agent", v, space);
  }

  lemma PrintedRule(r: Rule, space: set<char>)
    requires Invisible(space) && ' ' in space && Clean(r.pattern, space)
    ensures ParseLine(Field(r) + ": " + r.pattern, space) == Path(r)
  {
    FieldNames();
    PlainTrimmed(Field(r), space);
    PrintedLine(Field(r), r.pattern, space);
  }

  lemma {:induction false} DirectivesConcat(a: seq<string>, b: seq<string>, space: set<char>)
    ensures Directives(a + b, space) == Directives(a, space) + Directives(b, space)
    decreases |a|
  {
    if a == [] {
      assert a + b == b;
    } else {
      assert (a + b)[1..] == a[1..] + b;
      DirectivesConcat(a[1..], b, space);
    }
  }

  lemma {:induction false} AgentLinesRead(agents: seq<string>, space: set<char>)
    requires Invisible(space) && ' ' in space && forall i | 0 <= i < |agents| :: Clean(agents[i], space)
    ensures Directives(AgentLines(agents), space) == AgentDirectives(agents)
    decreases |agents|
  {
    if agents != [] {
      PrintedAgent(agents[0], space);
      AgentLinesRead(agents[1..], space);
    }
  }

  lemma {:induction false} RuleLinesRead(rules: seq<Rule>, space: set<char>)
    requires Invisible(space) && ' ' in space && forall i | 0 <= i < |rules| :: Clean(rules[i].pattern, space)
    ensures Directives(RuleLines(rules), space) == RuleDirectives(rules)
    decreases |rules|
  {
    if rules != [] {
      PrintedRule(rules[0], space);
      RuleLinesRead(rules[1..], space);
    }
  }

  lemma {:induction false} PrintRead(gs: seq<Group>, space: set<char>)
    requires Invisible(space) && ' ' in space && forall i | 0 <= i < |gs| :: CleanGroup(gs[i], space)
    ensures Directives(Print(gs), space) == Listed(gs)
    decreases |gs|
  {
    if gs != [] {
      DirectivesConcat(AgentLines(gs[0].agents) + RuleLines(gs[0].rules), Print(gs[1..]), space);
      DirectivesConcat(AgentLines(gs[0].agents), RuleLines(gs[0].rules), space);
      AgentLinesRead(gs[0].agents, space);
      RuleLinesRead(gs[0].rules, space);
      PrintRead(gs[1..], space);
    }
  }

  /** Parsing inverts printing: for every list of groups that all have agents and rules, and
      exactly for the normal lists. */
  lemma ParseInvertsPrint(gs: seq<Group>, space: set<char>)
    requires Invisible(space) && ' ' in space && forall i | 0 <= i < |gs| :: CleanGroup(gs[i], space)
    ensures Groups(Print(gs), space) == gs <==> Normal(gs)
    ensures (forall i | 0 <= i < |gs| :: gs[i].agents != [] && gs[i].rules != []) ==> Groups(Print(gs), space) == gs
  {
    PrintRead(gs, space);
    ReadsBack(gs);
  }

  // ---- Patterns ----

  /** A star stands for anything, and a dollar sign in last place for the end of the path. */
  predicate Matches(pattern: string, path: string)
    decreases |pattern| + |path|
  {
    if pattern == "" then true
    else if pattern[0] == '*' then Matches(pattern[1..], path) || (path != "" && Matches(pattern, path[1..]))
    else if pattern == "$" then path == ""
    else path != "" && path[0] == pattern[0] && Matches(pattern[1..], path[1..])
  }

  /** The pattern with something put in place of each star. */
  function Fill(body: string, stars: seq<string>): string
    requires |stars| == Count(body, '*')
  {
    if body == "" then ""
    else if body[0] == '*' then stars[0] + Fill(body[1..], stars[1..])
    else [body[0]] + Fill(body[1..], stars)
  }

  predicate Anchored(pattern: string) { pattern != "" && pattern[|pattern| - 1] == '$' }

  function Body(pattern: string): string { if Anchored(pattern) then pattern[..|pattern| - 1] else pattern }

  /** The filled pattern begins the path, or is the whole of it if there is an anchor. */
  predicate Fits(pattern: string, path: string, stars: seq<string>) {
    && |stars| == Count(Body(pattern), '*')
    && if Anchored(pattern) then Fill(Body(pattern), stars) == path else Fill(Body(pattern), stars) <= path
  }

  lemma BodyTail(pattern: string)
    requires pattern != "" && pattern != "$"
    ensures Anchored(pattern[1..]) == Anchored(pattern) && Body(pattern) != "" && Body(pattern)[0] == pattern[0]
    ensures Body(pattern[1..]) == Body(pattern)[1..]
  {
    if |pattern| == 1 { assert pattern[0] != '$' by { assert pattern == [pattern[0]]; } }
  }

  lemma {:induction false} MatchFits(pattern: string, path: string) returns (stars: seq<string>)
    requires Matches(pattern, path)
    ensures Fits(pattern, path, stars)
    decreases |pattern| + |path|
  {
    if pattern == "" || pattern == "$" {
      stars := [];
    } else {
      BodyTail(pattern);
      if pattern[0] == '*' && Matches(pattern[1..], path) {
        var rest := MatchFits(pattern[1..], path);
        stars := [""] + rest;
        assert stars[1..] == rest && "" + Fill(Body(pattern)[1..], rest) == Fill(Body(pattern)[1..], rest);
      } else if pattern[0] == '*' {
        var more := MatchFits(pattern, path[1..]);
        stars := [[path[0]] + more[0]] + more[1..];
        assert stars[1..] == more[1..];
        assert Fill(Body(pattern), stars) == [path[0]] + Fill(Body(pattern), more);
        assert path == [path[0]] + path[1..];
      } else {
        stars := MatchFits(pattern[1..], path[1..]);
        assert path == [path[0]] + path[1..];
      }
    }
  }

  lemma {:induction false} FitsMatch(pattern: string, path: string, stars: seq<string>)
    requires Fits(pattern, path, stars)
    ensures Matches(pattern, path)
    decreases |pattern| + |path|
  {
    if pattern != "" && pattern != "$" {
      BodyTail(pattern);
      var filled := Fill(Body(pattern), stars);
      if pattern[0] == '*' && stars[0] == "" {
        assert "" + Fill(Body(pattern)[1..], stars[1..]) == Fill(Body(pattern)[1..], stars[1..]);
        FitsMatch(pattern[1..], path, stars[1..]);
      } else if pattern[0] == '*' {
        var shorter := [stars[0][1..]] + stars[1..];
        assert shorter[1..] == stars[1..];
        assert filled == [stars[0][0]] + Fill(Body(pattern), shorter);
        assert filled[1..] == Fill(Body(pattern), shorter) && path != "";
        FitsMatch(pattern, path[1..], shorter);
      } else {
        assert filled[1..] == Fill(Body(pattern)[1..], stars) && path != "" && path[0] == filled[0];
        FitsMatch(pattern[1..], path[1..], stars);
      }
    }
  }

  /** A pattern matches a path exactly if its stars can be filled to fit it. */
  lemma MatchMeaning(pattern: string, path: string)
    ensures Matches(pattern, path) <==> exists stars :: Fits(pattern, path, stars)
  {
    if Matches(pattern, path) { var stars := MatchFits(pattern, path); }
    if stars :| Fits(pattern, path, stars) { FitsMatch(pattern, path, stars); }
  }

  /** Wildcards do not count: neither stars nor dollar signs. */
  function MatchLen(pattern: string, path: string): int {
    if pattern == "" || !Matches(pattern, path) then -1 else |pattern| - Count(pattern, '*') - Count(pattern, '$')
  }

  // ---- The verdict ----

  predicate Named(agent: string, bot: string) {
    Lower(agent) != "*" && (Contains(Lower(bot), Lower(agent)) || Contains(Lower(agent), Lower(bot)))
  }

  /** One name has the other in it, apart from case; a star names nobody. */
  lemma NamedIff(agent: string, bot: string)
    ensures Named(agent, bot) <==>
      Lower(agent) != "*" && exists pre: string, post: string ::
        Lower(bot) == pre + Lower(agent) + post || Lower(agent) == pre + Lower(bot) + post
  {
    ContainsIff(Lower(bot), Lower(agent));
    ContainsIff(Lower(agent), Lower(bot));
  }

  /** The length of the longest name of a group that fits the crawler. */
  function Longest(agents: seq<string>, bot: string): int {
    if agents == [] then -1
    else
      var rest, last := Longest(agents[..|agents| - 1], bot), agents[|agents| - 1];
      if Named(last, bot) && |last| > rest then |last| else rest
  }

  /** The first group with the longest name, or with a star if no group is named. */
  ghost predicate Chosen(groups: seq<Group>, bot: string, g: int, named: bool) {
    if named then
      && 0 <= g < |groups| && Longest(groups[g].agents, bot) >= 0
      && (forall h | 0 <= h < |groups| :: Longest(groups[h].agents, bot) <= Longest(groups[g].agents, bot))
      && (forall h | 0 <= h < g :: Longest(groups[h].agents, bot) < Longest(groups[g].agents, bot))
    else
      && (forall h | 0 <= h < |groups| :: Longest(groups[h].agents, bot) < 0)
      && 0 <= g <= |groups| && (g < |groups| ==> "*" in groups[g].agents)
      && (forall h | 0 <= h < g :: "*" !in groups[h].agents)
  }

  lemma {:induction false} LongestMeans(agents: seq<string>, bot: string)
    ensures Longest(agents, bot) >= -1
    ensures forall a | a in agents && Named(a, bot) :: |a| <= Longest(agents, bot)
    ensures Longest(agents, bot) >= 0 ==> exists a :: a in agents && Named(a, bot) && |a| == Longest(agents, bot)
  {
    if agents != [] {
      LongestMeans(agents[..|agents| - 1], bot);
      assert agents == agents[..|agents| - 1] + [agents[|agents| - 1]];
    }
  }

  ghost predicate Beats(d: Rule, rules: seq<Rule>, path: string) {
    MatchLen(d.pattern, path) >= 0 &&
    forall a: Rule | a in rules && a.allow :: MatchLen(a.pattern, path) < MatchLen(d.pattern, path)
  }

  /** A rule against the path that is longer than every rule for it. */
  ghost predicate Blocked(rules: seq<Rule>, path: string) {
    exists d: Rule :: d in rules && !d.allow && Beats(d, rules, path)
  }

  function Best(rules: seq<Rule>, allow: bool, path: string): int {
    if rules == [] then -1
    else
      var rest, last := Best(rules[..|rules| - 1], allow, path), rules[|rules| - 1];
      if last.allow == allow && MatchLen(last.pattern, path) > rest then MatchLen(last.pattern, path) else rest
  }

  lemma {:induction false} BestExact(rules: seq<Rule>, allow: bool, path: string)
    ensures Best(rules, allow, path) >= -1
    ensures forall r: Rule | r in rules && r.allow == allow :: MatchLen(r.pattern, path) <= Best(rules, allow, path)
    ensures Best(rules, allow, path) >= 0 ==>
      exists r: Rule :: r in rules && r.allow == allow && MatchLen(r.pattern, path) == Best(rules, allow, path)
  {
    if rules != [] {
      BestExact(rules[..|rules| - 1], allow, path);
      assert rules == rules[..|rules| - 1] + [rules[|rules| - 1]];
    }
  }

  lemma BlockedByBest(rules: seq<Rule>, path: string)
    ensures Blocked(rules, path) <==> Best(rules, false, path) > Best(rules, true, path)
    ensures Best(rules, false, path) >= -1 && Best(rules, true, path) >= -1
  {
    BestExact(rules, true, path);
    BestExact(rules, false, path);
    if Best(rules, false, path) > Best(rules, true, path) {
      var d: Rule :| d in rules && !d.allow && MatchLen(d.pattern, path) == Best(rules, false, path);
      assert Beats(d, rules, path);
    }
  }

  /** The weight of a rule: its characters, wildcards aside. */
  function Weight(pattern: string): nat
    ensures Weight(pattern) <= |pattern|
  {
    if pattern == "" then 0
    else (if pattern[0] == '*' || pattern[0] == '$' then 0 else 1) + Weight(pattern[1..])
  }

  lemma {:induction false} WeightIs(pattern: string)
    ensures Weight(pattern) == |pattern| - Count(pattern, '*') - Count(pattern, '$')
  {
    if pattern != "" { WeightIs(pattern[1..]); }
  }

  /** The rule says something, and its stars can be filled so that it fits the path. */
  ghost predicate Concerns(r: Rule, path: string) {
    r.pattern != "" && exists stars :: Fits(r.pattern, path, stars)
  }

  /** The rule concerns the path, and weighs more than every Allow rule that does. */
  ghost predicate Outweighs(d: Rule, rules: seq<Rule>, path: string) {
    && Concerns(d, path)
    && forall a: Rule | a in rules && a.allow && Concerns(a, path) :: Weight(a.pattern) < Weight(d.pattern)
  }

  /** The verdict without the matcher: a path is blocked exactly if some Disallow rule outweighs every Allow rule
      that concerns it. */
  lemma BlockedMeans(rules: seq<Rule>, path: string)
    ensures Blocked(rules, path) <==>
      exists d: Rule | d in rules && !d.allow :: Outweighs(d, rules, path)
  {
    forall r: Rule
      ensures MatchLen(r.pattern, path) == if Concerns(r, path) then Weight(r.pattern) else -1
    {
      MatchMeaning(r.pattern, path);
      WeightIs(r.pattern);
    }
    if Blocked(rules, path) {
      var d: Rule :| d in rules && !d.allow && Beats(d, rules, path);
      assert Outweighs(d, rules, path);
    }
    if d: Rule :| d in rules && !d.allow && Outweighs(d, rules, path) {
      assert Beats(d, rules, path);
    }
  }

  method LongestName(agents: seq<string>, bot: string, best: int) returns (longer: int)
    requires best >= -1
    ensures longer == if Longest(agents, bot) > best then Longest(agents, bot) else best
  {
    longer := best;
    var n := 0;
    while n < |agents|
      invariant n <= |agents| && longer == if Longest(agents[..n], bot) > best then Longest(agents[..n], bot) else best
    {
      assert agents[..n + 1][..n] == agents[..n];
      if Named(agents[n], bot) && |agents[n]| > longer { longer := |agents[n]|; }
      n := n + 1;
    }
    assert agents[..n] == agents;
  }

  method FindNamed(groups: seq<Group>, bot: string) returns (named: bool, g: int)
    ensures named ==> Chosen(groups, bot, g, true)
    ensures !named ==> forall h | 0 <= h < |groups| :: Longest(groups[h].agents, bot) < 0
  {
    var best, n := -1, 0;
    named, g := false, 0;
    while n < |groups|
      invariant n <= |groups| && best >= -1 && (named <==> best >= 0)
      invariant forall h | 0 <= h < n :: Longest(groups[h].agents, bot) <= best
      invariant named ==> 0 <= g < n && best == Longest(groups[g].agents, bot)
      invariant named ==> forall h | 0 <= h < g :: Longest(groups[h].agents, bot) < best
    {
      var longer := LongestName(groups[n].agents, bot, best);
      if longer > best { best, named, g := longer, true, n; }
      n := n + 1;
    }
  }

  method FindStar(groups: seq<Group>) returns (g: int)
    ensures 0 <= g <= |groups| && (g < |groups| ==> "*" in groups[g].agents)
    ensures forall h | 0 <= h < g :: "*" !in groups[h].agents
  {
    g := 0;
    while g < |groups|
      invariant 0 <= g <= |groups| && forall h | 0 <= h < g :: "*" !in groups[h].agents
    {
      if "*" in groups[g].agents { return; }
      g := g + 1;
    }
  }

  /** The rules that apply to a crawler: those of the chosen group, or none at all. */
  ghost predicate Applies(groups: seq<Group>, bot: string, named: bool, rules: seq<Rule>) {
    exists g :: 0 <= g <= |groups| && Chosen(groups, bot, g, named)
        && if g < |groups| then rules == groups[g].rules else rules == []
  }

  /** There is only one choice. */
  lemma OneChoice(groups: seq<Group>, bot: string, named: bool, rules: seq<Rule>, otherNamed: bool, other: seq<Rule>)
    requires Applies(groups, bot, named, rules) && Applies(groups, bot, otherNamed, other)
    ensures named == otherNamed && rules == other
  {
    var g :| 0 <= g <= |groups| && Chosen(groups, bot, g, named)
        && if g < |groups| then rules == groups[g].rules else rules == [];
    var h :| 0 <= h <= |groups| && Chosen(groups, bot, h, otherNamed)
        && if h < |groups| then other == groups[h].rules else other == [];
    if g < h { assert g < |groups|; } else if h < g { assert h < |groups|; }
  }

  /** The verdict for one crawler and path, and whether a group was named. */
  method RobotsVerdict(groups: seq<Group>, bot: string, path: string) returns (allowed: bool, named: bool)
    ensures exists rules :: Applies(groups, bot, named, rules) && (allowed <==> !Blocked(rules, path))
  {
    var g;
    named, g := FindNamed(groups, bot);
    if !named { g := FindStar(groups); }
    ghost var applied := if g < |groups| then groups[g].rules else [];
    assert Applies(groups, bot, named, applied);
    if g == |groups| {
      assert !Blocked(applied, path);
      return true, named;
    }
    var rules := groups[g].rules;
    BlockedByBest(rules, path);
    var allow, disallow := Best(rules, true, path), Best(rules, false, path);
    allowed := (disallow < 0 && allow < 0) || allow >= disallow;
    assert rules == applied && (allowed <==> !Blocked(applied, path));
  }

  /** The order and the repetition of rules do not matter. */
  lemma OrderIrrelevant(rules: seq<Rule>, other: seq<Rule>, path: string)
    requires forall r: Rule :: r in rules <==> r in other
    ensures Blocked(rules, path) <==> Blocked(other, path)
  {
    forall d: Rule ensures Beats(d, rules, path) <==> Beats(d, other, path) {}
    if Blocked(rules, path) { var d: Rule :| d in rules && !d.allow && Beats(d, rules, path); }
    if Blocked(other, path) { var d: Rule :| d in other && !d.allow && Beats(d, other, path); }
  }

  /** Adding an Allow rule never blocks a path, and adding a Disallow rule never frees one. */
  lemma Monotone(rules: seq<Rule>, before: nat, more: Rule, path: string)
    requires before <= |rules|
    ensures var extended := rules[..before] + [more] + rules[before..];
      if more.allow then Blocked(extended, path) ==> Blocked(rules, path)
      else Blocked(rules, path) ==> Blocked(extended, path)
  {
    var extended := rules[..before] + [more] + rules[before..];
    assert rules == rules[..before] + rules[before..];
    assert forall r: Rule :: r in extended <==> r in rules || r == more;
    if more.allow && Blocked(extended, path) {
      var d: Rule :| d in extended && !d.allow && Beats(d, extended, path);
      assert d in rules && Beats(d, rules, path);
    }
    if !more.allow && Blocked(rules, path) {
      var d: Rule :| d in rules && !d.allow && Beats(d, rules, path);
      assert d in extended && Beats(d, extended, path);
    }
  }

  /** On a tie the path is allowed. */
  lemma TiesAllow(rules: seq<Rule>, a: Rule, path: string)
    requires a in rules && a.allow && forall d: Rule | d in rules && !d.allow ::
        MatchLen(d.pattern, path) <= MatchLen(a.pattern, path)
    ensures !Blocked(rules, path)
  {
    forall d: Rule | d in rules && !d.allow ensures !Beats(d, rules, path) {}
  }
}

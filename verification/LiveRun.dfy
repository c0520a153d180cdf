/** Counting the outcomes of a live run, in which every case is run once with the plugin and once
    without, and counting them again from the files that the run left behind. */
module LiveRun {
  import opened Prelude

  datatype Arm = WithPlugin | WithoutPlugin

  /** One of each arm. */
  datatype Both<T> = Both(with: T, without: T)
  {
    function Of(arm: Arm): T { if arm.WithPlugin? then with else without }
  }

  /** One run of the command. `text` is the answer, empty if there was none. */
  datatype Execution = Execution(returnCode: int, parsed: bool, timedOut: bool, text: string, pluginLoaded: bool,
                                 skillInvoked: bool)
  {
    predicate Succeeded() { returnCode == 0 && parsed && !timedOut }
  }

  datatype Invocation = Invocation(evaluated: bool, passed: bool, reasons: seq<string>)
  {
    predicate Failed() { evaluated && !passed }
  }

  /** What is kept of a run on disk. */
  datatype Artifact = Artifact(text: string, succeeded: bool, invocation: Invocation)

  type Files = map<(string, Arm), Artifact>

  /** How a run was judged. The oracle is asked only about runs that succeeded. */
  datatype Verdict = Verdict(succeeded: bool, invocationFailed: bool, oraclePassed: bool)
  {
    predicate Valid() { succeeded && !invocationFailed }
    predicate OracleFailed() { succeeded && !oraclePassed }
    predicate ReleaseFailed(arm: Arm) { !succeeded || invocationFailed || (arm.WithPlugin? && OracleFailed()) }
  }

  datatype Tally = Tally(executed: nat, executionFailed: nat, oraclePassed: nat, oracleFailed: nat,
                         invocationFailed: nat, releaseFailed: nat)

  datatype Pairs = Pairs(withWon: nat, withoutWon: nat, bothPassed: nat, bothFailed: nat, invalid: nat)

  datatype Summary = Summary(
    executed: nat, failed: nat, executionFailed: nat, oracleFailed: nat, withOracleFailed: nat,
    baselineOracleFailed: nat, invocationFailed: nat, pairs: Pairs, withPlugin: Tally, withoutPlugin: Tally)
  {
    predicate ReleasePassed() { failed == 0 }
    function Of(arm: Arm): Tally { if arm.WithPlugin? then withPlugin else withoutPlugin }
  }

  const NO_RUNS := Tally(0, 0, 0, 0, 0, 0)
  const EMPTY := Summary(0, 0, 0, 0, 0, 0, 0, Pairs(0, 0, 0, 0, 0), NO_RUNS, NO_RUNS)

  function One(b: bool): nat { if b then 1 else 0 }

  // ---- What is counted ----

  function Counted(t: Tally, arm: Arm, v: Verdict): Tally {
    Tally(t.executed + 1, t.executionFailed + One(!v.succeeded), t.oraclePassed + One(v.succeeded && v.oraclePassed),
          t.oracleFailed + One(v.OracleFailed()), t.invocationFailed + One(v.invocationFailed),
          t.releaseFailed + One(v.ReleaseFailed(arm)))
  }

  function Count(s: Summary, arm: Arm, v: Verdict): Summary {
    Summary(s.executed + 1, s.failed + One(v.ReleaseFailed(arm)), s.executionFailed + One(!v.succeeded),
            s.oracleFailed + One(v.OracleFailed()),
            s.withOracleFailed + One(arm.WithPlugin? && v.OracleFailed()),
            s.baselineOracleFailed + One(arm.WithoutPlugin? && v.OracleFailed()),
            s.invocationFailed + One(v.invocationFailed), s.pairs,
            if arm.WithPlugin? then Counted(s.withPlugin, arm, v) else s.withPlugin,
            if arm.WithPlugin? then s.withoutPlugin else Counted(s.withoutPlugin, arm, v))
  }

  function Compare(p: Pairs, with: Verdict, without: Verdict): Pairs {
    if !with.Valid() || !without.Valid() then p.(invalid := p.invalid + 1)
    else if with.oraclePassed && without.oraclePassed then p.(bothPassed := p.bothPassed + 1)
    else if with.oraclePassed then p.(withWon := p.withWon + 1)
    else if without.oraclePassed then p.(withoutWon := p.withoutWon + 1)
    else p.(bothFailed := p.bothFailed + 1)
  }

  function CountCase(s: Summary, v: Both<Verdict>): Summary {
    var t := Count(Count(s, WithPlugin, v.with), WithoutPlugin, v.without);
    t.(pairs := Compare(t.pairs, v.with, v.without))
  }

  /** The summary of a list of cases, given how both runs of each were judged. */
  function Summarise(judged: seq<Both<Verdict>>): Summary {
    if judged == [] then EMPTY else CountCase(Summarise(judged[..|judged| - 1]), judged[|judged| - 1])
  }

  lemma OneMore(judged: seq<Both<Verdict>>, n: nat)
    requires n < |judged|
    ensures Summarise(judged[..n + 1]) == CountCase(Summarise(judged[..n]), judged[n])
  {
    assert judged[..n + 1][..n] == judged[..n];
  }

  // ---- Accounts ----

  predicate Balanced(t: Tally, n: nat) { t.executed == n && t.oraclePassed + t.oracleFailed + t.executionFailed == n }

  predicate PairsAddUp(p: Pairs, n: nat) { p.withWon + p.withoutWon + p.bothPassed + p.bothFailed + p.invalid == n }

  predicate TotalsAgree(s: Summary) {
    && s.failed == s.withPlugin.releaseFailed + s.withoutPlugin.releaseFailed
    && s.executionFailed == s.withPlugin.executionFailed + s.withoutPlugin.executionFailed
    && s.invocationFailed == s.withPlugin.invocationFailed + s.withoutPlugin.invocationFailed
    && s.oracleFailed == s.withOracleFailed + s.baselineOracleFailed
    && s.withOracleFailed == s.withPlugin.oracleFailed && s.baselineOracleFailed == s.withoutPlugin.oracleFailed
  }

  lemma BalanceKept(t: Tally, arm: Arm, v: Verdict, n: nat)
    requires Balanced(t, n)
    ensures Balanced(Counted(t, arm, v), n + 1)
  {}

  lemma TotalsKept(s: Summary, arm: Arm, v: Verdict)
    requires TotalsAgree(s)
    ensures TotalsAgree(Count(s, arm, v))
  {}

  lemma PairsKept(p: Pairs, with: Verdict, without: Verdict, n: nat)
    requires PairsAddUp(p, n)
    ensures PairsAddUp(Compare(p, with, without), n + 1)
  {}

  /** Each arm ran every case, and its runs passed the oracle, failed it, or were not executed; the pairs add up;
      and the totals are those of the arms. */
  predicate AddsUp(s: Summary, n: nat) {
    && Balanced(s.withPlugin, n) && Balanced(s.withoutPlugin, n) && s.executed == 2 * n
    && PairsAddUp(s.pairs, n) && TotalsAgree(s)
  }

  lemma CaseKept(s: Summary, v: Both<Verdict>, n: nat)
    requires AddsUp(s, n)
    ensures AddsUp(CountCase(s, v), n + 1)
  {
    BalanceKept(s.withPlugin, WithPlugin, v.with, n);
    BalanceKept(s.withoutPlugin, WithoutPlugin, v.without, n);
    TotalsKept(s, WithPlugin, v.with);
    TotalsKept(Count(s, WithPlugin, v.with), WithoutPlugin, v.without);
    PairsKept(s.pairs, v.with, v.without, n);
  }

  /** For every plan and all outcomes. */
  lemma {:induction false} Accounts(judged: seq<Both<Verdict>>)
    ensures AddsUp(Summarise(judged), |judged|)
  {
    if judged != [] {
      var n := |judged| - 1;
      Accounts(judged[..n]);
      CaseKept(Summarise(judged[..n]), judged[n], n);
    }
  }

  predicate Good(with: Verdict, without: Verdict) { with.Valid() && without.Valid() && with.oraclePassed }

  /** The release passes exactly if in every case both runs are valid and the one with the plugin
      passes the oracle; then no pair is invalid, lost, or failed by both. */
  lemma {:induction false} ReleasePassedMeans(judged: seq<Both<Verdict>>)
    ensures var s := Summarise(judged);
      && (s.ReleasePassed() <==> forall v | v in judged :: Good(v.with, v.without))
      && (s.ReleasePassed() ==> s.pairs.invalid == 0 && s.pairs.bothFailed == 0 && s.pairs.withoutWon == 0
                                && s.pairs.withWon + s.pairs.bothPassed == |judged|)
  {
    if judged != [] {
      var front, v := judged[..|judged| - 1], judged[|judged| - 1];
      assert judged == front + [v];
      ReleasePassedMeans(front);
      assert Summarise(judged).failed
          == Summarise(front).failed + One(v.with.ReleaseFailed(WithPlugin))
              + One(v.without.ReleaseFailed(WithoutPlugin));
      assert Good(v.with, v.without) <==> !v.with.ReleaseFailed(WithPlugin) && !v.without.ReleaseFailed(WithoutPlugin);
    }
  }

  /** The order of the two arms of a case does not matter. */
  lemma ArmsCommute(s: Summary, with: Verdict, without: Verdict)
    ensures Count(Count(s, WithoutPlugin, without), WithPlugin, with)
        == Count(Count(s, WithPlugin, with), WithoutPlugin, without)
  {}

  // ---- Judging ----

  function Reason(b: bool, text: string): seq<string> { if b then [text] else [] }

  function Invoked(arm: Arm, e: Execution): Invocation {
    if !e.Succeeded() then Invocation(false, false, ["execution_not_succeeded"])
    else
      var reasons :=
        if arm.WithPlugin?
        then Reason(!e.pluginLoaded, "plugin_load_not_proven") + Reason(!e.skillInvoked, "skill_invocation_not_proven")
        else Reason(e.pluginLoaded, "plugin_unexpectedly_loaded")
             + Reason(e.skillInvoked, "skill_unexpectedly_invoked");
      Invocation(true, reasons == [], reasons)
  }

  method InvocationResult(arm: Arm, e: Execution) returns (r: Invocation)
    ensures r.evaluated == e.Succeeded()
    ensures r.Failed() <==>
        e.Succeeded()
        && (if arm.WithPlugin? then !e.pluginLoaded || !e.skillInvoked else e.pluginLoaded || e.skillInvoked)
    ensures forall reason :: reason in r.reasons <==>
      if !e.Succeeded() then reason == "execution_not_succeeded"
      else if arm == WithPlugin then
        || (!e.pluginLoaded && reason == "plugin_load_not_proven")
        || (!e.skillInvoked && reason == "skill_invocation_not_proven")
      else
        || (e.pluginLoaded && reason == "plugin_unexpectedly_loaded")
        || (e.skillInvoked && reason == "skill_unexpectedly_invoked")
    ensures r == Invoked(arm, e)
  {
    if !e.Succeeded() { return Invocation(false, false, ["execution_not_succeeded"]); }
    var reasons := [];
    if arm.WithPlugin? {
      if !e.pluginLoaded { reasons := reasons + ["plugin_load_not_proven"]; }
      if !e.skillInvoked { reasons := reasons + ["skill_invocation_not_proven"]; }
    } else {
      if e.pluginLoaded { reasons := reasons + ["plugin_unexpectedly_loaded"]; }
      if e.skillInvoked { reasons := reasons + ["skill_unexpectedly_invoked"]; }
    }
    r := Invocation(true, reasons == [], reasons);
  }

  function Kept(arm: Arm, e: Execution): Artifact { Artifact(e.text, e.Succeeded(), Invoked(arm, e)) }

  /** The oracle is any predicate on a case and an answer. */
  function Judge(oracle: (string, string) -> bool, id: string, a: Artifact, text: string): Verdict {
    Verdict(a.succeeded, a.invocation.Failed(), a.succeeded && oracle(id, text))
  }

  function JudgeBoth(oracle: (string, string) -> bool, id: string, e: Both<Execution>): Both<Verdict> {
    Both(Judge(oracle, id, Kept(WithPlugin, e.with), e.with.text),
        Judge(oracle, id, Kept(WithoutPlugin, e.without), e.without.text))
  }

  function Judged(oracle: (string, string) -> bool, cases: seq<string>,
                  runs: seq<Both<Execution>>): (judged: seq<Both<Verdict>>)
    requires |cases| == |runs|
    ensures |judged| == |cases|
  {
    if cases == [] then [] else
    Judged(oracle, cases[..|cases| - 1], runs[..|cases| - 1])
        + [JudgeBoth(oracle, cases[|cases| - 1], runs[|cases| - 1])]
  }

  lemma {:induction false} JudgedAt(oracle: (string, string) -> bool, cases: seq<string>, runs: seq<Both<Execution>>,
                                    i: nat)
    requires |cases| == |runs| && i < |cases|
    ensures Judged(oracle, cases, runs)[i] == JudgeBoth(oracle, cases[i], runs[i])
  {
    if i < |cases| - 1 { JudgedAt(oracle, cases[..|cases| - 1], runs[..|cases| - 1], i); }
  }

  /** The files after the first `n` cases. A case that comes again overwrites its files. */
  function FilesAfter(cases: seq<string>, runs: seq<Both<Execution>>, n: nat): Files
    requires n <= |cases| == |runs|
  {
    if n == 0 then map[]
    else FilesAfter(cases, runs, n - 1)[
      (cases[n - 1], WithPlugin) := Kept(WithPlugin, runs[n - 1].with)][
      (cases[n - 1], WithoutPlugin) := Kept(WithoutPlugin, runs[n - 1].without)]
  }

  /** The last of the first `n` cases with this identifier. */
  function Last(cases: seq<string>, n: nat, id: string): (i: nat)
    requires n <= |cases| && id in cases[..n]
    ensures i < n && cases[i] == id
  {
    if cases[n - 1] == id then n - 1 else
    assert cases[..n] == cases[..n - 1] + [cases[n - 1]];
    Last(cases, n - 1, id)
  }

  lemma {:induction false} FilesAre(cases: seq<string>, runs: seq<Both<Execution>>, n: nat, id: string)
    requires n <= |cases| == |runs| && id in cases[..n]
    ensures var files, last := FilesAfter(cases, runs, n), runs[Last(cases, n, id)];
      && (id, WithPlugin) in files && files[(id, WithPlugin)] == Kept(WithPlugin, last.with)
      && (id, WithoutPlugin) in files && files[(id, WithoutPlugin)] == Kept(WithoutPlugin, last.without)
  {
    if cases[n - 1] != id {
      assert cases[..n] == cases[..n - 1] + [cases[n - 1]];
      FilesAre(cases, runs, n - 1, id);
    }
  }

  // ---- What each number counts ----

  predicate Ran(e: Execution) { e.returnCode == 0 && e.parsed && !e.timedOut }

  /** The plugin and its skill show in the run that has them, and in no other. */
  predicate RightEvidence(arm: Arm, e: Execution) {
    if arm == WithPlugin then e.pluginLoaded && e.skillInvoked else !e.pluginLoaded && !e.skillInvoked
  }

  predicate GoodRun(arm: Arm, e: Execution) { Ran(e) && RightEvidence(arm, e) }

  /** What is counted, as a question about the two runs of a case. */
  datatype Question =
    | NotRun(arm: Arm) | OraclePassed(arm: Arm) | OracleFailed(arm: Arm) | WrongEvidence(arm: Arm)
    | NotReleased(arm: Arm) | InvalidPair | Pair(with: bool, without: bool)
  {
    predicate Holds(oracle: (string, string) -> bool, id: string, e: Both<Execution>) {
      match this
      case NotRun(arm) => !Ran(e.Of(arm))
      case OraclePassed(arm) => Ran(e.Of(arm)) && oracle(id, e.Of(arm).text)
      case OracleFailed(arm) => Ran(e.Of(arm)) && !oracle(id, e.Of(arm).text)
      case WrongEvidence(arm) => Ran(e.Of(arm)) && !RightEvidence(arm, e.Of(arm))
      case NotReleased(arm) => !GoodRun(arm, e.Of(arm)) || (arm == WithPlugin && !oracle(id, e.with.text))
      case InvalidPair => !GoodRun(WithPlugin, e.with) || !GoodRun(WithoutPlugin, e.without)
      case Pair(with, without) =>
        && GoodRun(WithPlugin, e.with) && GoodRun(WithoutPlugin, e.without)
        && oracle(id, e.with.text) == with && oracle(id, e.without.text) == without
    }
  }

  /** In how many cases the answer is yes. */
  function HowMany(q: Question, oracle: (string, string) -> bool, cases: seq<string>, runs: seq<Both<Execution>>): nat
    requires |cases| == |runs|
  {
    |set i | 0 <= i < |cases| && q.Holds(oracle, cases[i], runs[i])|
  }

  lemma HowManyNext(q: Question, oracle: (string, string) -> bool, cases: seq<string>, runs: seq<Both<Execution>>)
    requires |cases| == |runs| > 0
    ensures var n := |cases| - 1;
      HowMany(q, oracle, cases, runs)
      == HowMany(q, oracle, cases[..n], runs[..n]) + One(q.Holds(oracle, cases[n], runs[n]))
  {
    var n := |cases| - 1;
    var before := set i | 0 <= i < n && q.Holds(oracle, cases[..n][i], runs[..n][i]);
    assert (set i | 0 <= i < |cases| && q.Holds(oracle, cases[i], runs[i]))
        == if q.Holds(oracle, cases[n], runs[n]) then before + {n} else before;
  }

  /** The numbers of one arm. */
  ghost predicate TallyMeans(t: Tally, arm: Arm, oracle: (string, string) -> bool, cases: seq<string>,
                             runs: seq<Both<Execution>>)
    requires |cases| == |runs|
  {
    && t.executed == |cases|
    && t.executionFailed == HowMany(NotRun(arm), oracle, cases, runs)
    && t.oraclePassed == HowMany(OraclePassed(arm), oracle, cases, runs)
    && t.oracleFailed == HowMany(OracleFailed(arm), oracle, cases, runs)
    && t.invocationFailed == HowMany(WrongEvidence(arm), oracle, cases, runs)
    && t.releaseFailed == HowMany(NotReleased(arm), oracle, cases, runs)
  }

  /** The outcomes of the pairs. */
  ghost predicate PairsMean(p: Pairs, oracle: (string, string) -> bool, cases: seq<string>, runs: seq<Both<Execution>>)
    requires |cases| == |runs|
  {
    && p.withWon == HowMany(Pair(true, false), oracle, cases, runs)
    && p.withoutWon == HowMany(Pair(false, true), oracle, cases, runs)
    && p.bothPassed == HowMany(Pair(true, true), oracle, cases, runs)
    && p.bothFailed == HowMany(Pair(false, false), oracle, cases, runs)
    && p.invalid == HowMany(InvalidPair, oracle, cases, runs)
  }

  lemma JudgeMeans(arm: Arm, oracle: (string, string) -> bool, id: string, e: Execution)
    ensures var v := Judge(oracle, id, Kept(arm, e), e.text);
      && v.succeeded == Ran(e) && v.invocationFailed == (Ran(e) && !RightEvidence(arm, e))
      && v.oraclePassed == (Ran(e) && oracle(id, e.text))
  {}

  lemma TallyNext(t: Tally, arm: Arm, oracle: (string, string) -> bool, cases: seq<string>, runs: seq<Both<Execution>>)
    requires |cases| == |runs| > 0
    requires var n := |cases| - 1; TallyMeans(t, arm, oracle, cases[..n], runs[..n])
    ensures var n := |cases| - 1; var e := runs[n].Of(arm);
      TallyMeans(Counted(t, arm, Judge(oracle, cases[n], Kept(arm, e), e.text)), arm, oracle, cases, runs)
  {
    var n := |cases| - 1;
    JudgeMeans(arm, oracle, cases[n], runs[n].Of(arm));
    HowManyNext(NotRun(arm), oracle, cases, runs);
    HowManyNext(OraclePassed(arm), oracle, cases, runs);
    HowManyNext(OracleFailed(arm), oracle, cases, runs);
    HowManyNext(WrongEvidence(arm), oracle, cases, runs);
    HowManyNext(NotReleased(arm), oracle, cases, runs);
  }

  lemma PairsNext(p: Pairs, oracle: (string, string) -> bool, cases: seq<string>, runs: seq<Both<Execution>>)
    requires |cases| == |runs| > 0
    requires var n := |cases| - 1; PairsMean(p, oracle, cases[..n], runs[..n])
    ensures var n := |cases| - 1; var v := JudgeBoth(oracle, cases[n], runs[n]);
      PairsMean(Compare(p, v.with, v.without), oracle, cases, runs)
  {
    var n := |cases| - 1;
    JudgeMeans(WithPlugin, oracle, cases[n], runs[n].with);
    JudgeMeans(WithoutPlugin, oracle, cases[n], runs[n].without);
    HowManyNext(Pair(true, false), oracle, cases, runs);
    HowManyNext(Pair(false, true), oracle, cases, runs);
    HowManyNext(Pair(true, true), oracle, cases, runs);
    HowManyNext(Pair(false, false), oracle, cases, runs);
    HowManyNext(InvalidPair, oracle, cases, runs);
  }

  lemma SummaryNext(oracle: (string, string) -> bool, cases: seq<string>, runs: seq<Both<Execution>>)
    requires |cases| == |runs| > 0
    ensures var n := |cases| - 1;
      var s, front := Summarise(Judged(oracle, cases, runs)), Summarise(Judged(oracle, cases[..n], runs[..n]));
      var v := JudgeBoth(oracle, cases[n], runs[n]);
      && s.withPlugin == Counted(front.withPlugin, WithPlugin, v.with)
      && s.withoutPlugin == Counted(front.withoutPlugin, WithoutPlugin, v.without)
      && s.pairs == Compare(front.pairs, v.with, v.without)
  {
    var n := |cases| - 1;
    var judged := Judged(oracle, cases, runs);
    assert judged[..n] == Judged(oracle, cases[..n], runs[..n]);
    assert judged[n] == JudgeBoth(oracle, cases[n], runs[n]);
  }

  lemma {:induction false} TalliesMean(arm: Arm, oracle: (string, string) -> bool, cases: seq<string>,
                                       runs: seq<Both<Execution>>)
    requires |cases| == |runs|
    ensures TallyMeans(Summarise(Judged(oracle, cases, runs)).Of(arm), arm, oracle, cases, runs)
  {
    if cases != [] {
      var n := |cases| - 1;
      TalliesMean(arm, oracle, cases[..n], runs[..n]);
      SummaryNext(oracle, cases, runs);
      TallyNext(Summarise(Judged(oracle, cases[..n], runs[..n])).Of(arm), arm, oracle, cases, runs);
    }
  }

  lemma {:induction false} AllPairsMean(oracle: (string, string) -> bool, cases: seq<string>,
                                        runs: seq<Both<Execution>>)
    requires |cases| == |runs|
    ensures PairsMean(Summarise(Judged(oracle, cases, runs)).pairs, oracle, cases, runs)
  {
    if cases != [] {
      var n := |cases| - 1;
      AllPairsMean(oracle, cases[..n], runs[..n]);
      SummaryNext(oracle, cases, runs);
      PairsNext(Summarise(Judged(oracle, cases[..n], runs[..n])).pairs, oracle, cases, runs);
    }
  }

  /** The summary of a plan, number by number, in terms of the runs themselves; its totals are those of the arms. */
  lemma SummaryMeans(oracle: (string, string) -> bool, cases: seq<string>, runs: seq<Both<Execution>>)
    requires |cases| == |runs|
    ensures forall arm :: TallyMeans(Summarise(Judged(oracle, cases, runs)).Of(arm), arm, oracle, cases, runs)
    ensures PairsMean(Summarise(Judged(oracle, cases, runs)).pairs, oracle, cases, runs)
    ensures AddsUp(Summarise(Judged(oracle, cases, runs)), |cases|)
  {
    forall arm ensures TallyMeans(Summarise(Judged(oracle, cases, runs)).Of(arm), arm, oracle, cases, runs) {
      TalliesMean(arm, oracle, cases, runs);
    }
    AllPairsMean(oracle, cases, runs);
    Accounts(Judged(oracle, cases, runs));
  }

  // ---- The two programs ----

  /** What is at the output path: nothing or an empty directory, some file, or a directory in use. */
  datatype Place = Free | NotDirectory | InUse

  datatype Refusal =
    | BadTimeout | NoCases | NoSummary | UnknownCase(id: string) | MissingFiles | OutputNotDirectory | OutputInUse

  function PlaceRefused(place: Place): Option<Refusal> {
    match place case Free => None case NotDirectory => Some(OutputNotDirectory) case InUse => Some(OutputInUse)
  }

  function PlanRefused(cases: seq<string>, timeout: int, place: Place): Option<Refusal> {
    if timeout <= 0 then Some(BadTimeout) else if cases == [] then Some(NoCases) else PlaceRefused(place)
  }

  /** What a plan ends with: the summary of the verdicts on all its runs, or a refusal. */
  function Executed(oracle: (string, string) -> bool, cases: seq<string>, runs: seq<Both<Execution>>, timeout: int,
                    place: Place): Result<Summary, Refusal>
    requires |cases| == |runs|
  {
    var refused := PlanRefused(cases, timeout, place);
    if refused.Some? then Err(refused.value) else Ok(Summarise(Judged(oracle, cases, runs)))
  }

  /** The counting that both programs do for one run. */
  method CountRun(s: Summary, id: string, arm: Arm, a: Artifact, text: string, oracle: (string, string) -> bool)
    returns (t: Summary, v: Verdict)
    ensures v == Judge(oracle, id, a, text) && t == Count(s, arm, v)
  {
    var oracleEvaluated := a.succeeded;
    var oraclePassed := oracleEvaluated && oracle(id, text);
    var oracleFailed := oracleEvaluated && !oraclePassed;
    var invocationFailed := a.invocation.evaluated && !a.invocation.passed;
    var releaseFailed := !a.succeeded || invocationFailed || (arm.WithPlugin? && oracleFailed);
    t := s;
    var tally := s.Of(arm);
    if !a.succeeded {
      t := t.(executionFailed := t.executionFailed + 1);
      tally := tally.(executionFailed := tally.executionFailed + 1);
    }
    if oracleFailed {
      t := t.(oracleFailed := t.oracleFailed + 1);
      tally := tally.(oracleFailed := tally.oracleFailed + 1);
      if arm.WithPlugin? {
        t := t.(withOracleFailed := t.withOracleFailed + 1);
      } else {
        t := t.(baselineOracleFailed := t.baselineOracleFailed + 1);
      }
    } else if oracleEvaluated {
      tally := tally.(oraclePassed := tally.oraclePassed + 1);
    }
    if invocationFailed {
      t := t.(invocationFailed := t.invocationFailed + 1);
      tally := tally.(invocationFailed := tally.invocationFailed + 1);
    }
    if releaseFailed {
      t := t.(failed := t.failed + 1);
      tally := tally.(releaseFailed := tally.releaseFailed + 1);
    }
    t := t.(executed := t.executed + 1);
    tally := tally.(executed := tally.executed + 1);
    if arm.WithPlugin? { t := t.(withPlugin := tally); } else { t := t.(withoutPlugin := tally); }
    v := Verdict(a.succeeded, invocationFailed, oraclePassed);
  }

  method RunArm(s: Summary, id: string, arm: Arm, e: Execution, oracle: (string, string) -> bool)
    returns (t: Summary, v: Verdict, kept: Artifact)
    ensures kept == Kept(arm, e) && v == Judge(oracle, id, kept, e.text) && t == Count(s, arm, v)
  {
    var invocation := InvocationResult(arm, e);
    kept := Artifact(e.text, e.Succeeded(), invocation);
    t, v := CountRun(s, id, arm, kept, e.text, oracle);
  }

  method RunCase(s: Summary, files: Files, n: nat, id: string, e: Both<Execution>, oracle: (string, string) -> bool)
    returns (t: Summary, left: Files, ghost v: Both<Verdict>)
    ensures v == JudgeBoth(oracle, id, e) && t == CountCase(s, v)
    ensures left == files[(id, WithPlugin) := Kept(WithPlugin, e.with)][
                          (id, WithoutPlugin) := Kept(WithoutPlugin, e.without)]
  {
    var with, without, one, other;
    if n % 2 == 0 {
      t, with, one := RunArm(s, id, WithPlugin, e.with, oracle);
      t, without, other := RunArm(t, id, WithoutPlugin, e.without, oracle);
      left := files[(id, WithPlugin) := one][(id, WithoutPlugin) := other];
    } else {
      t, without, other := RunArm(s, id, WithoutPlugin, e.without, oracle);
      t, with, one := RunArm(t, id, WithPlugin, e.with, oracle);
      left := files[(id, WithoutPlugin) := other][(id, WithPlugin) := one];
      assert left == files[(id, WithPlugin) := one][(id, WithoutPlugin) := other];
      ArmsCommute(s, with, without);
    }
    t := t.(pairs := Compare(t.pairs, with, without));
    v := Both(with, without);
  }

  /** Runs every case in both arms; the arm that goes first alternates. A refused plan runs nothing. */
  method ExecutePlan(cases: seq<string>, runs: seq<Both<Execution>>, oracle: (string, string) -> bool, timeout: int,
                     place: Place)
    returns (r: Result<Summary, Refusal>, files: Files)
    requires |cases| == |runs|
    ensures r == Executed(oracle, cases, runs, timeout, place)
    ensures files == if r.Ok? then FilesAfter(cases, runs, |cases|) else map[]
  {
    files := map[];
    if timeout <= 0 { return Err(BadTimeout), files; }
    if cases == [] { return Err(NoCases), files; }
    if place.NotDirectory? { return Err(OutputNotDirectory), files; }
    if place.InUse? { return Err(OutputInUse), files; }
    var s := EMPTY;
    ghost var judged := Judged(oracle, cases, runs);
    var n := 0;
    while n < |cases|
      invariant n <= |cases| && s == Summarise(judged[..n]) && files == FilesAfter(cases, runs, n)
    {
      ghost var v;
      s, files, v := RunCase(s, files, n, cases[n], runs[n], oracle);
      JudgedAt(oracle, cases, runs, n);
      OneMore(judged, n);
      n := n + 1;
    }
    assert judged[..n] == judged;
    r := Ok(s);
  }

  predicate Complete(cases: seq<string>, files: Files) {
    forall i | 0 <= i < |cases| :: (cases[i], WithPlugin) in files && (cases[i], WithoutPlugin) in files
  }

  function JudgeAgain(oracle: (string, string) -> bool, id: string, one: Artifact, other: Artifact,
                      reread: string -> string): Both<Verdict> {
    Both(Judge(oracle, id, one, reread(one.text)), Judge(oracle, id, other, reread(other.text)))
  }

  /** `reread` is what becomes of a text that is written and read back, which turns every line
      ending into a newline. */
  function Regraded(oracle: (string, string) -> bool, cases: seq<string>, files: Files,
                    reread: string -> string): (judged: seq<Both<Verdict>>)
    requires Complete(cases, files)
    ensures |judged| == |cases|
  {
    if cases == [] then [] else
    var id := cases[|cases| - 1];
    Regraded(oracle, cases[..|cases| - 1], files, reread)
        + [JudgeAgain(oracle, id, files[(id, WithPlugin)], files[(id, WithoutPlugin)], reread)]
  }

  lemma {:induction false} RegradedAt(oracle: (string, string) -> bool, cases: seq<string>, files: Files,
                                      reread: string -> string, i: nat)
    requires Complete(cases, files) && i < |cases|
    ensures Regraded(oracle, cases, files, reread)[i]
         == JudgeAgain(oracle, cases[i], files[(cases[i], WithPlugin)], files[(cases[i], WithoutPlugin)], reread)
  {
    if i < |cases| - 1 { RegradedAt(oracle, cases[..|cases| - 1], files, reread, i); }
  }

  /** The files of a run that is to be regraded. */
  datatype Source = Source(hasSummary: bool, cases: seq<string>, files: Files)

  /** The first case that is not in the corpus any more. */
  function FirstUnknown(cases: seq<string>, corpus: set<string>): (id: Option<string>)
    ensures id.None? <==> forall c | c in cases :: c in corpus
    ensures id.Some? ==> exists i | 0 <= i < |cases| ::
                           cases[i] == id.value && id.value !in corpus && forall c | c in cases[..i] :: c in corpus
  {
    if cases == [] then None
    else
      var rest := cases[..|cases| - 1];
      var id := FirstUnknown(rest, corpus);
      assert cases == rest + [cases[|cases| - 1]];
      assert forall i | 0 <= i <= |rest| :: rest[..i] == cases[..i];
      if id.Some? then id else if cases[|cases| - 1] in corpus then None else Some(cases[|cases| - 1])
  }

  function RegradeRefused(source: Source, corpus: set<string>, place: Place): Option<Refusal> {
    if !source.hasSummary then Some(NoSummary)
    else if source.cases == [] then Some(NoCases)
    else if FirstUnknown(source.cases, corpus).Some? then Some(UnknownCase(FirstUnknown(source.cases, corpus).value))
    else if !Complete(source.cases, source.files) then Some(MissingFiles)
    else PlaceRefused(place)
  }

  lemma {:induction false} UnknownStays(cases: seq<string>, corpus: set<string>, n: nat)
    requires n <= |cases| && FirstUnknown(cases[..n], corpus).Some?
    ensures FirstUnknown(cases, corpus) == FirstUnknown(cases[..n], corpus)
    decreases |cases|
  {
    if n == |cases| {
      assert cases[..n] == cases;
    } else {
      assert cases[..|cases| - 1][..n] == cases[..n];
      UnknownStays(cases[..|cases| - 1], corpus, n);
    }
  }

  lemma CompleteNext(cases: seq<string>, files: Files, n: nat)
    requires n < |cases|
    ensures Complete(cases[..n + 1], files)
        <==> Complete(cases[..n], files) && (cases[n], WithPlugin) in files && (cases[n], WithoutPlugin) in files
  {
    assert forall i | 0 <= i < n :: cases[..n][i] == cases[..n + 1][i];
    assert cases[..n + 1][n] == cases[n];
  }

  method ValidateSource(source: Source, corpus: set<string>) returns (refused: Option<Refusal>)
    ensures refused == RegradeRefused(source, corpus, Free)
  {
    if !source.hasSummary { return Some(NoSummary); }
    var cases, files := source.cases, source.files;
    if cases == [] { return Some(NoCases); }
    var complete, n := true, 0;
    while n < |cases|
      invariant n <= |cases| && FirstUnknown(cases[..n], corpus).None? && (complete <==> Complete(cases[..n], files))
    {
      assert cases[..n + 1][..n] == cases[..n];
      if cases[n] !in corpus {
        UnknownStays(cases, corpus, n + 1);
        return Some(UnknownCase(cases[n]));
      }
      CompleteNext(cases, files, n);
      complete := complete && (cases[n], WithPlugin) in files && (cases[n], WithoutPlugin) in files;
      n := n + 1;
    }
    assert cases[..n] == cases;
    refused := if complete then None else Some(MissingFiles);
  }

  method RegradeCase(s: Summary, id: string, one: Artifact, other: Artifact, oracle: (string, string) -> bool,
                     reread: string -> string)
    returns (t: Summary)
    ensures t == CountCase(s, JudgeAgain(oracle, id, one, other, reread))
  {
    var with, without;
    t, with := CountRun(s, id, WithPlugin, one, reread(one.text), oracle);
    t, without := CountRun(t, id, WithoutPlugin, other, reread(other.text), oracle);
    t := t.(pairs := Compare(t.pairs, with, without));
  }

  /** Counts again from the files, or refuses. */
  method RegradeRun(source: Source, corpus: set<string>, place: Place, oracle: (string, string) -> bool,
                    reread: string -> string)
    returns (r: Result<Summary, Refusal>)
    ensures r.Ok? <==> RegradeRefused(source, corpus, place).None?
    ensures r.Err? ==> Some(r.error) == RegradeRefused(source, corpus, place)
    ensures r.Ok? ==> r.value == Summarise(Regraded(oracle, source.cases, source.files, reread))
  {
    var refused := ValidateSource(source, corpus);
    if refused.Some? { return Err(refused.value); }
    if place.NotDirectory? { return Err(OutputNotDirectory); }
    if place.InUse? { return Err(OutputInUse); }
    var cases, files := source.cases, source.files;
    var s := EMPTY;
    ghost var judged := Regraded(oracle, cases, files, reread);
    var n := 0;
    while n < |cases|
      invariant n <= |cases| && s == Summarise(judged[..n])
    {
      s := RegradeCase(s, cases[n], files[(cases[n], WithPlugin)], files[(cases[n], WithoutPlugin)], oracle, reread);
      RegradedAt(oracle, cases, files, reread, n);
      OneMore(judged, n);
      n := n + 1;
    }
    assert judged[..n] == judged;
    r := Ok(s);
  }

  // ---- Regrading a run ----

  ghost predicate Insensitive(oracle: (string, string) -> bool, id: string, reread: string -> string) {
    forall text :: oracle(id, reread(text)) == oracle(id, text)
  }

  /** The oracle does not look at how lines end, in any of the cases. */
  ghost predicate IgnoresRereading(cases: seq<string>, oracle: (string, string) -> bool, reread: string -> string) {
    forall i | 0 <= i < |cases| :: Insensitive(oracle, cases[i], reread)
  }

  function LastOf(cases: seq<string>, i: nat): (j: nat)
    requires i < |cases|
    ensures j < |cases| && cases[j] == cases[i]
  {
    assert cases[i] in cases[..|cases|];
    Last(cases, |cases|, cases[i])
  }

  /** For every case, the runs of its last occurrence. */
  function LastRuns(cases: seq<string>, runs: seq<Both<Execution>>, n: nat): (last: seq<Both<Execution>>)
    requires n <= |cases| == |runs|
    ensures |last| == n && forall i | 0 <= i < n :: last[i] == runs[LastOf(cases, i)]
  {
    if n == 0 then [] else LastRuns(cases, runs, n - 1) + [runs[LastOf(cases, n - 1)]]
  }

  function JudgeKept(oracle: (string, string) -> bool, id: string, e: Both<Execution>,
                     reread: string -> string): Both<Verdict> {
    JudgeAgain(oracle, id, Kept(WithPlugin, e.with), Kept(WithoutPlugin, e.without), reread)
  }

  lemma AllKept(cases: seq<string>, runs: seq<Both<Execution>>)
    requires |cases| == |runs|
    ensures Complete(cases, FilesAfter(cases, runs, |cases|))
  {
    var files := FilesAfter(cases, runs, |cases|);
    forall i | 0 <= i < |cases| ensures (cases[i], WithPlugin) in files && (cases[i], WithoutPlugin) in files {
      assert cases[i] in cases[..|cases|];
      FilesAre(cases, runs, |cases|, cases[i]);
    }
  }

  /** What regrading the files of a run judges: for every case, its last run, with the texts reread. */
  lemma RegradedLast(cases: seq<string>, runs: seq<Both<Execution>>, oracle: (string, string) -> bool,
                     reread: string -> string, i: nat)
    requires |cases| == |runs| && i < |cases|
    ensures var files := FilesAfter(cases, runs, |cases|);
      && Complete(cases, files)
      && Regraded(oracle, cases, files, reread)[i] == JudgeKept(oracle, cases[i], runs[LastOf(cases, i)], reread)
  {
    AllKept(cases, runs);
    assert cases[i] in cases[..|cases|];
    FilesAre(cases, runs, |cases|, cases[i]);
    RegradedAt(oracle, cases, FilesAfter(cases, runs, |cases|), reread, i);
  }

  lemma SameJudgement(oracle: (string, string) -> bool, id: string, e: Both<Execution>, reread: string -> string)
    requires Insensitive(oracle, id, reread)
    ensures JudgeKept(oracle, id, e, reread) == JudgeBoth(oracle, id, e)
  {}

  lemma CountsLast(cases: seq<string>, runs: seq<Both<Execution>>, oracle: (string, string) -> bool,
                   reread: string -> string, i: nat)
    requires |cases| == |runs| && IgnoresRereading(cases, oracle, reread) && i < |cases|
    ensures var files := FilesAfter(cases, runs, |cases|);
      && Complete(cases, files)
      && Regraded(oracle, cases, files, reread)[i] == Judged(oracle, cases, LastRuns(cases, runs, |cases|))[i]
  {
    AllKept(cases, runs);
    var last := LastRuns(cases, runs, |cases|);
    calc {
      Regraded(oracle, cases, FilesAfter(cases, runs, |cases|), reread)[i];
      { RegradedLast(cases, runs, oracle, reread, i); }
      JudgeKept(oracle, cases[i], last[i], reread);
      { SameJudgement(oracle, cases[i], last[i], reread); }
      JudgeBoth(oracle, cases[i], last[i]);
      { JudgedAt(oracle, cases, last, i); }
      Judged(oracle, cases, last)[i];
    }
  }

  /** Regrading the files of any run counts, for every case, its last run. */
  lemma RegradeCountsLast(cases: seq<string>, runs: seq<Both<Execution>>, oracle: (string, string) -> bool,
                          reread: string -> string)
    requires |cases| == |runs| && IgnoresRereading(cases, oracle, reread)
    ensures var files := FilesAfter(cases, runs, |cases|);
      && Complete(cases, files)
      && Regraded(oracle, cases, files, reread) == Judged(oracle, cases, LastRuns(cases, runs, |cases|))
  {
    AllKept(cases, runs);
    var last := LastRuns(cases, runs, |cases|);
    var again, judged := Regraded(oracle, cases, FilesAfter(cases, runs, |cases|), reread), Judged(oracle, cases, last);
    forall i | 0 <= i < |cases| ensures again[i] == judged[i] { CountsLast(cases, runs, oracle, reread, i); }
  }

  // ---- Exactly when regrading agrees ----

  ghost predicate NoRepeat(cases: seq<string>) { forall i, j | 0 <= i < j < |cases| :: cases[i] != cases[j] }

  /** Regrading the files of these runs gives the summary of the run. */
  ghost predicate Agrees(cases: seq<string>, runs: seq<Both<Execution>>, oracle: (string, string) -> bool,
                         reread: string -> string)
    requires |cases| == |runs|
  {
    var files := FilesAfter(cases, runs, |cases|);
    Complete(cases, files) && Summarise(Regraded(oracle, cases, files, reread))
        == Summarise(Judged(oracle, cases, runs))
  }

  lemma RegradeAgrees(cases: seq<string>, runs: seq<Both<Execution>>, oracle: (string, string) -> bool,
                      reread: string -> string)
    requires |cases| == |runs| && IgnoresRereading(cases, oracle, reread) && NoRepeat(cases)
    ensures Agrees(cases, runs, oracle, reread)
  {
    RegradeCountsLast(cases, runs, oracle, reread);
    forall i | 0 <= i < |cases| ensures LastRuns(cases, runs, |cases|)[i] == runs[i] { assert LastOf(cases, i) == i; }
    assert LastRuns(cases, runs, |cases|) == runs;
  }

  const RAN := Execution(0, true, false, "", false, false)
  const BROKE := Execution(1, true, false, "", false, false)

  function Constant(n: nat, e: Both<Execution>): (runs: seq<Both<Execution>>)
    ensures |runs| == n && forall i | 0 <= i < n :: runs[i] == e
  {
    seq(n, i requires 0 <= i < n => e)
  }

  lemma {:induction false} NothingFailedMeans(judged: seq<Both<Verdict>>)
    ensures Summarise(judged).executionFailed == 0
        <==> forall v | v in judged :: v.with.succeeded && v.without.succeeded
    ensures Summarise(judged).oracleFailed == 0
        <==> forall v | v in judged :: !v.with.OracleFailed() && !v.without.OracleFailed()
  {
    if judged != [] {
      var front, v := judged[..|judged| - 1], judged[|judged| - 1];
      assert judged == front + [v];
      NothingFailedMeans(front);
    }
  }

  lemma Flags(oracle: (string, string) -> bool, id: string, e: Both<Execution>, reread: string -> string)
    ensures var v := JudgeBoth(oracle, id, e);
      && v.with.succeeded == e.with.Succeeded() && v.without.succeeded == e.without.Succeeded()
      && (v.with.OracleFailed() <==> e.with.Succeeded() && !oracle(id, e.with.text))
      && (v.without.OracleFailed() <==> e.without.Succeeded() && !oracle(id, e.without.text))
    ensures var v := JudgeKept(oracle, id, e, reread);
      && v.with.succeeded == e.with.Succeeded() && v.without.succeeded == e.without.Succeeded()
      && (v.with.OracleFailed() <==> e.with.Succeeded() && !oracle(id, reread(e.with.text)))
      && (v.without.OracleFailed() <==> e.without.Succeeded() && !oracle(id, reread(e.without.text)))
  {}

  lemma CountsFailure(cases: seq<string>, runs: seq<Both<Execution>>, i: nat, oracle: (string, string) -> bool)
    requires i < |cases| == |runs| && !runs[i].with.Succeeded()
    ensures Summarise(Judged(oracle, cases, runs)).executionFailed > 0
  {
    var judged := Judged(oracle, cases, runs);
    JudgedAt(oracle, cases, runs, i);
    Flags(oracle, cases[i], runs[i], text => text);
    NothingFailedMeans(judged);
    assert judged[i] in judged;
  }

  lemma {:induction false} LastIsLast(cases: seq<string>, n: nat, id: string, j: nat)
    requires n <= |cases| && id in cases[..n]
    ensures j < n && cases[j] == id ==> Last(cases, n, id) >= j
  {
    if cases[n - 1] != id {
      assert cases[..n] == cases[..n - 1] + [cases[n - 1]];
      LastIsLast(cases, n - 1, id, j);
    }
  }

  lemma RegradedRan(cases: seq<string>, runs: seq<Both<Execution>>, i: nat, j: nat, k: nat,
                    oracle: (string, string) -> bool, reread: string -> string)
    requires i < j < |cases| == |runs| && cases[i] == cases[j] && k < |cases|
    requires forall m | 0 <= m < |runs| && m != i :: runs[m] == Both(RAN, RAN)
    ensures var files := FilesAfter(cases, runs, |cases|);
      Complete(cases, files) &&
      var v := Regraded(oracle, cases, files, reread)[k]; v.with.succeeded && v.without.succeeded
  {
    RegradedLast(cases, runs, oracle, reread, k);
    assert cases[k] in cases[..|cases|];
    LastIsLast(cases, |cases|, cases[k], j);
    Flags(oracle, cases[k], runs[LastOf(cases, k)], reread);
  }

  lemma CountsNoFailure(cases: seq<string>, runs: seq<Both<Execution>>, i: nat, j: nat,
                        oracle: (string, string) -> bool, reread: string -> string)
    requires i < j < |cases| == |runs| && cases[i] == cases[j]
    requires forall m | 0 <= m < |runs| && m != i :: runs[m] == Both(RAN, RAN)
    ensures var files := FilesAfter(cases, runs, |cases|);
      Complete(cases, files) && Summarise(Regraded(oracle, cases, files, reread)).executionFailed == 0
  {
    AllKept(cases, runs);
    var again := Regraded(oracle, cases, FilesAfter(cases, runs, |cases|), reread);
    forall k | 0 <= k < |cases| ensures again[k].with.succeeded && again[k].without.succeeded {
      RegradedRan(cases, runs, i, j, k, oracle, reread);
    }
    NothingFailedMeans(again);
  }

  lemma FailureForgotten(cases: seq<string>, runs: seq<Both<Execution>>, i: nat, j: nat,
                         oracle: (string, string) -> bool, reread: string -> string)
    requires i < j < |cases| == |runs| && cases[i] == cases[j] && !runs[i].with.Succeeded()
    requires forall m | 0 <= m < |runs| && m != i :: runs[m] == Both(RAN, RAN)
    ensures !Agrees(cases, runs, oracle, reread)
  {
    CountsFailure(cases, runs, i, oracle);
    CountsNoFailure(cases, runs, i, j, oracle, reread);
  }

  /** All runs succeed except those of the earlier occurrence: the run counts a failure, regrading none. */
  lemma RepeatedCaseDiffers(cases: seq<string>, i: nat, j: nat, oracle: (string, string) -> bool,
                            reread: string -> string)
    returns (runs: seq<Both<Execution>>)
    requires i < j < |cases| && cases[i] == cases[j]
    ensures |runs| == |cases| && !Agrees(cases, runs, oracle, reread)
  {
    runs := Constant(|cases|, Both(RAN, RAN))[i := Both(BROKE, BROKE)];
    assert !runs[i].with.Succeeded();
    FailureForgotten(cases, runs, i, j, oracle, reread);
  }

  lemma OneRan(cases: seq<string>, runs: seq<Both<Execution>>, i: nat, k: nat, oracle: (string, string) -> bool,
               reread: string -> string)
    requires NoRepeat(cases) && i < |cases| == |runs| && k < |cases|
    requires runs[i].with.Succeeded() && !runs[i].without.Succeeded()
    requires forall m | 0 <= m < |runs| && m != i :: runs[m] == Both(BROKE, BROKE)
    ensures var v := Judged(oracle, cases, runs)[k];
      !v.without.OracleFailed() && (v.with.OracleFailed() <==> k == i && !oracle(cases[i], runs[i].with.text))
    ensures var files := FilesAfter(cases, runs, |cases|);
      Complete(cases, files) &&
      var v := Regraded(oracle, cases, files, reread)[k];
      !v.without.OracleFailed() && (v.with.OracleFailed() <==> k == i && !oracle(cases[i], reread(runs[i].with.text)))
  {
    JudgedAt(oracle, cases, runs, k);
    RegradedLast(cases, runs, oracle, reread, k);
    assert LastOf(cases, k) == k;
    Flags(oracle, cases[k], runs[k], reread);
  }

  /** Only one run executes, with a text that the oracle judges differently once it is reread. */
  lemma LineEndingsDiffer(cases: seq<string>, i: nat, text: string, oracle: (string, string) -> bool,
                          reread: string -> string)
    returns (runs: seq<Both<Execution>>)
    requires NoRepeat(cases) && i < |cases| && oracle(cases[i], reread(text)) != oracle(cases[i], text)
    ensures |runs| == |cases| && !Agrees(cases, runs, oracle, reread)
  {
    runs := Constant(|cases|, Both(BROKE, BROKE))[i := Both(RAN.(text := text), BROKE)];
    AllKept(cases, runs);
    var judged, again := Judged(oracle, cases, runs), Regraded(oracle, cases, FilesAfter(cases, runs, |cases|), reread);
    forall k | 0 <= k < |cases|
      ensures !judged[k].without.OracleFailed()
          && (judged[k].with.OracleFailed() <==> k == i && !oracle(cases[i], text))
      ensures !again[k].without.OracleFailed()
          && (again[k].with.OracleFailed() <==> k == i && !oracle(cases[i], reread(text)))
    {
      OneRan(cases, runs, i, k, oracle, reread);
    }
    NothingFailedMeans(judged);
    NothingFailedMeans(again);
    assert judged[i] in judged && again[i] in again;
  }

  /** For every plan and oracle: regrading agrees with the run, however the runs turn out, exactly if no
      case comes twice and the oracle does not look at how lines end. */
  lemma RegradeAgreesExactly(cases: seq<string>, oracle: (string, string) -> bool, reread: string -> string)
    ensures (forall runs: seq<Both<Execution>> | |runs| == |cases| :: Agrees(cases, runs, oracle, reread))
      <==> NoRepeat(cases) && IgnoresRereading(cases, oracle, reread)
  {
    if NoRepeat(cases) && IgnoresRereading(cases, oracle, reread) {
      forall runs: seq<Both<Execution>> | |runs| == |cases| ensures Agrees(cases, runs, oracle, reread) {
        RegradeAgrees(cases, runs, oracle, reread);
      }
    }
    if i, j :| 0 <= i < j < |cases| && cases[i] == cases[j] {
      var runs := RepeatedCaseDiffers(cases, i, j, oracle, reread);
    }
    if NoRepeat(cases) && !IgnoresRereading(cases, oracle, reread) {
      var i :| 0 <= i < |cases| && !Insensitive(oracle, cases[i], reread);
      var text :| oracle(cases[i], reread(text)) != oracle(cases[i], text);
      var runs := LineEndingsDiffer(cases, i, text, oracle, reread);
    }
  }
}

/** The whole evaluation: the project policy, the billing export and every resource, and what a
    second evaluation sees once all proposed bindings are applied. */
module IamEvaluation {
  import opened Prelude
  import opened IamReconciler

  /** A resource of the contract. An optional one without a policy is left out. */
  datatype Resource = Resource(expected: Grants, screen: string -> set<Blocker>, optional: bool)

  datatype Contract = Contract(project: Grants, managed: set<string>, screens: Screens, resources: seq<Resource>)

  /** What is observed: the project's grants, those of each resource that has a policy, and whether the
      forbidden member reads the raw billing export. */
  datatype Observed = Observed(project: Grants, resources: seq<Option<Grants>>, rawBilling: bool)

  /** Where a blocker or an action belongs. */
  datatype Place = Project | Billing | OfResource(resource: nat)

  /** Sorting in any section may raise; then there is no report. */
  datatype Report = NoReport | Report(blockers: set<(Place, Blocker)>, actions: set<(Place, Action)>)
  {
    predicate Ready() { Report? && blockers == {} }
    predicate Settled() { this == Report({}, {}) }
  }

  predicate Fits(c: Contract, o: Observed) { |c.resources| == |o.resources| }

  predicate Skipped(c: Contract, o: Observed, i: nat)
    requires Fits(c, o) && i < |c.resources|
  {
    c.resources[i].optional && o.resources[i].None?
  }

  function GrantsOf(o: Observed, i: nat): Grants
    requires i < |o.resources|
  {
    o.resources[i].GetOr(map[])
  }

  function ResourceVerdict(c: Contract, o: Observed, i: nat): Verdict
    requires Fits(c, o) && i < |c.resources|
  {
    if Skipped(c, o, i) then Verdict({}, {})
    else EvaluateSection(GrantsOf(o, i), c.resources[i].expected, c.resources[i].screen)
  }

  function ProjectVerdict(c: Contract, o: Observed): Verdict {
    EvaluateProject(o.project, c.project, c.managed, c.screens)
  }

  function Blocked(place: Place, v: Verdict): (r: set<(Place, Blocker)>)
    ensures r == {} <==> v.Crashed? || v.blockers == {}
  {
    if v.Crashed? then {} else
    var r := set b | b in v.blockers :: (place, b);
    assert forall b | b in v.blockers :: (place, b) in r;
    r
  }

  function Proposed(place: Place, v: Verdict): (r: set<(Place, Action)>)
    ensures r == {} <==> v.Crashed? || v.actions == {}
    ensures forall p, a :: (p, a) in r <==> p == place && v.Verdict? && a in v.actions
  {
    if v.Crashed? then {} else
    var r := set a | a in v.actions :: (place, a);
    assert forall a | a in v.actions :: (place, a) in r;
    r
  }

  function Billed(rawBilling: bool): set<(Place, Blocker)> {
    if rawBilling then {(Billing, RawBillingAccess)} else {}
  }

  // ---- Putting verdicts together ----

  function ResourceBlockers(vs: seq<Verdict>): set<(Place, Blocker)> {
    if vs == [] then {} else
    ResourceBlockers(vs[..|vs| - 1]) + Blocked(OfResource(|vs| - 1), vs[|vs| - 1])
  }

  function ResourceActions(vs: seq<Verdict>): set<(Place, Action)> {
    if vs == [] then {} else
    ResourceActions(vs[..|vs| - 1]) + Proposed(OfResource(|vs| - 1), vs[|vs| - 1])
  }

  predicate SomeCrash(vs: seq<Verdict>) { exists i | 0 <= i < |vs| :: vs[i].Crashed? }

  function Combine(project: Verdict, rawBilling: bool, vs: seq<Verdict>): Report {
    if project.Crashed? || SomeCrash(vs) then NoReport
    else Report(Blocked(Project, project) + Billed(rawBilling) + ResourceBlockers(vs),
                Proposed(Project, project) + ResourceActions(vs))
  }

  lemma {:induction false} ResourcesEmpty(vs: seq<Verdict>)
    requires !SomeCrash(vs)
    ensures ResourceBlockers(vs) == {} <==> forall i | 0 <= i < |vs| :: vs[i].blockers == {}
    ensures ResourceActions(vs) == {} <==> forall i | 0 <= i < |vs| :: vs[i].actions == {}
  {
    if vs != [] {
      var n := |vs| - 1;
      assert forall i | 0 <= i < n :: vs[..n][i] == vs[i];
      ResourcesEmpty(vs[..n]);
    }
  }

  /** A report is ready exactly if every section is and nobody reads the billing export, and settled exactly
      if every section is. */
  lemma ReadyIff(project: Verdict, rawBilling: bool, vs: seq<Verdict>)
    ensures Combine(project, rawBilling, vs).Ready() <==>
      !rawBilling && project.Ready() && forall i | 0 <= i < |vs| :: vs[i].Ready()
    ensures Combine(project, rawBilling, vs).Settled() <==>
      !rawBilling && project.Settled() && forall i | 0 <= i < |vs| :: vs[i].Settled()
  {
    if !SomeCrash(vs) { ResourcesEmpty(vs); }
  }

  lemma {:induction false} ResourceParts(vs: seq<Verdict>, p: Place, a: Action)
    ensures (p, a) in ResourceActions(vs) <==>
      p.OfResource? && p.resource < |vs| && vs[p.resource].Verdict? && a in vs[p.resource].actions
  {
    if vs != [] { ResourceParts(vs[..|vs| - 1], p, a); }
  }

  function ActionsAt(place: Place, actions: set<(Place, Action)>): (r: set<Action>)
    ensures forall a :: a in r <==> (place, a) in actions
  {
    set a | a in actions && a.0 == place :: a.1
  }

  lemma ActionsApart(project: Verdict, rawBilling: bool, vs: seq<Verdict>)
    requires Combine(project, rawBilling, vs).Report?
    ensures ActionsAt(Project, Combine(project, rawBilling, vs).actions) == project.actions
    ensures forall i: nat | i < |vs| ::
      ActionsAt(OfResource(i), Combine(project, rawBilling, vs).actions) == vs[i].actions
  {
    var all := Combine(project, rawBilling, vs).actions;
    forall p, a ensures (p, a) in ResourceActions(vs) <==>
        p.OfResource? && p.resource < |vs| && vs[p.resource].Verdict? && a in vs[p.resource].actions
    {
      ResourceParts(vs, p, a);
    }
    forall i: nat | i < |vs| ensures ActionsAt(OfResource(i), all) == vs[i].actions {
      assert vs[i].Verdict?;
    }
  }

  lemma BlockedIff(place: Place, v: Verdict, p: Place, b: Blocker)
    ensures (p, b) in Blocked(place, v) <==> p == place && v.Verdict? && b in v.blockers
  {}

  lemma {:induction false} ResourceBlockersAre(vs: seq<Verdict>, p: Place, b: Blocker)
    ensures (p, b) in ResourceBlockers(vs) <==>
      p.OfResource? && p.resource < |vs| && vs[p.resource].Verdict? && b in vs[p.resource].blockers
  {
    if vs != [] {
      var n := |vs| - 1;
      ResourceBlockersAre(vs[..n], p, b);
      BlockedIff(OfResource(n), vs[n], p, b);
    }
  }

  /** Every blocker of every section is in the report, under its section; there are no others but the one for the
      billing export. */
  lemma BlockersApart(project: Verdict, rawBilling: bool, vs: seq<Verdict>, p: Place, b: Blocker)
    requires Combine(project, rawBilling, vs).Report?
    ensures (p, b) in Combine(project, rawBilling, vs).blockers <==>
      match p
      case Project => b in project.blockers
      case Billing => rawBilling && b == RawBillingAccess
      case OfResource(i) => i < |vs| && vs[i].Verdict? && b in vs[i].blockers
  {
    ResourceBlockersAre(vs, p, b);
    BlockedIff(Project, project, p, b);
  }

  // ---- The program ----

  function Verdicts(c: Contract, o: Observed): seq<Verdict>
    requires Fits(c, o)
  {
    seq(|c.resources|, i requires 0 <= i < |c.resources| => ResourceVerdict(c, o, i))
  }

  function EvaluateAll(c: Contract, o: Observed): Report
    requires Fits(c, o)
  {
    Combine(ProjectVerdict(c, o), o.rawBilling, Verdicts(c, o))
  }

  method EvaluateResource(c: Contract, o: Observed, i: nat) returns (v: Verdict)
    requires Fits(c, o) && i < |c.resources|
    ensures v == Verdicts(c, o)[i]
  {
    if c.resources[i].optional && o.resources[i].None? { return Verdict({}, {}); }
    v := ReportSection(GrantsOf(o, i), c.resources[i].expected, c.resources[i].screen);
  }

  lemma NextVerdict(vs: seq<Verdict>, n: nat)
    requires n < |vs|
    ensures ResourceBlockers(vs[..n + 1]) == ResourceBlockers(vs[..n]) + Blocked(OfResource(n), vs[n])
    ensures ResourceActions(vs[..n + 1]) == ResourceActions(vs[..n]) + Proposed(OfResource(n), vs[n])
    ensures SomeCrash(vs[..n + 1]) <==> SomeCrash(vs[..n]) || vs[n].Crashed?
    ensures vs[n].Crashed? ==> SomeCrash(vs)
  {
    var more := vs[..n + 1];
    assert more[..n] == vs[..n] && more[n] == vs[n];
    assert forall i | 0 <= i < n :: more[i] == vs[..n][i];
  }

  /** One resource after the other; the first that cannot be sorted raises. */
  method EvaluateResources(c: Contract, o: Observed)
    returns (crashed: bool, blockers: set<(Place, Blocker)>, actions: set<(Place, Action)>)
    requires Fits(c, o)
    ensures crashed <==> SomeCrash(Verdicts(c, o))
    ensures !crashed ==> blockers == ResourceBlockers(Verdicts(c, o)) && actions == ResourceActions(Verdicts(c, o))
  {
    blockers, actions := {}, {};
    ghost var vs := Verdicts(c, o);
    for n := 0 to |c.resources|
      invariant !SomeCrash(vs[..n])
      invariant blockers == ResourceBlockers(vs[..n]) && actions == ResourceActions(vs[..n])
    {
      var v := EvaluateResource(c, o, n);
      NextVerdict(vs, n);
      if v.Crashed? { return true, {}, {}; }
      blockers, actions := blockers + Blocked(OfResource(n), v), actions + Proposed(OfResource(n), v);
    }
    assert vs[..|c.resources|] == vs;
    crashed := false;
  }

  method Evaluate(c: Contract, o: Observed) returns (r: Report)
    requires Fits(c, o)
    ensures r == EvaluateAll(c, o)
  {
    var project := ReportProject(o.project, c.project, c.managed, c.screens);
    if project.Crashed? { return NoReport; }
    var crashed, blockers, actions := EvaluateResources(c, o);
    if crashed { return NoReport; }
    r := Report(Blocked(Project, project) + Billed(o.rawBilling) + blockers, Proposed(Project, project) + actions);
  }

  // ---- Applying everything that is proposed ----

  /** A resource without a policy gets one with its first binding. */
  function ApplyResource(g: Option<Grants>, actions: set<Action>): Option<Grants> {
    if g.None? && actions == {} then None else Some(ApplyAll(g.GetOr(map[]), actions))
  }

  function ApplyReport(o: Observed, actions: set<(Place, Action)>): Observed {
    Observed(ApplyAll(o.project, ActionsAt(Project, actions)),
             seq(|o.resources|, i requires 0 <= i < |o.resources| =>
               ApplyResource(o.resources[i], ActionsAt(OfResource(i), actions))),
             o.rawBilling)
  }

  lemma ApplyNothing(g: Grants)
    ensures ApplyAll(g, {}) == g
  {
    assert ApplyAll(g, {}).Keys == g.Keys;
    forall k | k in g ensures ApplyAll(g, {})[k] == g[k] {
      forall m ensures m in ApplyAll(g, {})[k] <==> m in g[k] { assert Has(ApplyAll(g, {}), k, m) <==> Has(g, k, m); }
    }
  }

  /** The resource is left out, or has the grants of the contract and a settled verdict. */
  ghost predicate ResourceDone(c: Contract, o: Observed, i: nat)
    requires Fits(c, o) && i < |c.resources|
  {
    Skipped(c, o, i) || (GrantsOf(o, i) == c.resources[i].expected && ResourceVerdict(c, o, i).Settled())
  }

  /** The resource is left out, or its missing roles can be bound. */
  ghost predicate ResourceFine(c: Contract, o: Observed, i: nat)
    requires Fits(c, o) && i < |c.resources|
  {
    Skipped(c, o, i) || Bindable(GrantsOf(o, i), c.resources[i].expected, c.resources[i].screen)
  }

  /** Everything has the grants of the contract, and the report has nothing blocked and nothing to do. */
  ghost predicate Arrived(c: Contract, o: Observed)
    requires Fits(c, o)
  {
    && Matches(o.project, c.project) && EvaluateAll(c, o).Settled()
    && forall i: nat | i < |c.resources| :: ResourceDone(c, o, i)
  }

  /** No key of the project contract has a foreign member. */
  ghost predicate NoForeign(c: Contract, o: Observed) {
    forall k, m | k in c.project && Has(o.project, k, m) :: m in c.project[k]
  }

  lemma ArrivedIff(c: Contract, o: Observed)
    requires Fits(c, o)
    ensures Arrived(c, o) <==>
      && !o.rawBilling && Matches(o.project, c.project) && ProjectVerdict(c, o).Settled()
      && forall i: nat | i < |c.resources| :: ResourceDone(c, o, i)
  {
    ReadyIff(ProjectVerdict(c, o), o.rawBilling, Verdicts(c, o));
    assert forall i: nat | i < |c.resources| && ResourceDone(c, o, i) :: Verdicts(c, o)[i].Settled();
  }

  lemma AppliedGrants(g: Option<Grants>, actions: set<Action>)
    ensures ApplyResource(g, actions).None? <==> g.None? && actions == {}
    ensures ApplyResource(g, actions).GetOr(map[]) == ApplyAll(g.GetOr(map[]), actions)
  {
    ApplyNothing(map[]);
  }

  lemma SectionArrives(g: Grants, after: Grants, r: Resource)
    requires EvaluateSection(g, r.expected, r.screen).Ready()
    requires after == ApplyAll(g, EvaluateSection(g, r.expected, r.screen).actions)
    ensures after == r.expected && EvaluateSection(after, r.expected, r.screen).Settled()
        <==> Bindable(g, r.expected, r.screen)
  {
    SectionConverges(g, r.expected, r.screen);
  }

  lemma ResourceConverges(c: Contract, o: Observed, after: Observed, i: nat)
    requires Fits(c, o) && Fits(c, after) && i < |c.resources| && ResourceVerdict(c, o, i).Ready()
    requires after.resources[i] == ApplyResource(o.resources[i], ResourceVerdict(c, o, i).actions)
    ensures ResourceDone(c, after, i) <==> ResourceFine(c, o, i)
  {
    AppliedGrants(o.resources[i], ResourceVerdict(c, o, i).actions);
    if !Skipped(c, o, i) { SectionArrives(GrantsOf(o, i), GrantsOf(after, i), c.resources[i]); }
  }

  lemma ProjectDone(c: Contract, o: Observed, after: Observed)
    requires ProjectContract(c.project, c.managed, c.screens) && ProjectVerdict(c, o).Ready()
    requires after.project == ApplyAll(o.project, ProjectVerdict(c, o).actions)
    ensures Matches(after.project, c.project) && ProjectVerdict(c, after).Settled() <==> NoForeign(c, o)
  {
    ProjectConverges(o.project, c.project, c.managed, c.screens);
  }

  /** All sections together: after a ready report, applying all that it proposes gives the contract's grants
      everywhere and a settled second report, exactly if no key of the project contract has a foreign member
      and the missing roles of every resource can be bound. */
  lemma Converges(c: Contract, o: Observed)
    requires Fits(c, o) && ProjectContract(c.project, c.managed, c.screens) && EvaluateAll(c, o).Ready()
    ensures var after := ApplyReport(o, EvaluateAll(c, o).actions);
      Fits(c, after) &&
      (Arrived(c, after) <==> NoForeign(c, o) && forall i: nat | i < |c.resources| :: ResourceFine(c, o, i))
  {
    var after := ApplyReport(o, EvaluateAll(c, o).actions);
    var project, vs := ProjectVerdict(c, o), Verdicts(c, o);
    ReadyIff(project, o.rawBilling, vs);
    ActionsApart(project, o.rawBilling, vs);
    ArrivedIff(c, after);
    ProjectDone(c, o, after);
    forall i: nat | i < |c.resources| ensures ResourceDone(c, after, i) <==> ResourceFine(c, o, i) {
      assert vs[i].Ready();
      ResourceConverges(c, o, after, i);
    }
  }

  // ---- Who is always reported ----

  /** If the project grants anything to everybody, or to an account of another project, or a role to a workload
      account, then whatever else is observed the report is not ready: it names the reason, or there is none. */
  lemma ProjectReported(c: Contract, o: Observed, k: Key, m: string)
    requires Fits(c, o) && Has(o.project, k, m)
    ensures var r := EvaluateAll(c, o);
      r.Report? ==>
        && (m == "allUsers" || m == "allAuthenticatedUsers" ==> (Project, PublicMember) in r.blockers)
        && (c.screens.crossProject(m) ==> (Project, CrossProject) in r.blockers)
        && (c.screens.workload(m) ==> (Project, WorkloadRole(m, k.role)) in r.blockers)
        && (k.role in c.screens.forbidden
            && (k.role == "roles/run.invoker" || k.role == "roles/iap.httpsResourceAccessor")
            ==> (Project, ForbiddenRole(k.role)) in r.blockers)
  {
    if EvaluateAll(c, o).Report? {
      var project, vs := ProjectVerdict(c, o), Verdicts(c, o);
      BlockersApart(project, o.rawBilling, vs, Project, PublicMember);
      BlockersApart(project, o.rawBilling, vs, Project, CrossProject);
      BlockersApart(project, o.rawBilling, vs, Project, WorkloadRole(m, k.role));
      BlockersApart(project, o.rawBilling, vs, Project, ForbiddenRole(k.role));
      PublicBlocked(o.project, c.project, c.managed, c.screens);
      CrossProjectBlocked(o.project, c.project, c.managed, c.screens);
      WorkloadBlocked(o.project, c.project, c.managed, c.screens, m, k.role);
      ForbiddenBlocked(o.project, c.project, c.managed, c.screens, k.role);
    }
  }

  /** So does a resource whose screen says something of a member. */
  lemma ResourceReported(c: Contract, o: Observed, i: nat, k: Key, m: string, b: Blocker)
    requires Fits(c, o) && i < |c.resources| && Has(GrantsOf(o, i), k, m) && b in c.resources[i].screen(m)
    requires EvaluateAll(c, o).Report?
    ensures (OfResource(i), b) in EvaluateAll(c, o).blockers
  {
    assert !Skipped(c, o, i);
    assert Verdicts(c, o)[i].Verdict?;
    SectionMeans(GrantsOf(o, i), c.resources[i].expected, c.resources[i].screen, b);
    BlockersApart(ProjectVerdict(c, o), o.rawBilling, Verdicts(c, o), OfResource(i), b);
  }

  /** An optional resource without a policy is left out: it adds nothing to the report. Any other resource without
      a policy is evaluated as one without grants. */
  lemma MissingPolicy(c: Contract, o: Observed, i: nat)
    requires Fits(c, o) && i < |c.resources| && o.resources[i].None?
    ensures c.resources[i].optional ==> ResourceVerdict(c, o, i) == Verdict({}, {})
    ensures !c.resources[i].optional ==>
      ResourceVerdict(c, o, i) == EvaluateSection(map[], c.resources[i].expected, c.resources[i].screen)
  {}
}

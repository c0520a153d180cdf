/** The repository's own contract: it is of the kind that the evaluation is proved for, and every role
    it gives on a resource can be bound. */
module IamContract {
  import opened Prelude
  import opened IamReconciler
  import opened IamEvaluation

  /** Members are service accounts of the project, and one operator. */
  datatype Who = Account(name: string) | Operator

  /** A condition on resource names of the project; all alternatives begin, or are, such a name. */
  datatype Condition = Condition(title: string, guard: string, exact: bool, names: seq<string>)

  datatype Entry = Entry(role: string, members: seq<Who>, condition: Option<Condition>)

  /** The project, its operator, and the service agents of other projects that are allowed. */
  datatype Setting = Setting(project: string, operator: string, allowed: string -> bool)

  const REGION := "locations/asia-northeast3/"

  const MANAGED: set<string> := {"mim-control-plane", "mim-app-gateway", "mim-deploy-worker", "mim-build",
                                 "mim-schedule-gateway", "mim-maintenance", "mim-identity-sync", "mim-release"}

  const RUN := Condition("mim-dynamic-run", "", false, [REGION + "services/mim-svc-", REGION + "jobs/mim-job-"])
  const JOBS := Condition("mim-dynamic-jobs", "", false, [REGION + "jobs/mim-job-"])
  const SECRETS := Condition("mim-managed-secrets", "", false, ["secrets/mim-sec-"])
  const WORKLOADS := Condition("mim-workload-service-accounts",
                               "resource.type == \"iam.googleapis.com/ServiceAccount\" && ", false,
                               ["serviceAccounts/mim-wrk-"])
  const MAINTENANCE := Condition("mim-fixed-maintenance-jobs", "", true,
                                 [REGION + "jobs/mim-identity-sync", REGION + "jobs/mim-lifecycle",
                                  REGION + "jobs/mim-usage-ingest"])
  const RELEASE := Condition("mim-release-runtimes", "", true,
                             [REGION + "services/mim-control-plane", REGION + "services/mim-app-gateway",
                              REGION + "services/mim-deploy-worker", REGION + "services/mim-schedule-gateway",
                              REGION + "jobs/mim-identity-sync", REGION + "jobs/mim-lifecycle",
                              REGION + "jobs/mim-usage-ingest"])

  const PROJECT: seq<Entry> := [
    Entry("roles/datastore.user", [Account("mim-control-plane"), Account("mim-deploy-worker"),
                                   Account("mim-schedule-gateway"), Account("mim-maintenance")], None),
    Entry("roles/cloudscheduler.admin", [Account("mim-control-plane")], None),
    Entry("roles/cloudbuild.builds.editor", [Account("mim-deploy-worker")], None),
    Entry("roles/iam.serviceAccountCreator", [Account("mim-deploy-worker")], None),
    Entry("roles/iam.serviceAccountAdmin", [Account("mim-deploy-worker")], Some(WORKLOADS)),
    Entry("roles/iam.securityReviewer", [Account("mim-deploy-worker")], Some(WORKLOADS)),
    Entry("roles/run.admin", [Account("mim-deploy-worker")], Some(RUN)),
    Entry("roles/run.viewer", [Account("mim-schedule-gateway")], Some(JOBS)),
    Entry("roles/run.jobsExecutorWithOverrides", [Account("mim-schedule-gateway")], Some(JOBS)),
    Entry("roles/secretmanager.admin", [Account("mim-control-plane")], Some(SECRETS)),
    Entry("roles/bigquery.jobUser", [Account("mim-maintenance")], None),
    Entry("roles/run.jobsExecutor", [Account("mim-maintenance")], Some(MAINTENANCE)),
    Entry("roles/run.admin", [Account("mim-release")], Some(RELEASE)),
    Entry("roles/cloudscheduler.admin", [Account("mim-release")], None)]

  const FORBIDDEN: set<string> := {
    "roles/run.invoker", "roles/iap.httpsResourceAccessor", "roles/owner", "roles/editor", "roles/viewer",
    "roles/bigquery.admin", "roles/bigquery.dataEditor", "roles/bigquery.dataOwner", "roles/bigquery.dataViewer"}

  function UserOf(name: string): Entry { Entry("roles/iam.serviceAccountUser", [Account(name)], None) }

  function Accessor(names: seq<Who>): Entry { Entry("roles/secretmanager.secretAccessor", names, None) }

  /** The kinds of resources; only secrets can be optional, and only accounts screen their members. */
  datatype Kind = ServiceAccount | Repository | Secret(optional: bool)

  const ACCOUNTS: seq<(string, Kind, seq<Entry>)> := [
    ("mim-app-gateway", ServiceAccount, [UserOf("mim-release")]),
    ("mim-control-plane", ServiceAccount, [UserOf("mim-release")]),
    ("mim-build", ServiceAccount, [UserOf("mim-deploy-worker")]),
    ("mim-deploy-worker", ServiceAccount, [UserOf("mim-release")]),
    ("mim-identity-sync", ServiceAccount,
     [Entry("roles/iam.serviceAccountTokenCreator", [Account("mim-maintenance")], None)]),
    ("mim-maintenance", ServiceAccount, [UserOf("mim-release")]),
    ("mim-release", ServiceAccount, [Entry("roles/iam.serviceAccountTokenCreator", [Operator], None)]),
    ("mim-schedule-gateway", ServiceAccount,
     [Entry("roles/iam.serviceAccountUser", [Account("mim-control-plane"), Account("mim-release")], None)])]

  const REPOSITORY: (string, Kind, seq<Entry>) :=
    ("mim", Repository,
     [Entry("roles/artifactregistry.writer", [Account("mim-deploy-worker"), Account("mim-build")], None)])

  const SECRET_RESOURCES: seq<(string, Kind, seq<Entry>)> := [
    ("mim-runtime-bootstrap", Secret(false),
     [Accessor([Account("mim-control-plane"), Account("mim-deploy-worker"), Account("mim-schedule-gateway"),
                Account("mim-maintenance")]),
      Entry("roles/secretmanager.secretVersionAdder", [Account("mim-release")], None)]),
    ("mim-edge-origin-v1", Secret(false), [Accessor([Account("mim-control-plane")])]),
    ("mim-app-gateway-origin-v1", Secret(false), [Accessor([Account("mim-app-gateway")])]),
    ("mim-app-gateway-origin-v0", Secret(true), [Accessor([Account("mim-app-gateway")])]),
    ("mim-desired-state-signing", Secret(false),
     [Accessor([Account("mim-control-plane"), Account("mim-deploy-worker")])]),
    ("mim-github-webhook", Secret(false), [Accessor([Account("mim-control-plane")])]),
    ("mim-github-app-key", Secret(false), [Accessor([Account("mim-control-plane"), Account("mim-deploy-worker")])])]

  const RESOURCES := ACCOUNTS + [REPOSITORY] + SECRET_RESOURCES

  // ---- Texts ----

  function MemberText(setting: Setting, w: Who): string {
    match w
    case Account(name) => "serviceAccount:" + (name + ("@" + setting.project + ".iam.gserviceaccount.com"))
    case Operator => "user:" + setting.operator
  }

  function Alternatives(setting: Setting, c: Condition, n: nat): string
    requires n <= |c.names|
  {
    if n == 0 then "" else
    var name := "\"projects/" + setting.project + "/" + c.names[n - 1] + "\"";
    var one := if c.exact then "resource.name == " + name else "resource.name.startsWith(" + name + ")";
    Alternatives(setting, c, n - 1) + (if n == 1 then "" else " || ") + one
  }

  function Expression(setting: Setting, c: Condition): string { c.guard + Alternatives(setting, c, |c.names|) }

  function KeyOf(setting: Setting, e: Entry): Key {
    match e.condition
    case None => Key(e.role, None, None)
    case Some(c) => Key(e.role, Some(c.title), Some(Expression(setting, c)))
  }

  function MemberTexts(setting: Setting, members: seq<Who>): (ts: seq<string>)
    ensures |ts| == |members| && forall i | 0 <= i < |ts| :: ts[i] == MemberText(setting, members[i])
  {
    seq(|members|, i requires 0 <= i < |members| => MemberText(setting, members[i]))
  }

  function BindingOf(setting: Setting, e: Entry): Binding {
    Binding(KeyOf(setting, e), MemberTexts(setting, e.members))
  }

  function PolicyOf(setting: Setting, es: seq<Entry>): (p: Policy)
    ensures |p| == |es| && forall i | 0 <= i < |p| :: p[i] == BindingOf(setting, es[i])
  {
    seq(|es|, i requires 0 <= i < |es| => BindingOf(setting, es[i]))
  }

  // ---- Screens ----

  function UpTo(s: string, stop: char): (r: string)
    ensures r <= s
  {
    if s == "" || s[0] == stop then "" else [s[0]] + UpTo(s[1..], stop)
  }

  predicate EndsWith(s: string, end: string) { |s| >= |end| && s[|s| - |end|..] == end }

  predicate CrossProject(setting: Setting, m: string) {
    "serviceAccount:" <= m &&
    var email := m[15..];
    !EndsWith(email, "@" + setting.project + ".iam.gserviceaccount.com") && !setting.allowed(email)
  }

  predicate Workload(m: string) {
    "serviceAccount:" <= m &&
    var local := UpTo(m[15..], '@');
    "mim-wrk-" <= local || "mim-workload-" <= local
  }

  function Screened(setting: Setting): Screens { Screens(m => CrossProject(setting, m), m => Workload(m), FORBIDDEN) }

  function ScreenOf(setting: Setting, kind: Kind): string -> set<Blocker> {
    match kind case ServiceAccount => Screened(setting).Resource case _ => m => {}
  }

  /** The name of a managed account is long enough, and its fifth letter tells it from a workload. */
  predicate Plain(name: string) { |name| > 4 && name[4] != 'w' }

  lemma ManagedPlain(name: string)
    requires name in MANAGED
    ensures Plain(name)
  {}

  lemma AccountPasses(setting: Setting, name: string)
    requires Plain(name)
    ensures var m := MemberText(setting, Account(name));
      m !in {"allUsers", "allAuthenticatedUsers"} && !CrossProject(setting, m) && !Workload(m)
  {
    var m := MemberText(setting, Account(name));
    var end := "@" + setting.project + ".iam.gserviceaccount.com";
    assert m[15..] == name + end;
    assert (name + end)[|name + end| - |end|..] == end;
    assert m[0] == 's' && m[15..][4] == name[4];
  }

  lemma OperatorPasses(setting: Setting)
    ensures var m := MemberText(setting, Operator);
      m !in {"allUsers", "allAuthenticatedUsers"} && !CrossProject(setting, m)
  {
    assert MemberText(setting, Operator)[0] == 'u';
  }

  // ---- The bindings ----

  function ManagedTexts(setting: Setting): set<string> { set n | n in MANAGED :: MemberText(setting, Account(n)) }

  /** The roles that are given under a condition, and under one only. */
  const CONDITIONED: set<string> := {
    "roles/iam.serviceAccountAdmin", "roles/iam.securityReviewer", "roles/run.admin", "roles/run.viewer",
    "roles/run.jobsExecutorWithOverrides", "roles/secretmanager.admin", "roles/run.jobsExecutor"}

  predicate MembersOk(e: Entry) {
    e.members != [] && forall w | w in e.members :: w.Account? && w.name in MANAGED
  }

  predicate RoleOk(e: Entry) {
    && e.role !in {"roles/iap.httpsResourceAccessor", "roles/run.invoker"}
    && (e.condition.Some? <==> e.role in CONDITIONED)
  }

  predicate EntryOk(e: Entry) { MembersOk(e) && RoleOk(e) }

  lemma ProjectMembers()
    ensures forall e | e in PROJECT :: MembersOk(e)
  {}

  lemma FirstRoles()
    ensures forall i | 0 <= i < 7 :: RoleOk(PROJECT[i])
  {}

  lemma LastRoles()
    ensures forall i | 7 <= i < 14 :: RoleOk(PROJECT[i])
  {}

  lemma ProjectRoles()
    ensures forall e | e in PROJECT :: RoleOk(e)
  {
    FirstRoles();
    LastRoles();
    assert |PROJECT| == 14;
  }

  lemma KeyMeans(setting: Setting, es: seq<Entry>, g: Grants, k: Key) returns (e: Entry)
    requires Normalizes(PolicyOf(setting, es), g) && k in g
    ensures e in es && KeyOf(setting, e) == k
  {
    var p := PolicyOf(setting, es);
    var b :| b in p && b.key == k;
    var i :| 0 <= i < |p| && p[i] == b;
    e := es[i];
  }

  lemma HasMeans(setting: Setting, es: seq<Entry>, g: Grants, k: Key, m: string) returns (e: Entry, w: Who)
    requires Normalizes(PolicyOf(setting, es), g) && Has(g, k, m)
    ensures e in es && KeyOf(setting, e) == k && w in e.members && MemberText(setting, w) == m
  {
    var p := PolicyOf(setting, es);
    assert Holds(p, k, m);
    var b :| b in p && b.key == k && m in b.members;
    var i :| 0 <= i < |p| && p[i] == b;
    e := es[i];
    var j :| 0 <= j < |b.members| && b.members[j] == m;
    w := e.members[j];
  }

  lemma HasFrom(setting: Setting, es: seq<Entry>, g: Grants, e: Entry)
    requires Normalizes(PolicyOf(setting, es), g) && e in es && e.members != []
    ensures exists m :: Has(g, KeyOf(setting, e), m)
  {
    var i :| 0 <= i < |es| && es[i] == e;
    var b := PolicyOf(setting, es)[i];
    assert b.members[0] in b.members && Holds(PolicyOf(setting, es), b.key, b.members[0]);
    assert Has(g, b.key, b.members[0]);
  }

  /** A key with some member, and with a condition exactly if its role is one of these. */
  ghost predicate KeyShaped(g: Grants, k: Key, conditioned: set<string>) {
    && (k.title.Some? <==> k.role in conditioned) && (k.expression.Some? <==> k.title.Some?)
    && exists m :: Has(g, k, m)
  }

  ghost predicate MemberShaped(k: Key, m: string, managed: set<string>, screens: Screens) {
    m in managed && screens.Project(k.role, m) == {}
  }

  lemma ShapedComparable(g: Grants, keys: set<Key>, conditioned: set<string>)
    requires keys <= g.Keys && forall k | k in keys :: KeyShaped(g, k, conditioned)
    ensures Comparable(keys)
  {}

  lemma Shaped(g: Grants, managed: set<string>, screens: Screens, conditioned: set<string>)
    requires forall k | k in g :: KeyShaped(g, k, conditioned)
    requires forall k, m | Has(g, k, m) :: MemberShaped(k, m, managed, screens)
    ensures ProjectContract(g, managed, screens)
  {
    forall k | k in g ensures BoundKey(k) == k && exists m :: Has(g, k, m) { assert KeyShaped(g, k, conditioned); }
    forall k, m | Has(g, k, m) ensures m in managed && screens.Project(k.role, m) == {} {
      assert MemberShaped(k, m, managed, screens);
    }
    forall m | m in managed ensures Comparable(KeysOf(g, m)) { ShapedComparable(g, KeysOf(g, m), conditioned); }
  }

  lemma KeyShape(setting: Setting, es: seq<Entry>, g: Grants, k: Key)
    requires Normalizes(PolicyOf(setting, es), g) && k in g && forall e | e in es :: EntryOk(e)
    ensures KeyShaped(g, k, CONDITIONED)
  {
    var e := KeyMeans(setting, es, g, k);
    HasFrom(setting, es, g, e);
  }

  lemma MemberShape(setting: Setting, es: seq<Entry>, g: Grants, k: Key, m: string)
    requires Normalizes(PolicyOf(setting, es), g) && Has(g, k, m) && forall e | e in es :: EntryOk(e)
    ensures MemberShaped(k, m, ManagedTexts(setting), Screened(setting))
  {
    var e, w := HasMeans(setting, es, g, k, m);
    ManagedPlain(w.name);
    AccountPasses(setting, w.name);
  }

  lemma MakeContract(setting: Setting, es: seq<Entry>, g: Grants)
    requires Normalizes(PolicyOf(setting, es), g) && forall e | e in es :: EntryOk(e)
    ensures ProjectContract(g, ManagedTexts(setting), Screened(setting))
  {
    forall k | k in g ensures KeyShaped(g, k, CONDITIONED) { KeyShape(setting, es, g, k); }
    forall k, m | Has(g, k, m) ensures MemberShaped(k, m, ManagedTexts(setting), Screened(setting)) {
      MemberShape(setting, es, g, k, m);
    }
    Shaped(g, ManagedTexts(setting), Screened(setting), CONDITIONED);
  }

  /** The project bindings of the repository are a project contract. */
  lemma ProjectIsContract(setting: Setting, g: Grants)
    requires Normalizes(PolicyOf(setting, PROJECT), g)
    ensures ProjectContract(g, ManagedTexts(setting), Screened(setting))
  {
    ProjectMembers();
    ProjectRoles();
    MakeContract(setting, PROJECT, g);
  }

  predicate BindableEntry(e: Entry) {
    e.condition.None? && e.members != [] && forall w | w in e.members :: w.Account? ==> w.name in MANAGED
  }

  predicate BindableEntries(r: (string, Kind, seq<Entry>)) { forall e | e in r.2 :: BindableEntry(e) }

  lemma AccountEntries()
    ensures forall r | r in ACCOUNTS :: BindableEntries(r)
  {}

  lemma SecretEntries()
    ensures forall r | r in SECRET_RESOURCES :: BindableEntries(r)
  {}

  lemma ResourceEntries()
    ensures forall r | r in RESOURCES :: BindableEntries(r)
  {
    AccountEntries();
    SecretEntries();
    assert BindableEntries(REPOSITORY);
  }

  lemma MemberScreened(setting: Setting, kind: Kind, w: Who)
    requires w.Account? ==> w.name in MANAGED
    ensures ScreenOf(setting, kind)(MemberText(setting, w)) == {}
  {
    match w
    case Account(name) => ManagedPlain(name); AccountPasses(setting, name);
    case Operator => OperatorPasses(setting);
  }

  /** Whatever is observed, the missing roles of a resource of the repository can be bound. */
  lemma ResourceBindable(setting: Setting, kind: Kind, es: seq<Entry>, observed: Grants, expected: Grants)
    requires Normalizes(PolicyOf(setting, es), expected) && forall e | e in es :: BindableEntry(e)
    ensures Bindable(observed, expected, ScreenOf(setting, kind))
  {
    forall k | k in expected ensures k == Unconditioned(k) && expected[k] != {} {
      var e := KeyMeans(setting, es, expected, k);
      HasFrom(setting, es, expected, e);
      var m :| Has(expected, k, m);
    }
    forall k, m | k in expected && m in expected[k] ensures ScreenOf(setting, kind)(m) == {} {
      var e, w := HasMeans(setting, es, expected, k, m);
      MemberScreened(setting, kind, w);
    }
  }

  // ---- The contract ----

  ghost predicate ResourceIs(setting: Setting, r: (string, Kind, seq<Entry>), x: Resource) {
    && Normalizes(PolicyOf(setting, r.2), x.expected) && x.screen == ScreenOf(setting, r.1)
    && (x.optional <==> r.1.Secret? && r.1.optional)
  }

  ghost predicate IsContract(setting: Setting, c: Contract) {
    && Normalizes(PolicyOf(setting, PROJECT), c.project) && c.managed == ManagedTexts(setting)
    && c.screens == Screened(setting) && |c.resources| == |RESOURCES|
    && forall i | 0 <= i < |RESOURCES| :: ResourceIs(setting, RESOURCES[i], c.resources[i])
  }

  method ExpectedResources(setting: Setting, rs: seq<(string, Kind, seq<Entry>)>) returns (xs: seq<Resource>)
    ensures |xs| == |rs| && forall i | 0 <= i < |rs| :: ResourceIs(setting, rs[i], xs[i])
  {
    xs := [];
    for n := 0 to |rs|
      invariant |xs| == n && forall i | 0 <= i < n :: ResourceIs(setting, rs[i], xs[i])
    {
      var expected := NormalizeExpected(PolicyOf(setting, rs[n].2));
      xs := xs + [Resource(expected, ScreenOf(setting, rs[n].1), rs[n].1.Secret? && rs[n].1.optional)];
    }
  }

  method ExpectedContract(setting: Setting) returns (c: Contract)
    ensures IsContract(setting, c)
  {
    var project := NormalizeExpected(PolicyOf(setting, PROJECT));
    var resources := ExpectedResources(setting, RESOURCES);
    c := Contract(project, ManagedTexts(setting), Screened(setting), resources);
  }

  /** For the repository's own contract only the project matters: a ready report converges in one round
      exactly if no key of the project contract has a foreign member. */
  lemma RepositoryConverges(setting: Setting, c: Contract, o: Observed)
    requires IsContract(setting, c) && Fits(c, o) && EvaluateAll(c, o).Ready()
    ensures var after := ApplyReport(o, EvaluateAll(c, o).actions);
      Fits(c, after) && (Arrived(c, after) <==> NoForeign(c, o))
  {
    ProjectIsContract(setting, c.project);
    Converges(c, o);
    ResourceEntries();
    forall i: nat | i < |c.resources| ensures ResourceFine(c, o, i) {
      assert ResourceIs(setting, RESOURCES[i], c.resources[i]);
      assert RESOURCES[i] in RESOURCES && BindableEntries(RESOURCES[i]);
      ResourceBindable(setting, RESOURCES[i].1, RESOURCES[i].2, GrantsOf(o, i), c.resources[i].expected);
    }
  }

  // ---- Who is never let through ----

  lemma {:induction false} UpToStops(name: string, rest: string)
    requires '@' !in name && (rest == "" || rest[0] == '@')
    ensures UpTo(name + rest, '@') == name
  {
    if name == "" {
      assert name + rest == rest;
    } else {
      assert (name + rest)[1..] == name[1..] + rest;
      UpToStops(name[1..], rest);
    }
  }

  /** An account whose name begins as those of workloads do is one. */
  lemma WorkloadAccount(setting: Setting, name: string)
    requires '@' !in name && ("mim-wrk-" <= name || "mim-workload-" <= name)
    ensures Workload(MemberText(setting, Account(name)))
  {
    var end := "@" + setting.project + ".iam.gserviceaccount.com";
    var m := MemberText(setting, Account(name));
    assert m[15..] == name + end && m[..15] == "serviceAccount:";
    UpToStops(name, end);
  }

  /** The service account `name` of the project `other`. */
  function AccountOf(other: string, name: string): string { name + ("@" + other + ".iam.gserviceaccount.com") }

  /** Project ids have no at sign, so accounts of two projects differ in their ending. */
  lemma OtherEnding(project: string, other: string, name: string)
    requires '@' !in project && '@' !in other && other != project
    ensures !EndsWith(AccountOf(other, name), "@" + project + ".iam.gserviceaccount.com")
  {
    var tail := ".iam.gserviceaccount.com";
    var mine, theirs := "@" + project + tail, "@" + other + tail;
    var s := name + theirs;
    assert '@' !in tail;
    if EndsWith(s, mine) {
      assert s[|s| - |mine|] == '@' && s[|name|] == '@';
      assert forall i | 0 < i < |theirs| :: theirs[i] != '@';
      assert forall i | 0 < i < |mine| :: mine[i] != '@';
      assert forall i | |name| < i < |s| :: s[i] == theirs[i - |name|];
      assert forall i | |s| - |mine| < i < |s| :: s[i] == mine[i - (|s| - |mine|)];
      assert |mine| == |theirs|;
      assert forall i | 0 <= i < |project| ::
          project[i] == mine[i + 1] == s[|name| + 1 + i] == theirs[i + 1] == other[i];
    }
  }

  /** An account of another project that is not one of the allowed agents is from across projects. */
  lemma ForeignAccount(setting: Setting, other: string, name: string)
    requires '@' !in setting.project && '@' !in other && other != setting.project
    requires !setting.allowed(AccountOf(other, name))
    ensures CrossProject(setting, "serviceAccount:" + AccountOf(other, name))
  {
    OtherEnding(setting.project, other, name);
    assert ("serviceAccount:" + AccountOf(other, name))[15..] == AccountOf(other, name);
  }

  /** Against the repository's contract no report is ready while the project grants anything to everybody, to an
      account of another project that is not allowed, or to a workload account, or grants one of the two roles. */
  lemma ProjectNeverReady(setting: Setting, c: Contract, o: Observed, k: Key, m: string)
    requires IsContract(setting, c) && Fits(c, o) && Has(o.project, k, m)
    requires || m == "allUsers" || m == "allAuthenticatedUsers" || CrossProject(setting, m) || Workload(m)
             || k.role == "roles/run.invoker" || k.role == "roles/iap.httpsResourceAccessor"
    ensures !EvaluateAll(c, o).Ready()
  {
    ProjectReported(c, o, k, m);
  }

  /** The first resources of the contract are its service accounts. */
  lemma AccountKind(i: nat)
    requires i < |ACCOUNTS|
    ensures RESOURCES[i].1 == ServiceAccount && RESOURCES[i] == ACCOUNTS[i]
  {}

  /** Nor while one of its service accounts can be used by everybody, or by such an account. */
  lemma AccountNeverReady(setting: Setting, c: Contract, o: Observed, i: nat, k: Key, m: string)
    requires IsContract(setting, c) && Fits(c, o) && i < |ACCOUNTS| && Has(GrantsOf(o, i), k, m)
    requires m == "allUsers" || m == "allAuthenticatedUsers" || CrossProject(setting, m)
    ensures !EvaluateAll(c, o).Ready()
  {
    AccountKind(i);
    assert ResourceIs(setting, RESOURCES[i], c.resources[i]);
    ResourceScreenMeans(Screened(setting), m);
    if EvaluateAll(c, o).Report? {
      ResourceReported(c, o, i, k, m, if CrossProject(setting, m) then Blocker.CrossProject else PublicMember);
    }
  }

  /** A member is from across projects exactly if it is a service account that has neither the ending of this
      project nor leave. */
  lemma CrossProjectIff(setting: Setting, email: string)
    ensures var end := "@" + setting.project + ".iam.gserviceaccount.com";
      CrossProject(setting, "serviceAccount:" + email) <==>
        !(exists name :: email == name + end) && !setting.allowed(email)
  {
    var end := "@" + setting.project + ".iam.gserviceaccount.com";
    assert ("serviceAccount:" + email)[15..] == email;
    if EndsWith(email, end) { assert email == email[..|email| - |end|] + end; }
    if name :| email == name + end { assert email[|email| - |end|..] == end; }
  }

  /** A condition with one name, and one with several: each name is quoted under the project, compared or taken as a
      prefix, and the alternatives are separated by a double bar. */
  lemma AlternativeTexts(setting: Setting, c: Condition, n: nat)
    requires n < |c.names|
    ensures var name := "\"projects/" + setting.project + "/" + c.names[n] + "\"";
      var one := if c.exact then "resource.name == " + name else "resource.name.startsWith(" + name + ")";
      && (n == 0 ==> Alternatives(setting, c, 1) == one)
      && (n > 0 ==> Alternatives(setting, c, n + 1) == Alternatives(setting, c, n) + " || " + one)
    ensures Expression(setting, c) == c.guard + Alternatives(setting, c, |c.names|)
  {
    var name := "\"projects/" + setting.project + "/" + c.names[n] + "\"";
    var one := if c.exact then "resource.name == " + name else "resource.name.startsWith(" + name + ")";
    assert "" + "" + one == one;
  }
}

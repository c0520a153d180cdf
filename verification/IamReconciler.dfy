/** The IAM reconciler compares observed policies with a contract. It reports blockers and
    proposes bindings; the question is what a second evaluation sees once those are applied. */
module IamReconciler {
  import opened Prelude

  datatype Key = Key(role: string, title: Option<string>, expression: Option<string>)
  datatype Binding = Binding(key: Key, members: seq<string>)
  type Policy = seq<Binding>
  type Grants = map<Key, set<string>>

  datatype Blocker =
    | UnexpectedRole(role: string)
    | MembersDrift(key: Key)
    | PublicMember
    | CrossProject
    | ForbiddenRole(role: string)
    | WorkloadRole(member: string, role: string)
    | IdentityUnexpectedRole(identity: string, role: string)
    | ExtraManagedMember(key: Key, extra: string)
    | IdentityMembersDrift(identity: string, key: Key)
    | RawBillingAccess

  /** A proposed binding; `key` is the role and condition that the binding command is given. */
  datatype Action = Action(key: Key, member: string)

  /** Sorting role keys compares text with nothing, and so raises, as soon as two keys agree
      up to a component that only one of them has. */
  datatype Verdict = Crashed | Verdict(blockers: set<Blocker>, actions: set<Action>)
  {
    predicate Ready() { Verdict? && blockers == {} }
    predicate Settled() { this == Verdict({}, {}) }
  }

  predicate Comparable(keys: set<Key>) {
    forall a, b | a in keys && b in keys && a.role == b.role ::
      && (a.title.None? <==> b.title.None?)
      && (a.title == b.title ==> (a.expression.None? <==> b.expression.None?))
  }

  // ---- The first in sorting order ----

  /** The order of texts by code points. */
  predicate Before(a: string, b: string) {
    a == "" || (b != "" && (a[0] < b[0] || (a[0] == b[0] && Before(a[1..], b[1..]))))
  }

  lemma {:induction false} BeforeTotal(a: string, b: string)
    ensures Before(a, b) || Before(b, a)
    ensures Before(a, b) && Before(b, a) ==> a == b
  {
    if a != "" && b != "" {
      BeforeTotal(a[1..], b[1..]);
      assert a == [a[0]] + a[1..] && b == [b[0]] + b[1..];
    }
  }

  lemma {:induction false} BeforeTransitive(a: string, b: string, c: string)
    requires Before(a, b) && Before(b, c)
    ensures Before(a, c)
  {
    if a != "" && a[0] == b[0] == c[0] { BeforeTransitive(a[1..], b[1..], c[1..]); }
  }

  predicate IsLeast(s: set<string>, m: string) { m in s && forall n | n in s :: Before(m, n) }

  lemma {:induction false} HasLeast(s: set<string>) returns (m: string)
    requires s != {}
    ensures IsLeast(s, m)
    decreases |s|
  {
    var x :| x in s;
    BeforeTotal(x, x);
    if s == {x} {
      m := x;
    } else {
      var y := HasLeast(s - {x});
      BeforeTotal(x, y);
      m := if Before(x, y) then x else y;
      forall n | n in s ensures Before(m, n) {
        if n != x && m == x { BeforeTransitive(x, y, n); }
      }
    }
  }

  lemma OneLeast(s: set<string>)
    ensures forall m, n | IsLeast(s, m) && IsLeast(s, n) :: m == n
  {
    forall m, n | IsLeast(s, m) && IsLeast(s, n) ensures m == n { BeforeTotal(m, n); }
  }

  /** The first text of a set, sorted. */
  function Least(s: set<string>): (m: string)
    requires s != {}
    ensures IsLeast(s, m)
  {
    OneLeast(s);
    assert exists m :: IsLeast(s, m) by { var m := HasLeast(s); }
    var m :| m in s && IsLeast(s, m);
    m
  }

  function RolesOf(keys: set<Key>): set<string> { set k | k in keys :: k.role }

  /** The first role of some keys: keys are sorted by role first. */
  function FirstRole(keys: set<Key>): (role: string)
    requires keys != {}
    ensures role in RolesOf(keys) && forall k | k in keys :: Before(role, k.role)
  {
    var k :| k in keys;
    assert k.role in RolesOf(keys);
    Least(RolesOf(keys))
  }

  // ---- Grants ----

  /** How sorting compares two parts that differ: text with text, but nothing with neither. */
  function PartBefore(a: Option<string>, b: Option<string>): Option<bool> {
    if a.None? || b.None? then None else Some(Before(a.value, b.value))
  }

  /** How sorting compares two keys: by the first part in which they differ; None is a comparison that raises. */
  function KeyBefore(a: Key, b: Key): Option<bool> {
    if a.role != b.role then Some(Before(a.role, b.role))
    else if a.title != b.title then PartBefore(a.title, b.title)
    else if a.expression != b.expression then PartBefore(a.expression, b.expression)
    else Some(true)
  }

  /** Keys can be sorted exactly if no comparison of two of them raises. */
  lemma ComparableIff(keys: set<Key>)
    ensures Comparable(keys) <==> forall a, b | a in keys && b in keys :: KeyBefore(a, b).Some?
  {
    if Comparable(keys) {
      forall a, b | a in keys && b in keys ensures KeyBefore(a, b).Some? {}
    } else {
      var a, b :| a in keys && b in keys && a.role == b.role
          && !((a.title.None? <==> b.title.None?)
               && (a.title == b.title ==> (a.expression.None? <==> b.expression.None?)));
      assert KeyBefore(a, b).None?;
    }
  }

  function At(g: Grants, k: Key): set<string> {
    if k in g then g[k] else {}
  }

  /** Member `m` has the role and condition of `k`. */
  predicate Has(g: Grants, k: Key, m: string) { k in g && m in g[k] }

  function Members(b: Binding): set<string> { set m | m in b.members }

  ghost predicate NoEmptyKey(g: Grants) {
    forall k | k in g :: exists m :: Has(g, k, m)
  }

  lemma SameGrants(g: Grants, h: Grants)
    requires forall k, m :: Has(g, k, m) <==> Has(h, k, m)
    requires g.Keys == h.Keys || (NoEmptyKey(g) && NoEmptyKey(h))
    ensures g == h
  {
    forall k ensures k in g <==> k in h {
      if k in g && NoEmptyKey(g) { var m :| Has(g, k, m); assert Has(h, k, m); }
      if k in h && NoEmptyKey(h) { var m :| Has(h, k, m); assert Has(g, k, m); }
    }
    forall k | k in g ensures g[k] == h[k] {
      forall m ensures m in g[k] <==> m in h[k] { assert Has(g, k, m) <==> Has(h, k, m); }
    }
  }

  // ---- Aggregation ----

  /** Some binding of the policy gives `m` the role of `k` under the condition of `k`. */
  ghost predicate Holds(policy: Policy, k: Key, m: string) {
    exists b | b in policy :: b.key == k && m in b.members
  }

  /** The grants of a policy: a key appears once some member has it. */
  ghost predicate Aggregates(policy: Policy, g: Grants) {
    && (forall k, m :: Has(g, k, m) <==> Holds(policy, k, m))
    && NoEmptyKey(g)
  }

  lemma HoldsSnoc(policy: Policy, b: Binding)
    ensures forall k, m :: Holds(policy + [b], k, m) <==> Holds(policy, k, m) || (k == b.key && m in b.members)
  {
    forall k, m ensures Holds(policy + [b], k, m) <==> Holds(policy, k, m) || (k == b.key && m in b.members) {
      if k == b.key && m in b.members { assert b in policy + [b]; }
      if c :| c in policy && c.key == k && m in c.members { assert c in policy + [b]; }
    }
  }

  function AddMember(g: Grants, k: Key, m: string): (r: Grants)
    ensures forall j, n :: Has(r, j, n) <==> Has(g, j, n) || (j == k && n == m)
    ensures r.Keys == g.Keys + {k}
  {
    g[k := At(g, k) + {m}]
  }

  method AddMembers(g0: Grants, k: Key, ms: seq<string>) returns (g: Grants)
    ensures forall j, n :: Has(g, j, n) <==> Has(g0, j, n) || (j == k && n in ms)
    ensures forall j | j in g :: j in g0 || exists n :: Has(g, j, n)
  {
    g := g0;
    for i := 0 to |ms|
      invariant forall j, n :: Has(g, j, n) <==> Has(g0, j, n) || (j == k && n in ms[..i])
      invariant forall j | j in g :: j in g0 || exists n :: Has(g, j, n)
    {
      assert forall n :: n in ms[..i + 1] <==> n in ms[..i] || n == ms[i];
      assert Has(AddMember(g, k, ms[i]), k, ms[i]);
      forall j | j in g && j !in g0 ensures exists n :: Has(AddMember(g, k, ms[i]), j, n) {
        var n :| Has(g, j, n);
        assert Has(AddMember(g, k, ms[i]), j, n);
      }
      g := AddMember(g, k, ms[i]);
    }
    assert ms[..|ms|] == ms;
  }

  method Aggregate(policy: Policy) returns (g: Grants)
    ensures Aggregates(policy, g)
  {
    g := map[];
    for i := 0 to |policy|
      invariant Aggregates(policy[..i], g)
    {
      assert policy[..i + 1] == policy[..i] + [policy[i]];
      HoldsSnoc(policy[..i], policy[i]);
      ghost var before := g;
      g := AddMembers(g, policy[i].key, policy[i].members);
      forall k | k in g ensures exists m :: Has(g, k, m) {
        if k in before {
          var m :| Has(before, k, m);
          assert Has(g, k, m);
        }
      }
    }
    assert policy[..|policy|] == policy;
  }

  /** The grants of the contract's bindings: a key is kept even when its member list is empty. */
  ghost predicate Normalizes(bindings: Policy, g: Grants) {
    && (forall k :: k in g <==> exists b | b in bindings :: b.key == k)
    && (forall k, m :: Has(g, k, m) <==> Holds(bindings, k, m))
  }

  method NormalizeExpected(bindings: Policy) returns (g: Grants)
    ensures Normalizes(bindings, g)
  {
    g := map[];
    for i := 0 to |bindings|
      invariant forall k :: k in g <==> exists b | b in bindings[..i] :: b.key == k
      invariant forall k, m :: Has(g, k, m) <==> Holds(bindings[..i], k, m)
    {
      assert bindings[..i + 1] == bindings[..i] + [bindings[i]];
      HoldsSnoc(bindings[..i], bindings[i]);
      g := g[bindings[i].key := At(g, bindings[i].key) + Members(bindings[i])];
    }
    assert bindings[..|bindings|] == bindings;
  }

  /** Splitting, merging, reordering or repeating bindings changes nothing that is evaluated. */
  lemma LayoutIrrelevant(p: Policy, q: Policy, g: Grants, h: Grants)
    requires Aggregates(p, g) && Aggregates(q, h)
    requires forall k, m :: Holds(p, k, m) <==> Holds(q, k, m)
    ensures g == h
  {
    SameGrants(g, h);
  }

  // ---- Applying actions ----

  function ApplyAll(g: Grants, actions: set<Action>): (after: Grants)
    ensures forall k, m :: Has(after, k, m) <==> Has(g, k, m) || Action(k, m) in actions
    ensures forall k :: k in after <==> k in g || exists m :: Action(k, m) in actions
  {
    assert forall a | a in actions :: a == Action(a.key, a.member);
    map k | k in g.Keys + (set a | a in actions :: a.key) :: At(g, k) + set a | a in actions && a.key == k :: a.member
  }

  function AsBindings(actions: seq<Action>): Policy {
    seq(|actions|, i requires 0 <= i < |actions| => Binding(actions[i].key, [actions[i].member]))
  }

  lemma HoldsAppended(policy: Policy, actions: seq<Action>, k: Key, m: string)
    ensures Holds(policy + AsBindings(actions), k, m) <==> Holds(policy, k, m) || Action(k, m) in actions
  {
    var all := policy + AsBindings(actions);
    if b :| b in policy && b.key == k && m in b.members { assert b in all; }
    if i :| 0 <= i < |actions| && actions[i] == Action(k, m) {
      assert all[|policy| + i] == Binding(k, [m]);
    }
    if b :| b in all && b.key == k && m in b.members && b !in policy {
      var i :| 0 <= i < |AsBindings(actions)| && AsBindings(actions)[i] == b;
      assert actions[i] == Action(k, m);
    }
  }

  /** Applying to the grants is what adding one binding per action does to the policy. */
  lemma ApplyIsAppend(policy: Policy, g: Grants, actions: seq<Action>, after: Grants)
    requires Aggregates(policy, g) && Aggregates(policy + AsBindings(actions), after)
    ensures after == ApplyAll(g, set a | a in actions)
  {
    var applied := ApplyAll(g, set a | a in actions);
    forall k, m ensures Has(applied, k, m) <==> Has(after, k, m) {
      HoldsAppended(policy, actions, k, m);
    }
    forall k | k in applied ensures exists m :: Has(applied, k, m) {
      if k in g { var m :| Has(g, k, m); assert Has(applied, k, m); }
      if m :| Action(k, m) in actions { assert Has(applied, k, m); }
    }
    SameGrants(applied, after);
  }

  // ---- One resource: a service account, the artifact repository or a secret ----

  function Unconditioned(k: Key): Key { Key(k.role, None, None) }

  function Screened(g: Grants, keys: set<Key>, screen: string -> set<Blocker>): set<Blocker> {
    set k, m, b | k in keys && k in g && m in g[k] && b in screen(m) :: b
  }

  function Drifted(observed: Grants, expected: Grants, keys: set<Key>): set<Blocker> {
    set k | k in keys && At(observed, k) != At(expected, k) :: MembersDrift(k)
  }

  /** The binding commands for resources carry no condition. */
  function Binds(expected: Grants, keys: set<Key>): set<Action> {
    set k, m | k in keys && k in expected && m in expected[k] :: Action(Unconditioned(k), m)
  }

  /** Only the first unexpected role is named. */
  function Unexpected(extra: set<Key>): (bs: set<Blocker>)
    ensures bs == {} <==> extra == {}
  {
    if extra == {} then {} else {UnexpectedRole(FirstRole(extra))}
  }

  function SectionBlockers(observed: Grants, expected: Grants, screen: string -> set<Blocker>): set<Blocker> {
    Unexpected(observed.Keys - expected.Keys)
    + Drifted(observed, expected, observed.Keys * expected.Keys)
    + Screened(observed, observed.Keys, screen)
  }

  function SectionActions(observed: Grants, expected: Grants): set<Action> {
    Binds(expected, expected.Keys - observed.Keys)
  }

  function EvaluateSection(observed: Grants, expected: Grants, screen: string -> set<Blocker>): Verdict {
    if !Comparable(observed.Keys) || !Comparable(expected.Keys - observed.Keys) then Crashed
    else Verdict(SectionBlockers(observed, expected, screen), SectionActions(observed, expected))
  }

  /** The contract's missing roles can be bound as the section binds them. */
  ghost predicate Bindable(observed: Grants, expected: Grants, screen: string -> set<Blocker>) {
    && (forall k | k in expected.Keys - observed.Keys ::
          k == Unconditioned(k) && expected[k] != {} && forall m | m in expected[k] :: screen(m) == {})
    && Comparable(expected.Keys)
  }

  lemma SectionReady(observed: Grants, expected: Grants, screen: string -> set<Blocker>)
    requires SectionBlockers(observed, expected, screen) == {}
    ensures observed.Keys <= expected.Keys
    ensures forall k | k in observed :: observed[k] == expected[k]
    ensures forall k, m | k in observed && m in observed[k] :: screen(m) == {}
  {
    forall k | k in observed && k in expected ensures observed[k] == expected[k] {
      assert MembersDrift(k) !in SectionBlockers(observed, expected, screen);
    }
    var extra := observed.Keys - expected.Keys;
    assert forall b | b in Unexpected(extra) :: b in SectionBlockers(observed, expected, screen);
    assert Unexpected(extra) == {};
    forall k | k in observed.Keys ensures k in expected.Keys { assert k !in extra; }
    forall k, m | k in observed && m in observed[k] ensures screen(m) == {} {
      assert forall b :: b !in SectionBlockers(observed, expected, screen);
    }
  }

  lemma SelfSettled(expected: Grants, screen: string -> set<Blocker>)
    requires Comparable(expected.Keys) && forall k, m | k in expected && m in expected[k] :: screen(m) == {}
    ensures EvaluateSection(expected, expected, screen).Settled()
  {
    assert SectionActions(expected, expected) == {};
    assert SectionBlockers(expected, expected, screen) == {};
  }

  lemma ActionIffMissing(observed: Grants, expected: Grants, screen: string -> set<Blocker>, k: Key, m: string)
    requires Bindable(observed, expected, screen)
    ensures Action(k, m) in SectionActions(observed, expected)
        <==> k in expected.Keys - observed.Keys && m in expected[k]
  {}

  lemma BindableHas(observed: Grants, expected: Grants, screen: string -> set<Blocker>, k: Key, m: string)
    requires SectionBlockers(observed, expected, screen) == {} && Bindable(observed, expected, screen)
    ensures Has(observed, k, m) || Action(k, m) in SectionActions(observed, expected) <==> Has(expected, k, m)
  {
    SectionReady(observed, expected, screen);
    ActionIffMissing(observed, expected, screen, k, m);
  }

  lemma BindableKeys(observed: Grants, expected: Grants, screen: string -> set<Blocker>, k: Key)
    requires SectionBlockers(observed, expected, screen) == {} && Bindable(observed, expected, screen)
    ensures k in observed || (exists m :: Action(k, m) in SectionActions(observed, expected)) <==> k in expected
  {
    SectionReady(observed, expected, screen);
    if m :| Action(k, m) in SectionActions(observed, expected) { ActionIffMissing(observed, expected, screen, k, m); }
    if k in expected && k !in observed {
      var m :| m in expected[k];
      ActionIffMissing(observed, expected, screen, k, m);
    }
  }

  lemma BindableSame(observed: Grants, expected: Grants, screen: string -> set<Blocker>)
    requires SectionBlockers(observed, expected, screen) == {} && Bindable(observed, expected, screen)
    ensures var after := ApplyAll(observed, SectionActions(observed, expected));
      (forall k, m :: Has(after, k, m) <==> Has(expected, k, m)) && forall k :: k in after <==> k in expected
  {
    var after := ApplyAll(observed, SectionActions(observed, expected));
    forall k, m ensures Has(after, k, m) <==> Has(expected, k, m) {
      BindableHas(observed, expected, screen, k, m);
    }
    forall k ensures k in after <==> k in expected {
      BindableKeys(observed, expected, screen, k);
    }
  }

  lemma BindableReaches(observed: Grants, expected: Grants, screen: string -> set<Blocker>)
    requires SectionBlockers(observed, expected, screen) == {} && Bindable(observed, expected, screen)
    ensures ApplyAll(observed, SectionActions(observed, expected)) == expected
  {
    BindableSame(observed, expected, screen);
    SameGrants(ApplyAll(observed, SectionActions(observed, expected)), expected);
  }

  lemma BindableSettles(observed: Grants, expected: Grants, screen: string -> set<Blocker>)
    requires EvaluateSection(observed, expected, screen).Ready() && Bindable(observed, expected, screen)
    ensures var after := ApplyAll(observed, SectionActions(observed, expected));
      after == expected && EvaluateSection(after, expected, screen).Settled()
  {
    SectionReady(observed, expected, screen);
    BindableReaches(observed, expected, screen);
    SelfSettled(expected, screen);
  }

  lemma SettledBindable(observed: Grants, expected: Grants, screen: string -> set<Blocker>)
    requires EvaluateSection(observed, expected, screen).Ready()
    requires ApplyAll(observed, SectionActions(observed, expected)) == expected
        && EvaluateSection(expected, expected, screen).Settled()
    ensures Bindable(observed, expected, screen)
  {
    SectionReady(expected, expected, screen);
    var actions := SectionActions(observed, expected);
    forall k | k in expected.Keys - observed.Keys ensures k == Unconditioned(k) && expected[k] != {} {
      var a :| a in actions && a.key == k;
      assert Has(ApplyAll(observed, actions), k, a.member);
    }
  }

  /** A ready resource converges in one round - same grants as the contract, nothing blocked,
      nothing left to do - exactly when its missing roles are bindable. */
  lemma SectionConverges(observed: Grants, expected: Grants, screen: string -> set<Blocker>)
    requires EvaluateSection(observed, expected, screen).Ready()
    ensures var after := ApplyAll(observed, EvaluateSection(observed, expected, screen).actions);
      (after == expected && EvaluateSection(after, expected, screen).Settled())
          <==> Bindable(observed, expected, screen)
  {
    var actions := SectionActions(observed, expected);
    var after := ApplyAll(observed, actions);
    SectionReady(observed, expected, screen);
    if Bindable(observed, expected, screen) {
      BindableSettles(observed, expected, screen);
    }
    if after == expected && EvaluateSection(after, expected, screen).Settled() {
      SettledBindable(observed, expected, screen);
    }
  }

  lemma ScreenedAdd(g: Grants, keys: set<Key>, k: Key, screen: string -> set<Blocker>)
    requires k in g
    ensures Screened(g, keys + {k}, screen) == Screened(g, keys, screen) + set m, b | m in g[k] && b in screen(m) :: b
  {}

  method ScreenMembers(g: Grants, screen: string -> set<Blocker>) returns (blockers: set<Blocker>)
    ensures blockers == Screened(g, g.Keys, screen)
  {
    blockers := {};
    var rest := g.Keys;
    while rest != {}
      invariant rest <= g.Keys
      invariant blockers == Screened(g, g.Keys - rest, screen)
    {
      var k :| k in rest;
      ScreenedAdd(g, g.Keys - rest, k, screen);
      assert g.Keys - rest + {k} == g.Keys - (rest - {k});
      blockers := blockers + set m, b | m in g[k] && b in screen(m) :: b;
      rest := rest - {k};
    }
    assert g.Keys - rest == g.Keys;
  }

  method BindMissing(expected: Grants, missing: set<Key>) returns (actions: set<Action>)
    ensures actions == Binds(expected, missing)
  {
    actions := {};
    var rest := missing;
    while rest != {}
      invariant rest <= missing
      invariant actions == Binds(expected, missing - rest)
    {
      var k :| k in rest;
      actions := actions + set m | m in At(expected, k) :: Action(Unconditioned(k), m);
      rest := rest - {k};
    }
    assert missing - rest == missing;
  }

  method CompareMembers(observed: Grants, expected: Grants) returns (blockers: set<Blocker>)
    ensures blockers == Drifted(observed, expected, observed.Keys * expected.Keys)
  {
    blockers := {};
    var both := observed.Keys * expected.Keys;
    var rest := both;
    while rest != {}
      invariant rest <= both
      invariant blockers == Drifted(observed, expected, both - rest)
    {
      var k :| k in rest;
      if observed[k] != expected[k] { blockers := blockers + {MembersDrift(k)}; }
      rest := rest - {k};
    }
    assert both - rest == both;
  }

  method ReportSection(observed: Grants, expected: Grants, screen: string -> set<Blocker>) returns (v: Verdict)
    ensures v == EvaluateSection(observed, expected, screen)
  {
    if !Comparable(observed.Keys) || !Comparable(expected.Keys - observed.Keys) { return Crashed; }
    var screened := ScreenMembers(observed, screen);
    var actions := BindMissing(expected, expected.Keys - observed.Keys);
    var drifted := CompareMembers(observed, expected);
    v := Verdict(Unexpected(observed.Keys - expected.Keys) + drifted + screened, actions);
  }

  // ---- The project policy ----

  /** Which members are public, belong to another project or are workload accounts, and which
      project roles are forbidden outright. */
  datatype Screens = Screens(crossProject: string -> bool, workload: string -> bool, forbidden: set<string>)
  {
    function Resource(m: string): set<Blocker> {
      (if m in {"allUsers", "allAuthenticatedUsers"} then {PublicMember} else {})
          + (if crossProject(m) then {CrossProject} else {})
    }

    function Project(role: string, m: string): set<Blocker> {
      (if role in forbidden && role in {"roles/iap.httpsResourceAccessor", "roles/run.invoker"}
          then {ForbiddenRole(role)} else {})
      + Resource(m)
      + (if workload(m) then {WorkloadRole(m, role)} else {})
    }
  }

  function KeysOf(g: Grants, m: string): set<Key> { set k | k in g && m in g[k] }

  /** The binding command carries the condition only when it has both parts. */
  function BoundKey(k: Key): Key {
    if k.title.Some? && k.expression.Some? then k else Unconditioned(k)
  }

  function IdentityUnexpected(m: string, extra: set<Key>): (bs: set<Blocker>)
    ensures bs == {} <==> extra == {}
  {
    if extra == {} then {} else {IdentityUnexpectedRole(m, FirstRole(extra))}
  }

  /** The first managed member that the key should not have is named; if there is none, only the drift is. */
  function KeyBlocker(m: string, k: Key, managedExtra: set<string>): Blocker {
    if managedExtra != {} then ExtraManagedMember(k, Least(managedExtra)) else IdentityMembersDrift(m, k)
  }

  function IdentityBlockers(observed: Grants, expected: Grants, managed: set<string>, m: string): set<Blocker> {
    IdentityUnexpected(m, KeysOf(observed, m) - KeysOf(expected, m))
    + (set k | k in KeysOf(observed, m) * KeysOf(expected, m) && observed[k] != expected[k] ::
         KeyBlocker(m, k, (observed[k] - expected[k]) * managed))
  }

  function IdentityActions(observed: Grants, expected: Grants, m: string): set<Action> {
    set k | k in KeysOf(expected, m) - KeysOf(observed, m) :: Action(BoundKey(k), m)
  }

  function IdentitiesBlockers(observed: Grants, expected: Grants, managed: set<string>,
                              some: set<string>): set<Blocker> {
    set m, b | m in some && b in IdentityBlockers(observed, expected, managed, m) :: b
  }

  function IdentitiesActions(observed: Grants, expected: Grants, some: set<string>): set<Action> {
    set m, a | m in some && a in IdentityActions(observed, expected, m) :: a
  }

  function ProjectScreened(g: Grants, screens: Screens): set<Blocker> {
    set k, m, b | k in g && m in g[k] && b in screens.Project(k.role, m) :: b
  }

  predicate Sortable(observed: Grants, expected: Grants, m: string) {
    Comparable(KeysOf(observed, m) - KeysOf(expected, m)) && Comparable(KeysOf(expected, m) - KeysOf(observed, m))
  }

  predicate AllSortable(observed: Grants, expected: Grants, managed: set<string>) {
    forall m | m in managed :: Sortable(observed, expected, m)
  }

  function EvaluateProject(observed: Grants, expected: Grants, managed: set<string>, screens: Screens): Verdict {
    if AllSortable(observed, expected, managed)
    then Verdict(IdentitiesBlockers(observed, expected, managed, managed) + ProjectScreened(observed, screens),
                 IdentitiesActions(observed, expected, managed))
    else Crashed
  }

  lemma IdentitiesAdd(observed: Grants, expected: Grants, managed: set<string>, some: set<string>, m: string)
    ensures IdentitiesBlockers(observed, expected, managed, some + {m})
         == IdentitiesBlockers(observed, expected, managed, some) + IdentityBlockers(observed, expected, managed, m)
    ensures IdentitiesActions(observed, expected, some + {m})
         == IdentitiesActions(observed, expected, some) + IdentityActions(observed, expected, m)
  {}

  /** The loop over the managed identities, on top of the screening of every project member. */
  method ReportProject(observed: Grants, expected: Grants, managed: set<string>, screens: Screens) returns (v: Verdict)
    ensures v == EvaluateProject(observed, expected, managed, screens)
  {
    var blockers: set<Blocker>, actions: set<Action> := {}, {};
    var rest := managed;
    while rest != {}
      invariant rest <= managed
      invariant blockers == IdentitiesBlockers(observed, expected, managed, managed - rest)
      invariant actions == IdentitiesActions(observed, expected, managed - rest)
      invariant forall m | m in managed - rest :: Sortable(observed, expected, m)
    {
      var m :| m in rest;
      if !Sortable(observed, expected, m) { return Crashed; }
      IdentitiesAdd(observed, expected, managed, managed - rest, m);
      assert managed - rest + {m} == managed - (rest - {m});
      blockers := blockers + IdentityBlockers(observed, expected, managed, m);
      actions := actions + IdentityActions(observed, expected, m);
      rest := rest - {m};
    }
    assert managed - rest == managed;
    v := Verdict(blockers + ProjectScreened(observed, screens), actions);
  }

  /** What a project contract is: roles of managed identities only, conditions with both parts,
      nothing that the screening would block, and role lists that can be sorted. */
  ghost predicate ProjectContract(expected: Grants, managed: set<string>, screens: Screens) {
    && NoEmptyKey(expected)
    && (forall k, m | Has(expected, k, m) :: m in managed && screens.Project(k.role, m) == {})
    && (forall k | k in expected :: BoundKey(k) == k)
    && (forall m | m in managed :: Comparable(KeysOf(expected, m)))
  }

  /** On the contract's keys the policy is exactly the contract. */
  ghost predicate Matches(g: Grants, expected: Grants) {
    forall k | k in expected :: k in g && g[k] == expected[k]
  }

  /** Nothing is blocked: every grant passes the screens, and a managed identity holds only
      contract roles, each with exactly the contract's members. */
  ghost predicate ProjectClean(g: Grants, expected: Grants, managed: set<string>, screens: Screens) {
    forall k, m | Has(g, k, m) ::
      screens.Project(k.role, m) == {} && (m in managed ==> Has(expected, k, m) && g[k] == expected[k])
  }

  lemma IdentityClean(g: Grants, expected: Grants, managed: set<string>, m: string)
    requires m in managed
    ensures IdentityBlockers(g, expected, managed, m) == {}
        <==> forall k | Has(g, k, m) :: Has(expected, k, m) && g[k] == expected[k]
  {
    var bs := IdentityBlockers(g, expected, managed, m);
    if bs == {} {
      forall k | Has(g, k, m) ensures Has(expected, k, m) && g[k] == expected[k] {
        assert k in KeysOf(g, m) && IdentityUnexpected(m, KeysOf(g, m) - KeysOf(expected, m)) <= bs;
        assert Has(expected, k, m) ==> KeyBlocker(m, k, (g[k] - expected[k]) * managed) !in bs;
      }
    }
  }

  lemma NoBlockersIff(g: Grants, expected: Grants, managed: set<string>, screens: Screens)
    ensures IdentitiesBlockers(g, expected, managed, managed) + ProjectScreened(g, screens) == {}
       <==> ProjectClean(g, expected, managed, screens)
  {
    var bs, ss := IdentitiesBlockers(g, expected, managed, managed), ProjectScreened(g, screens);
    forall m | m in managed
      ensures IdentityBlockers(g, expected, managed, m) == {}
          <==> forall k | Has(g, k, m) :: Has(expected, k, m) && g[k] == expected[k]
    {
      IdentityClean(g, expected, managed, m);
    }
    if bs + ss == {} {
      assert bs == {} && ss == {};
      forall k, m | Has(g, k, m)
        ensures screens.Project(k.role, m) == {} && (m in managed ==> Has(expected, k, m) && g[k] == expected[k])
      {
        assert forall b | b in screens.Project(k.role, m) :: b in ss;
        assert m in managed ==> forall b | b in IdentityBlockers(g, expected, managed, m) :: b in bs;
      }
    }
    if ProjectClean(g, expected, managed, screens) {
      forall k, m | k in g && m in g[k] ensures screens.Project(k.role, m) == {} { assert Has(g, k, m); }
      assert ss == {};
      assert forall m | m in managed :: IdentityBlockers(g, expected, managed, m) == {};
      assert bs == {};
    }
  }

  lemma ReadyClean(g: Grants, expected: Grants, managed: set<string>, screens: Screens)
    requires EvaluateProject(g, expected, managed, screens).Ready()
    ensures ProjectClean(g, expected, managed, screens)
  {
    NoBlockersIff(g, expected, managed, screens);
  }

  lemma ProjectActionsIff(g: Grants, expected: Grants, managed: set<string>, screens: Screens)
    requires ProjectContract(expected, managed, screens)
    ensures forall k, m ::
        Action(k, m) in IdentitiesActions(g, expected, managed) <==> Has(expected, k, m) && !Has(g, k, m)
  {
    var actions := IdentitiesActions(g, expected, managed);
    forall k, m ensures Action(k, m) in actions <==> Has(expected, k, m) && !Has(g, k, m) {
      if Has(expected, k, m) && !Has(g, k, m) {
        assert BoundKey(k) == k && k in KeysOf(expected, m) - KeysOf(g, m);
        assert Action(k, m) in IdentityActions(g, expected, m);
      }
      if Action(k, m) in actions {
        var n :| n in managed && Action(k, m) in IdentityActions(g, expected, n);
        var j :| j in KeysOf(expected, n) - KeysOf(g, n) && Action(BoundKey(j), n) == Action(k, m);
      }
    }
  }

  ghost predicate Complete(g: Grants, expected: Grants) {
    forall k, m | Has(expected, k, m) :: Has(g, k, m)
  }

  lemma NoActionsIff(g: Grants, expected: Grants, managed: set<string>, screens: Screens)
    requires ProjectContract(expected, managed, screens)
    ensures IdentitiesActions(g, expected, managed) == {} <==> Complete(g, expected)
  {
    ProjectActionsIff(g, expected, managed, screens);
    var actions := IdentitiesActions(g, expected, managed);
    if Complete(g, expected) {
      assert forall a | a in actions :: a == Action(a.key, a.member);
      assert actions == {};
    }
    if actions == {} {
      forall k, m | Has(expected, k, m) ensures Has(g, k, m) { assert Action(k, m) !in actions; }
    }
  }

  lemma CleanSortable(g: Grants, expected: Grants, managed: set<string>, screens: Screens)
    requires ProjectClean(g, expected, managed, screens) && Complete(g, expected)
    ensures AllSortable(g, expected, managed)
  {
    forall m | m in managed ensures Sortable(g, expected, m) {
      forall k ensures k in KeysOf(g, m) <==> k in KeysOf(expected, m) {
        assert k in KeysOf(g, m) <==> Has(g, k, m);
        assert k in KeysOf(expected, m) <==> Has(expected, k, m);
      }
      assert KeysOf(g, m) == KeysOf(expected, m);
    }
  }

  lemma ProjectSettledIff(g: Grants, expected: Grants, managed: set<string>, screens: Screens)
    requires ProjectContract(expected, managed, screens)
    ensures EvaluateProject(g, expected, managed, screens).Settled() <==>
      ProjectClean(g, expected, managed, screens) && Complete(g, expected)
  {
    NoBlockersIff(g, expected, managed, screens);
    NoActionsIff(g, expected, managed, screens);
    if ProjectClean(g, expected, managed, screens) && Complete(g, expected) {
      CleanSortable(g, expected, managed, screens);
    }
  }

  /** After applying the actions of a ready verdict every contract member holds its key. */
  lemma ProjectAfter(observed: Grants, expected: Grants, managed: set<string>, screens: Screens)
    requires ProjectContract(expected, managed, screens)
    ensures forall k, m :: Has(ApplyAll(observed, IdentitiesActions(observed, expected, managed)), k, m) <==>
                           Has(observed, k, m) || Has(expected, k, m)
  {
    ProjectActionsIff(observed, expected, managed, screens);
  }

  /** Given what holds after the actions, being clean is having no foreign member on a contract key. */
  lemma CleanAfterIff(observed: Grants, after: Grants, expected: Grants, managed: set<string>, screens: Screens)
    requires ProjectContract(expected, managed, screens) && ProjectClean(observed, expected, managed, screens)
    requires forall k, m :: Has(after, k, m) <==> Has(observed, k, m) || Has(expected, k, m)
    ensures ProjectClean(after, expected, managed, screens)
        <==> forall k, m | k in expected && Has(observed, k, m) :: m in expected[k]
    ensures ProjectClean(after, expected, managed, screens) ==> Matches(after, expected)
  {
    if forall k, m | k in expected && Has(observed, k, m) :: m in expected[k] {
      forall k | k in expected ensures k in after && after[k] == expected[k] {
        var m :| Has(expected, k, m);
        assert Has(after, k, m);
        forall n ensures n in after[k] <==> n in expected[k] {
          assert Has(after, k, n) <==> Has(observed, k, n) || Has(expected, k, n);
        }
      }
    }
    if ProjectClean(after, expected, managed, screens) {
      forall k, m | k in expected && Has(observed, k, m) ensures m in expected[k] {
        var n :| Has(expected, k, n);
        assert Has(after, k, n) && Has(after, k, m);
      }
    }
  }

  /** A ready project policy converges in one round exactly when no key of the contract carries
      a member that the contract does not give it. */
  lemma ProjectConverges(observed: Grants, expected: Grants, managed: set<string>, screens: Screens)
    requires ProjectContract(expected, managed, screens)
        && EvaluateProject(observed, expected, managed, screens).Ready()
    ensures var after := ApplyAll(observed, EvaluateProject(observed, expected, managed, screens).actions);
      Matches(after, expected) && EvaluateProject(after, expected, managed, screens).Settled()
      <==> forall k, m | k in expected && Has(observed, k, m) :: m in expected[k]
  {
    var after := ApplyAll(observed, IdentitiesActions(observed, expected, managed));
    NoBlockersIff(observed, expected, managed, screens);
    ProjectAfter(observed, expected, managed, screens);
    CleanAfterIff(observed, after, expected, managed, screens);
    ProjectSettledIff(after, expected, managed, screens);
  }

  lemma ForeignActions(observed: Grants, expected: Grants, managed: set<string>, screens: Screens, k: Key, f: string)
    requires ProjectContract(expected, managed, screens) && ProjectClean(observed, expected, managed, screens)
    requires k in expected && Has(observed, k, f) && f !in expected[k]
    ensures IdentitiesActions(observed, expected, managed) != {}
  {
    NoActionsIff(observed, expected, managed, screens);
    var m :| Has(expected, k, m);
    assert !Has(observed, k, m);
  }

  lemma ForeignUnclean(observed: Grants, expected: Grants, managed: set<string>, screens: Screens, k: Key, f: string)
    requires ProjectContract(expected, managed, screens) && ProjectClean(observed, expected, managed, screens)
    requires k in expected && Has(observed, k, f) && f !in expected[k]
    ensures var after := ApplyAll(observed, IdentitiesActions(observed, expected, managed));
      !ProjectClean(after, expected, managed, screens)
  {
    ProjectAfter(observed, expected, managed, screens);
    var after := ApplyAll(observed, IdentitiesActions(observed, expected, managed));
    CleanAfterIff(observed, after, expected, managed, screens);
  }

  /** The other side, for every input: if a contract key carries a foreign member, the ready
      verdict proposes bindings whose application turns the next verdict into a blocked one. */
  lemma ForeignMemberBlocks(observed: Grants, expected: Grants, managed: set<string>, screens: Screens, k: Key,
                            f: string)
    requires ProjectContract(expected, managed, screens)
        && EvaluateProject(observed, expected, managed, screens).Ready()
    requires k in expected && Has(observed, k, f) && f !in expected[k]
    ensures var v := EvaluateProject(observed, expected, managed, screens);
      v.actions != {} && !EvaluateProject(ApplyAll(observed, v.actions), expected, managed, screens).Ready()
  {
    ReadyClean(observed, expected, managed, screens);
    ForeignActions(observed, expected, managed, screens, k, f);
    ForeignUnclean(observed, expected, managed, screens, k, f);
    var after := ApplyAll(observed, IdentitiesActions(observed, expected, managed));
    if EvaluateProject(after, expected, managed, screens).Ready() { ReadyClean(after, expected, managed, screens); }
  }

  // ---- What each blocker and each action means ----

  lemma ScreenMeans(screens: Screens, role: string, m: string)
    ensures PublicMember in screens.Project(role, m) <==> m == "allUsers" || m == "allAuthenticatedUsers"
    ensures CrossProject in screens.Project(role, m) <==> screens.crossProject(m)
    ensures forall x, r :: WorkloadRole(x, r) in screens.Project(role, m) <==>
      x == m && r == role && screens.workload(m)
    ensures forall r :: ForbiddenRole(r) in screens.Project(role, m) <==>
      && r == role && r in screens.forbidden
      && (r == "roles/iap.httpsResourceAccessor" || r == "roles/run.invoker")
  {}

  /** Some grant gives rise to this blocker. */
  ghost predicate Seen(observed: Grants, screens: Screens, b: Blocker) {
    exists k, m | Has(observed, k, m) :: b in screens.Project(k.role, m)
  }

  lemma ScreenedIff(observed: Grants, expected: Grants, managed: set<string>, screens: Screens, b: Blocker)
    requires EvaluateProject(observed, expected, managed, screens).Verdict?
    requires b.PublicMember? || b.CrossProject? || b.WorkloadRole? || b.ForbiddenRole?
    ensures b in EvaluateProject(observed, expected, managed, screens).blockers <==> Seen(observed, screens, b)
  {
    forall m ensures b !in IdentityBlockers(observed, expected, managed, m) {}
    if k, m :| Has(observed, k, m) && b in screens.Project(k.role, m) {
      assert k in observed && m in observed[k];
    }
  }

  /** Public members are blocked wherever the project grants them anything, and only then. */
  lemma PublicBlocked(observed: Grants, expected: Grants, managed: set<string>, screens: Screens)
    requires EvaluateProject(observed, expected, managed, screens).Verdict?
    ensures PublicMember in EvaluateProject(observed, expected, managed, screens).blockers <==>
      exists k, m | Has(observed, k, m) :: m == "allUsers" || m == "allAuthenticatedUsers"
  {
    ScreenedIff(observed, expected, managed, screens, PublicMember);
    forall k: Key, m
      ensures PublicMember in screens.Project(k.role, m) <==> m == "allUsers" || m == "allAuthenticatedUsers"
    {
      ScreenMeans(screens, k.role, m);
    }
  }

  /** So are service accounts of other projects. */
  lemma CrossProjectBlocked(observed: Grants, expected: Grants, managed: set<string>, screens: Screens)
    requires EvaluateProject(observed, expected, managed, screens).Verdict?
    ensures CrossProject in EvaluateProject(observed, expected, managed, screens).blockers <==>
      exists k, m | Has(observed, k, m) :: screens.crossProject(m)
  {
    ScreenedIff(observed, expected, managed, screens, CrossProject);
    forall k: Key, m ensures CrossProject in screens.Project(k.role, m) <==> screens.crossProject(m) {
      ScreenMeans(screens, k.role, m);
    }
  }

  /** A workload account is blocked under each role it has. */
  lemma WorkloadBlocked(observed: Grants, expected: Grants, managed: set<string>, screens: Screens, m: string,
                        role: string)
    requires EvaluateProject(observed, expected, managed, screens).Verdict?
    ensures WorkloadRole(m, role) in EvaluateProject(observed, expected, managed, screens).blockers <==>
      screens.workload(m) && exists k | Has(observed, k, m) :: k.role == role
  {
    ScreenedIff(observed, expected, managed, screens, WorkloadRole(m, role));
    forall k: Key, x
      ensures WorkloadRole(m, role) in screens.Project(k.role, x) <==> x == m && role == k.role && screens.workload(m)
    {
      ScreenMeans(screens, k.role, x);
    }
  }

  /** Of the forbidden roles two are blocked, as soon as anybody has them. */
  lemma ForbiddenBlocked(observed: Grants, expected: Grants, managed: set<string>, screens: Screens, role: string)
    requires EvaluateProject(observed, expected, managed, screens).Verdict?
    ensures ForbiddenRole(role) in EvaluateProject(observed, expected, managed, screens).blockers <==>
      && role in screens.forbidden && (role == "roles/iap.httpsResourceAccessor" || role == "roles/run.invoker")
      && exists k, m | Has(observed, k, m) :: k.role == role
  {
    ScreenedIff(observed, expected, managed, screens, ForbiddenRole(role));
    forall k: Key, m
      ensures ForbiddenRole(role) in screens.Project(k.role, m) <==>
        && role == k.role && role in screens.forbidden
        && (role == "roles/iap.httpsResourceAccessor" || role == "roles/run.invoker")
    {
      ScreenMeans(screens, k.role, m);
    }
  }

  lemma FirstRoleIff(keys: set<Key>, role: string)
    requires keys != {}
    ensures role == FirstRole(keys) <==>
      (exists k | k in keys :: k.role == role) && forall k | k in keys :: Before(role, k.role)
  {
    var first := FirstRole(keys);
    var f :| f in keys && f.role == first;
    if k :| k in keys && k.role == role && forall j | j in keys :: Before(role, j.role) { BeforeTotal(role, first); }
  }

  lemma FirstUnexpected(observed: Grants, expected: Grants, m: string, role: string)
    ensures IdentityUnexpectedRole(m, role) in IdentityUnexpected(m, KeysOf(observed, m) - KeysOf(expected, m)) <==>
      && (exists k | Has(observed, k, m) && !Has(expected, k, m) :: k.role == role)
      && forall k | Has(observed, k, m) && !Has(expected, k, m) :: Before(role, k.role)
  {
    var extra := KeysOf(observed, m) - KeysOf(expected, m);
    assert forall k :: k in extra <==> Has(observed, k, m) && !Has(expected, k, m);
    if extra != {} { FirstRoleIff(extra, role); }
  }

  /** A managed identity with a role that the contract does not give it is blocked, under the first such role. */
  lemma UnexpectedRoleBlocked(observed: Grants, expected: Grants, managed: set<string>, screens: Screens, m: string,
                              role: string)
    requires EvaluateProject(observed, expected, managed, screens).Verdict?
    ensures IdentityUnexpectedRole(m, role) in EvaluateProject(observed, expected, managed, screens).blockers <==>
      && m in managed
      && (exists k | Has(observed, k, m) && !Has(expected, k, m) :: k.role == role)
      && forall k | Has(observed, k, m) && !Has(expected, k, m) :: Before(role, k.role)
  {
    var b := IdentityUnexpectedRole(m, role);
    forall n ensures b in IdentityBlockers(observed, expected, managed, n) <==>
        n == m && b in IdentityUnexpected(m, KeysOf(observed, m) - KeysOf(expected, m))
    {}
    forall k: Key, x ensures b !in screens.Project(k.role, x) {}
    assert b !in ProjectScreened(observed, screens);
    assert b in IdentitiesBlockers(observed, expected, managed, managed) <==>
      m in managed && b in IdentityBlockers(observed, expected, managed, m);
    FirstUnexpected(observed, expected, m, role);
  }

  /** A key that a managed identity should have, and has with other members than the contract's: the first managed
      one among the extra members is named, and if there is none, the drift is reported for each identity. */
  lemma DriftBlocked(observed: Grants, expected: Grants, managed: set<string>, screens: Screens, k: Key, m: string)
    requires EvaluateProject(observed, expected, managed, screens).Verdict?
    requires m in managed && Has(observed, k, m) && Has(expected, k, m) && observed[k] != expected[k]
    ensures var bs := EvaluateProject(observed, expected, managed, screens).blockers;
      if exists x :: x in managed && x in observed[k] && x !in expected[k] then
        exists x | x in managed && x in observed[k] && x !in expected[k] :: ExtraManagedMember(k, x) in bs
      else IdentityMembersDrift(m, k) in bs
  {
    var extra := (observed[k] - expected[k]) * managed;
    assert k in KeysOf(observed, m) * KeysOf(expected, m);
    assert KeyBlocker(m, k, extra) in IdentityBlockers(observed, expected, managed, m);
    if extra == {} {
      assert forall x | x in managed && x in observed[k] && x !in expected[k] :: x in extra;
    } else {
      assert Least(extra) in extra;
    }
  }

  /** What is proposed for the project: each binding of the contract that a managed identity lacks, with its
      condition if that has both parts. */
  lemma ProjectProposals(observed: Grants, expected: Grants, managed: set<string>, screens: Screens, a: Action)
    requires EvaluateProject(observed, expected, managed, screens).Verdict?
    ensures a in EvaluateProject(observed, expected, managed, screens).actions <==>
      && a.member in managed
      && exists k | Has(expected, k, a.member) && !Has(observed, k, a.member) ::
           a.key == if k.title.Some? && k.expression.Some? then k else Key(k.role, None, None)
  {
    var m := a.member;
    if k :| Has(expected, k, m) && !Has(observed, k, m) && a.key == BoundKey(k) {
      assert k in KeysOf(expected, m) - KeysOf(observed, m) && a == Action(BoundKey(k), m);
      assert a in IdentityActions(observed, expected, m);
    }
    if a in IdentitiesActions(observed, expected, managed) {
      var n :| n in managed && a in IdentityActions(observed, expected, n);
      var k :| k in KeysOf(expected, n) - KeysOf(observed, n) && Action(BoundKey(k), n) == a;
      assert Has(expected, k, n) && !Has(observed, k, n);
    }
  }

  /** What is reported for one resource: what its screen says of the members, drift on the keys of the contract,
      and the first of the other roles. */
  lemma SectionMeans(observed: Grants, expected: Grants, screen: string -> set<Blocker>, b: Blocker)
    requires EvaluateSection(observed, expected, screen).Verdict?
    ensures b in EvaluateSection(observed, expected, screen).blockers <==>
      || (exists k, m | Has(observed, k, m) :: b in screen(m))
      || (b.MembersDrift? && b.key in observed && b.key in expected && observed[b.key] != expected[b.key])
      || (b.UnexpectedRole? && (exists k | k in observed && k !in expected :: k.role == b.role)
          && forall k | k in observed && k !in expected :: Before(b.role, k.role))
  {
    var extra := observed.Keys - expected.Keys;
    if extra != {} && b.UnexpectedRole? { FirstRoleIff(extra, b.role); }
    assert forall k :: k in extra <==> k in observed && k !in expected;
    if k, m :| Has(observed, k, m) && b in screen(m) { assert k in observed && m in observed[k]; }
    if b in Screened(observed, observed.Keys, screen) {
      var k, m :| k in observed && m in observed[k] && b in screen(m);
      assert Has(observed, k, m);
    }
  }

  /** What is proposed for one resource: the members of each missing role, without any condition. */
  lemma SectionProposals(observed: Grants, expected: Grants, screen: string -> set<Blocker>, a: Action)
    requires EvaluateSection(observed, expected, screen).Verdict?
    ensures a in EvaluateSection(observed, expected, screen).actions <==>
      && a.key.title.None? && a.key.expression.None?
      && exists k | k in expected && k !in observed :: k.role == a.key.role && a.member in expected[k]
  {
    if a.key == Unconditioned(a.key) {
      if k :| k in expected && k !in observed && k.role == a.key.role && a.member in expected[k] {
        assert a == Action(Unconditioned(k), a.member) && k in expected.Keys - observed.Keys;
      }
    }
  }

  /** A service account's policy: a public member, or an account of another project, is blocked. */
  lemma ResourceScreenMeans(screens: Screens, m: string)
    ensures PublicMember in screens.Resource(m) <==> m == "allUsers" || m == "allAuthenticatedUsers"
    ensures CrossProject in screens.Resource(m) <==> screens.crossProject(m)
  {}

  /** Two of these keys are compared, and the comparison raises. */
  ghost predicate Clash(keys: set<Key>) { exists a, b | a in keys && b in keys :: KeyBefore(a, b).None? }

  /** The evaluation of the project raises exactly if, for some managed identity, the keys it should not have or
      those it lacks cannot be sorted. */
  lemma ProjectRaisesIff(observed: Grants, expected: Grants, managed: set<string>, screens: Screens)
    ensures EvaluateProject(observed, expected, managed, screens) == Crashed <==>
      exists m | m in managed ::
        || Clash(set k | k in observed && Has(observed, k, m) && !Has(expected, k, m))
        || Clash(set k | k in expected && Has(expected, k, m) && !Has(observed, k, m))
  {
    forall m
      ensures Sortable(observed, expected, m) <==>
        && !Clash(set k | k in observed && Has(observed, k, m) && !Has(expected, k, m))
        && !Clash(set k | k in expected && Has(expected, k, m) && !Has(observed, k, m))
    {
      ComparableIff(KeysOf(observed, m) - KeysOf(expected, m));
      ComparableIff(KeysOf(expected, m) - KeysOf(observed, m));
      assert (set k | k in observed && Has(observed, k, m) && !Has(expected, k, m))
          == KeysOf(observed, m) - KeysOf(expected, m);
      assert (set k | k in expected && Has(expected, k, m) && !Has(observed, k, m))
          == KeysOf(expected, m) - KeysOf(observed, m);
    }
  }

  /** That of a resource raises exactly if all its keys, or those the contract has beyond them, cannot be. */
  lemma SectionRaisesIff(observed: Grants, expected: Grants, screen: string -> set<Blocker>)
    ensures EvaluateSection(observed, expected, screen) == Crashed <==>
      Clash(observed.Keys) || Clash(set k | k in expected && k !in observed)
  {
    ComparableIff(observed.Keys);
    ComparableIff(expected.Keys - observed.Keys);
    assert (set k | k in expected && k !in observed) == expected.Keys - observed.Keys;
  }
}

/** Cost enforcement pauses every running resource in scope, one at a time: take the effect
    outside the store, save with a version check, append an audit event whose id is computed
    from its content. It can stop at any call, with or without that call's effect. */
module CostEnforcement {
  import opened Prelude
  import opened Text

  /** Identifiers, in the order of their texts. */
  type Id = int

  datatype Ref = OfWorkload(id: Id) | OfSchedule(id: Id)

  datatype State = Planned | Active | Enabled | Disabled | Paused | Failed | Quarantined | Archived

  /** `runs` is the workload that a schedule starts. */
  datatype Resource = Resource(owner: string, state: State, version: nat, runs: Option<Id>)

  type Resources = map<Ref, Resource>

  /** The basis is a set because the source sorts it and refuses duplicates. */
  datatype Decision = Decision(scope: Option<string>, level: string, percent: Option<nat>, basis: set<string>,
                               key: string)

  datatype Subject = Policy(scope: Option<string>) | Changed(ref: Ref, before: (State, nat), after: (State, nat))

  /** Everything that is hashed into an audit id. */
  datatype EventId = EventId(action: string, subject: Subject, decision: Decision)

  /** The fields that must agree when an event with the same id is already there. */
  datatype Event = Event(id: EventId, actor: Option<string>, outcome: string)

  /** `removed` records the calls that took effect outside the store. `faults` says how the
      next calls end; once it is used up they all succeed. */
  datatype World = World(resources: Resources, audits: map<EventId, Event>, removed: set<(Ref, nat)>,
                         faults: seq<Outcome>)
  {
    function Next(): Outcome { if faults == [] then Done else faults[0] }
    function Called(): World { if faults == [] then this else this.(faults := faults[1..]) }
  }

  datatype Attempt = Attempt(world: World, ok: bool)

  // ---- Which resources ----

  predicate Before(a: Ref, b: Ref) {
    if a.OfWorkload? == b.OfWorkload? then a.id < b.id else a.OfWorkload?
  }

  predicate IsLeast(s: set<Ref>, m: Ref) { m in s && forall x | x in s && x != m :: Before(m, x) }

  lemma {:induction false} LeastExists(s: set<Ref>)
    requires s != {}
    ensures exists m :: IsLeast(s, m)
    decreases |s|
  {
    var a :| a in s;
    if s - {a} == {} {
      assert s == {a};
      assert IsLeast(s, a);
    } else {
      LeastExists(s - {a});
      var b :| IsLeast(s - {a}, b);
      var m := if Before(a, b) then a else b;
      forall x | x in s && x != m ensures Before(m, x) {
        if x != a { assert x in s - {a}; }
      }
      assert IsLeast(s, m);
    }
  }

  function Least(s: set<Ref>): (m: Ref)
    requires s != {}
    ensures IsLeast(s, m)
  {
    LeastExists(s);
    var m :| IsLeast(s, m);
    m
  }

  /** The listing in the order of the ids. */
  function Sorted(s: set<Ref>): (r: seq<Ref>)
    ensures forall x :: x in r <==> x in s
    ensures forall i, j | 0 <= i < j < |r| :: Before(r[i], r[j])
    decreases |s|
  {
    if s == {} then [] else [Least(s)] + Sorted(s - {Least(s)})
  }

  predicate InScope(res: Resources, scope: Option<string>, r: Ref) {
    r in res && (scope.None? || res[r].owner == scope.value)
  }

  function WorkloadList(res: Resources, scope: Option<string>): seq<Ref> {
    Sorted(set r | r in res && r.OfWorkload? && InScope(res, scope, r))
  }

  function ScheduleList(res: Resources, scope: Option<string>): seq<Ref> {
    Sorted(set r | r in res && r.OfSchedule? && InScope(res, scope, r))
  }

  /** Workloads first, each kind in the order of its ids. */
  function Listing(res: Resources, scope: Option<string>): seq<Ref> {
    WorkloadList(res, scope) + ScheduleList(res, scope)
  }

  predicate NoDuplicates(refs: seq<Ref>) { forall i, j | 0 <= i < j < |refs| :: refs[i] != refs[j] }

  lemma ListingExact(res: Resources, scope: Option<string>)
    ensures forall r :: r in Listing(res, scope) <==> InScope(res, scope, r)
    ensures NoDuplicates(Listing(res, scope))
  {
    var ws, ss := WorkloadList(res, scope), ScheduleList(res, scope);
    forall i, j | 0 <= i < j < |ws + ss| ensures (ws + ss)[i] != (ws + ss)[j] {
      if j < |ws| {
        assert Before(ws[i], ws[j]);
      } else if i < |ws| {
        assert ws[i] in ws && ss[j - |ws|] in ss;
      } else {
        assert Before(ss[i - |ws|], ss[j - |ws|]);
      }
    }
  }

  /** A schedule whose workload is not in scope, or belongs to someone else. */
  predicate Bad(res: Resources, scope: Option<string>, r: Ref) {
    r.OfSchedule? && r in res &&
    !(res[r].runs.Some? && InScope(res, scope, OfWorkload(res[r].runs.value))
        && res[OfWorkload(res[r].runs.value)].owner == res[r].owner)
  }

  /** A schedule that makes an attempt raise: no workload in scope, of the same owner, is the one it runs. */
  lemma BadIff(res: Resources, scope: Option<string>, r: Ref)
    ensures Bad(res, scope, r) <==>
      && r in res && r.OfSchedule?
      && !exists k | k in res :: k.OfWorkload? && res[r].runs == Some(k.id) && res[k].owner == res[r].owner
           && (scope == None || scope == Some(res[k].owner))
  {
    if r in res && r.OfSchedule? && res[r].runs.Some? {
      assert forall k: Ref | k.OfWorkload? && k.id == res[r].runs.value :: k == OfWorkload(res[r].runs.value);
    }
  }

  predicate RunsArchived(res: Resources, r: Ref) {
    r in res && res[r].runs.Some? && OfWorkload(res[r].runs.value) in res
        && res[OfWorkload(res[r].runs.value)].state.Archived?
  }

  predicate Eligible(res: Resources, r: Ref) {
    r in res && match r
      case OfWorkload(_) => res[r].state.Active?
      case OfSchedule(_) => res[r].state.Enabled? && !RunsArchived(res, r)
  }

  function Pause(x: Resource): Resource { x.(state := Paused, version := x.version + 1) }

  // ---- One call, one resource, all resources ----

  function PolicyEvent(d: Decision): EventId {
    EventId((if d.scope.None? then "cost_policy_org_" else "cost_policy_") + d.level, Policy(d.scope), d)
  }

  function PauseEvent(r: Ref, x: Resource, d: Decision): EventId {
    EventId(if r.OfWorkload? then "cost_policy_pause_workload" else "cost_policy_pause_schedule",
            Changed(r, (x.state, x.version), (Paused, x.version + 1)), d)
  }

  function Recorded(id: EventId): Event { Event(id, None, "recorded") }

  function Append(w: World, id: EventId): Attempt {
    var o, w1 := w.Next(), w.Called();
    if o.Raised? then Attempt(w1, false)
    else if id in w.audits then Attempt(w1, o.Done? && w.audits[id] == Recorded(id))
    else Attempt(w1.(audits := w.audits[id := Recorded(id)]), o.Done?)
  }

  /** `snap` is what the store listed when the attempt began. */
  function Save(w: World, snap: Resources, r: Ref): Attempt
    requires r in snap
  {
    var o, w1 := w.Next(), w.Called();
    if o.Raised? || r !in w.resources || w.resources[r].version != snap[r].version then Attempt(w1, false)
    else Attempt(w1.(resources := w.resources[r := Pause(snap[r])]), o.Done?)
  }

  function Remove(w: World, snap: Resources, r: Ref): Attempt
    requires r in snap
  {
    var o, w1 := w.Next(), w.Called();
    Attempt(if o.Raised? then w1 else w1.(removed := w.removed + {(r, snap[r].version)}), o.Done?)
  }

  function PauseOne(w: World, snap: Resources, r: Ref, d: Decision): Attempt {
    if !Eligible(snap, r) then Attempt(w, true) else
    var a := Remove(w, snap, r);
    if !a.ok then a else
    var b := Save(a.world, snap, r);
    if !b.ok then b else Append(b.world, PauseEvent(r, snap[r], d))
  }

  function PauseList(w: World, snap: Resources, refs: seq<Ref>, d: Decision): Attempt
    decreases |refs|
  {
    if refs == [] then Attempt(w, true)
    else if Bad(snap, d.scope, refs[0]) then Attempt(w, false)
    else
      var a := PauseOne(w, snap, refs[0], d);
      if !a.ok then a else PauseList(a.world, snap, refs[1..], d)
  }

  /** One call of the adapter that decided to pause. */
  function Enforce(w: World, d: Decision): Attempt {
    var a := Append(w, PolicyEvent(d));
    if !a.ok then a else PauseList(a.world, w.resources, Listing(w.resources, d.scope), d)
  }

  // ---- What an attempt does to the list ----

  /** The same resources with the same owners, schedules and archived workloads. */
  predicate SameShape(res: Resources, res': Resources) {
    && res.Keys == res'.Keys
    && forall r | r in res ::
      && res'[r].owner == res[r].owner
      && res'[r].runs == res[r].runs
      && (res'[r].state.Archived? <==> res[r].state.Archived?)
  }

  /** The part of the list before the first schedule that cannot be paused. */
  function Sane(res: Resources, scope: Option<string>, refs: seq<Ref>): (p: seq<Ref>)
    ensures forall r | r in p :: r in refs
    decreases |refs|
  {
    if refs == [] || Bad(res, scope, refs[0]) then [] else [refs[0]] + Sane(res, scope, refs[1..])
  }

  /** `w` still holds what was listed, for every resource of the list. */
  predicate Untouched(w: World, snap: Resources, refs: seq<Ref>) {
    forall r | r in refs :: r in snap && r in w.resources && w.resources[r] == snap[r]
  }

  /** Resource `r` of the list, after an attempt over it. */
  predicate Handled(w: World, snap: Resources, scope: Option<string>, refs: seq<Ref>, r: Ref) {
    && r in snap && r in w.resources
    && (w.resources[r] == snap[r]
        || (r in Sane(snap, scope, refs) && Eligible(snap, r)
            && w.resources[r] == Pause(snap[r]) && (r, snap[r].version) in w.removed))
  }

  /** Paused, with the audit event. */
  predicate Settled(w: World, snap: Resources, r: Ref, d: Decision) {
    Eligible(snap, r) ==>
      && r in w.resources && w.resources[r] == Pause(snap[r])
      && PauseEvent(r, snap[r], d) in w.audits
      && w.audits[PauseEvent(r, snap[r], d)] == Recorded(PauseEvent(r, snap[r], d))
  }

  predicate Extends(w: World, w': World) {
    && (forall id | id in w.audits :: id in w'.audits && w'.audits[id] == w.audits[id])
    && w.removed <= w'.removed
    && |w'.faults| <= |w.faults|
    && w.resources.Keys == w'.resources.Keys
  }

  /** Nobody else wrote another event under this id, so the adapter can append its own. */
  predicate Fine(w: World, id: EventId) { id in w.audits ==> w.audits[id] == Recorded(id) }

  ghost predicate SameFine(w: World, w': World) { forall id :: Fine(w, id) <==> Fine(w', id) }

  lemma SaveFrame(w: World, snap: Resources, r: Ref)
    requires r in snap && r in w.resources && w.resources[r] == snap[r]
    ensures var a := Save(w, snap, r);
      && Extends(w, a.world) && a.world.audits == w.audits && a.world.removed == w.removed
      && (a.world.resources == w.resources || a.world.resources == w.resources[r := Pause(snap[r])])
      && (a.ok ==> a.world.resources[r] == Pause(snap[r]))
      && (w.faults == [] ==> a.ok)
  {}

  lemma AppendFrame(w: World, id: EventId)
    ensures var a := Append(w, id);
      && Extends(w, a.world) && a.world.resources == w.resources && a.world.removed == w.removed
      && (a.ok ==> id in a.world.audits && a.world.audits[id] == Recorded(id))
      && SameFine(w, a.world) && (w.faults == [] ==> (a.ok <==> Fine(w, id)) && a.world.faults == [])
  {}

  lemma RemoveFrame(w: World, snap: Resources, r: Ref)
    requires r in snap
    ensures var a := Remove(w, snap, r);
      && Extends(w, a.world) && a.world.audits == w.audits && a.world.resources == w.resources
      && (a.ok ==> (r, snap[r].version) in a.world.removed)
      && (w.faults == [] ==> a.ok)
  {}

  /** One resource: nothing else changes, and it is paused only if eligible and only after the
      effect outside the store. */
  lemma OneFrame(w: World, snap: Resources, r: Ref, d: Decision)
    requires r in snap && r in w.resources && w.resources[r] == snap[r]
    ensures var a := PauseOne(w, snap, r, d);
      && Extends(w, a.world)
      && (forall x | x in w.resources && x != r :: a.world.resources[x] == w.resources[x])
      && (a.world.resources[r] == snap[r]
          || (Eligible(snap, r) && a.world.resources[r] == Pause(snap[r]) && (r, snap[r].version) in a.world.removed))
      && (a.ok ==> Settled(a.world, snap, r, d))
      && SameFine(w, a.world)
  {
    if Eligible(snap, r) {
      RemoveFrame(w, snap, r);
      var a := Remove(w, snap, r);
      if a.ok {
        SaveFrame(a.world, snap, r);
        var b := Save(a.world, snap, r);
        if b.ok { AppendFrame(b.world, PauseEvent(r, snap[r], d)); }
      }
    }
  }

  /** Without faults an eligible resource is paused, and only another event under its audit id makes it raise. */
  lemma OneFaultless(w: World, snap: Resources, r: Ref, d: Decision)
    requires r in snap && r in w.resources && w.resources[r] == snap[r] && w.faults == []
    ensures var a := PauseOne(w, snap, r, d);
      && a.world.faults == []
      && (a.ok <==> !Eligible(snap, r) || Fine(w, PauseEvent(r, snap[r], d)))
      && (Eligible(snap, r) ==> r in a.world.resources && a.world.resources[r] == Pause(snap[r]))
  {
    if Eligible(snap, r) {
      var a := Remove(w, snap, r);
      RemoveFrame(w, snap, r);
      SaveFrame(a.world, snap, r);
      var b := Save(a.world, snap, r);
      AppendFrame(b.world, PauseEvent(r, snap[r], d));
    }
  }

  lemma {:induction false} ListFrame(w: World, snap: Resources, refs: seq<Ref>, d: Decision)
    requires Untouched(w, snap, refs) && NoDuplicates(refs)
    ensures var w' := PauseList(w, snap, refs, d).world;
      && Extends(w, w') && SameFine(w, w')
      && (forall x | x in w.resources && x !in refs :: w'.resources[x] == w.resources[x])
      && (forall r | r in refs :: Handled(w', snap, d.scope, refs, r))
    decreases |refs|
  {
    if refs != [] && !Bad(snap, d.scope, refs[0]) {
      var r := refs[0];
      assert forall k | 0 < k < |refs| :: refs[k] != refs[0];
      OneFrame(w, snap, r, d);
      var a := PauseOne(w, snap, r, d);
      if a.ok {
        ListFrame(a.world, snap, refs[1..], d);
        assert r !in refs[1..];
        var w' := PauseList(w, snap, refs, d).world;
        forall x | x in refs ensures Handled(w', snap, d.scope, refs, x) {
          if x != r { assert x in refs[1..] && Handled(w', snap, d.scope, refs[1..], x); }
        }
      } else {
        forall x | x in refs && x != r ensures a.world.resources[x] == snap[x] { }
      }
    }
  }

  /** An attempt over the list that returns has settled every resource in it. */
  lemma {:induction false} ListSettles(w: World, snap: Resources, refs: seq<Ref>, d: Decision)
    requires Untouched(w, snap, refs) && NoDuplicates(refs)
    ensures var a := PauseList(w, snap, refs, d);
      a.ok ==> Sane(snap, d.scope, refs) == refs && forall r | r in refs :: Settled(a.world, snap, r, d)
    decreases |refs|
  {
    if refs != [] && PauseList(w, snap, refs, d).ok {
      var a := PauseOne(w, snap, refs[0], d);
      assert forall k | 0 < k < |refs| :: refs[k] != refs[0];
      OneFrame(w, snap, refs[0], d);
      ListFrame(a.world, snap, refs[1..], d);
      ListSettles(a.world, snap, refs[1..], d);
      assert refs == [refs[0]] + refs[1..];
      var w' := PauseList(w, snap, refs, d).world;
      forall r | r in refs ensures Settled(w', snap, r, d) {
        if r != refs[0] { assert r in refs[1..]; }
      }
    }
  }

  /** The resources that were changed without their audit event. */
  ghost function Lost(res: Resources, w: World, refs: set<Ref>, d: Decision): set<Ref> {
    set r | r in refs && r in res && r in w.resources && w.resources[r] != res[r]
        && PauseEvent(r, res[r], d) !in w.audits
  }

  function SetOf(refs: seq<Ref>): set<Ref> { set r | r in refs }

  lemma NoneLost(snap: Resources, w: World, refs: seq<Ref>, d: Decision, r: Ref)
    requires refs != [] && refs[0] == r && (Settled(w, snap, r, d) || !Eligible(snap, r))
    requires r in snap && r in w.resources && (w.resources[r] == snap[r] || Eligible(snap, r))
    ensures Lost(snap, w, SetOf(refs), d) == Lost(snap, w, SetOf(refs[1..]), d)
  {
    assert forall x :: x in refs <==> x == r || x in refs[1..];
  }

  lemma OneLost(snap: Resources, w: World, refs: seq<Ref>, d: Decision, r: Ref)
    requires forall x | x in refs && x != r && x in snap && x in w.resources :: w.resources[x] == snap[x]
    ensures |Lost(snap, w, SetOf(refs), d)| <= 1
  {
    var lost := Lost(snap, w, SetOf(refs), d);
    assert lost == {} || lost == {r};
  }

  /** The save comes before the audit, so an attempt can lose one event; one that returns loses none. */
  lemma {:induction false} ListLoses(w: World, snap: Resources, refs: seq<Ref>, d: Decision)
    requires Untouched(w, snap, refs) && NoDuplicates(refs)
    ensures var a := PauseList(w, snap, refs, d);
      |Lost(snap, a.world, SetOf(refs), d)| <= 1 && (a.ok ==> Lost(snap, a.world, SetOf(refs), d) == {})
    decreases |refs|
  {
    if refs == [] || Bad(snap, d.scope, refs[0]) {
      assert Lost(snap, w, SetOf(refs), d) == {};
    } else {
      var r := refs[0];
      assert forall k | 0 < k < |refs| :: refs[k] != r;
      OneFrame(w, snap, r, d);
      var b := PauseOne(w, snap, r, d);
      if b.ok {
        var w' := PauseList(b.world, snap, refs[1..], d).world;
        ListFrame(b.world, snap, refs[1..], d);
        ListLoses(b.world, snap, refs[1..], d);
        NoneLost(snap, w', refs, d, r);
      } else {
        OneLost(snap, b.world, refs, d, r);
      }
    }
  }

  predicate NoneEligible(snap: Resources, refs: seq<Ref>) { forall r | r in refs :: !Eligible(snap, r) }

  predicate FineFor(w: World, snap: Resources, r: Ref, d: Decision) {
    Eligible(snap, r) ==> Fine(w, PauseEvent(r, snap[r], d))
  }

  predicate AllFine(w: World, snap: Resources, refs: seq<Ref>, d: Decision) {
    forall r | r in refs :: FineFor(w, snap, r, d)
  }

  /** No eligible resource comes after one whose audit id is taken: the audit stops the attempt there. */
  predicate Passable(w: World, snap: Resources, refs: seq<Ref>, d: Decision)
    decreases |refs|
  {
    refs == [] ||
    if FineFor(w, snap, refs[0], d) then Passable(w, snap, refs[1..], d) else NoneEligible(snap, refs[1..])
  }

  predicate AllPaused(w: World, snap: Resources, refs: seq<Ref>) {
    forall r | r in refs && Eligible(snap, r) :: r in w.resources && w.resources[r] == Pause(snap[r])
  }

  lemma SameFineList(w: World, w': World, snap: Resources, refs: seq<Ref>, d: Decision)
    requires SameFine(w, w')
    ensures AllFine(w, snap, refs, d) <==> AllFine(w', snap, refs, d)
    ensures Passable(w, snap, refs, d) <==> Passable(w', snap, refs, d)
    decreases |refs|
  {
    if refs != [] {
      assert FineFor(w, snap, refs[0], d) <==> FineFor(w', snap, refs[0], d);
      SameFineList(w, w', snap, refs[1..], d);
    }
    assert forall r :: FineFor(w, snap, r, d) <==> FineFor(w', snap, r, d);
  }

  lemma SaneCons(snap: Resources, scope: Option<string>, refs: seq<Ref>)
    requires refs != [] && !Bad(snap, scope, refs[0])
    ensures var sane, tail := Sane(snap, scope, refs), Sane(snap, scope, refs[1..]);
      && sane == [refs[0]] + tail && sane[1..] == tail && (sane == refs <==> tail == refs[1..])
      && (forall x :: x in sane <==> x == refs[0] || x in tail)
  {
    assert refs == [refs[0]] + refs[1..];
  }

  lemma HeadApart(refs: seq<Ref>)
    requires NoDuplicates(refs) && refs != []
    ensures refs[0] !in refs[1..] && NoDuplicates(refs[1..])
  {}

  /** Without faults the list ends well exactly if no schedule is bad and no audit id is taken. */
  lemma {:induction false} FaultlessOk(w: World, snap: Resources, refs: seq<Ref>, d: Decision)
    requires Untouched(w, snap, refs) && NoDuplicates(refs) && w.faults == []
    ensures PauseList(w, snap, refs, d).ok <==>
      Sane(snap, d.scope, refs) == refs && AllFine(w, snap, Sane(snap, d.scope, refs), d)
    decreases |refs|
  {
    if refs != [] && !Bad(snap, d.scope, refs[0]) {
      var a := PauseOne(w, snap, refs[0], d);
      SaneCons(snap, d.scope, refs);
      HeadApart(refs);
      OneFrame(w, snap, refs[0], d);
      OneFaultless(w, snap, refs[0], d);
      if a.ok {
        FaultlessOk(a.world, snap, refs[1..], d);
        SameFineList(w, a.world, snap, Sane(snap, d.scope, refs[1..]), d);
      }
    }
  }

  /** It pauses all it should exactly if nothing eligible comes after a taken audit id. */
  lemma {:induction false} FaultlessPaused(w: World, snap: Resources, refs: seq<Ref>, d: Decision)
    requires Untouched(w, snap, refs) && NoDuplicates(refs) && w.faults == []
    ensures AllPaused(PauseList(w, snap, refs, d).world, snap, Sane(snap, d.scope, refs))
       <==> Passable(w, snap, Sane(snap, d.scope, refs), d)
    decreases |refs|
  {
    if refs != [] && !Bad(snap, d.scope, refs[0]) {
      var a, tail := PauseOne(w, snap, refs[0], d), Sane(snap, d.scope, refs[1..]);
      SaneCons(snap, d.scope, refs);
      HeadApart(refs);
      OneFrame(w, snap, refs[0], d);
      OneFaultless(w, snap, refs[0], d);
      if a.ok {
        FaultlessPaused(a.world, snap, refs[1..], d);
        ListFrame(a.world, snap, refs[1..], d);
        SameFineList(w, a.world, snap, tail, d);
      } else {
        assert forall x | x in tail :: a.world.resources[x] == snap[x];
      }
    }
  }

  /** It pauses at least something if there is something. */
  lemma {:induction false} FaultlessMoves(w: World, snap: Resources, refs: seq<Ref>, d: Decision)
    requires Untouched(w, snap, refs) && NoDuplicates(refs) && w.faults == []
    ensures var w' := PauseList(w, snap, refs, d).world; var sane := Sane(snap, d.scope, refs);
      NoneEligible(snap, sane) || exists r | r in sane :: r in w'.resources && w'.resources[r] != snap[r]
    decreases |refs|
  {
    if refs != [] && !Bad(snap, d.scope, refs[0]) {
      var a := PauseOne(w, snap, refs[0], d);
      SaneCons(snap, d.scope, refs);
      HeadApart(refs);
      OneFrame(w, snap, refs[0], d);
      OneFaultless(w, snap, refs[0], d);
      if a.ok {
        ListFrame(a.world, snap, refs[1..], d);
        if !Eligible(snap, refs[0]) { FaultlessMoves(a.world, snap, refs[1..], d); }
      }
    }
  }

  // ---- Interruption and retry ----

  /** What the store should hold in the end, computed from what it holds now. */
  function Target(res: Resources, scope: Option<string>): Resources {
    map r | r in res :: if r in Sane(res, scope, Listing(res, scope)) && Eligible(res, r) then Pause(res[r]) else res[r]
  }

  /** `r` is as it was, or it was eligible and has been paused after its effect. */
  predicate Touched(w: World, w': World, scope: Option<string>, r: Ref) {
    && r in w.resources && r in w'.resources
    && (w'.resources[r] == w.resources[r]
        || (InScope(w.resources, scope, r) && Eligible(w.resources, r)
            && w'.resources[r] == Pause(w.resources[r]) && (r, w.resources[r].version) in w'.removed))
  }

  lemma EnforceFrame(w: World, d: Decision)
    ensures var w' := Enforce(w, d).world; Extends(w, w') && (forall r | r in w.resources :: Touched(w, w', d.scope, r))
    ensures var w' := Enforce(w, d).world; forall r | r in w.resources && w'.resources[r] != w.resources[r] ::
      r in Sane(w.resources, d.scope, Listing(w.resources, d.scope)) && Eligible(w.resources, r)
  {
    var refs := Listing(w.resources, d.scope);
    ListingExact(w.resources, d.scope);
    AppendFrame(w, PolicyEvent(d));
    var a := Append(w, PolicyEvent(d));
    ListFrame(a.world, w.resources, refs, d);
    if a.ok {
      var w' := Enforce(w, d).world;
      forall r | r in w.resources ensures Touched(w, w', d.scope, r) {
        if r in refs { assert Handled(w', w.resources, d.scope, refs, r); }
      }
    }
  }

  lemma {:induction false} SameSane(res: Resources, res': Resources, scope: Option<string>, refs: seq<Ref>)
    requires SameShape(res, res')
    ensures Sane(res', scope, refs) == Sane(res, scope, refs)
    decreases |refs|
  {
    if refs != [] {
      assert Bad(res', scope, refs[0]) == Bad(res, scope, refs[0]);
      SameSane(res, res', scope, refs[1..]);
    }
  }

  lemma SameListing(res: Resources, res': Resources, scope: Option<string>)
    requires SameShape(res, res')
    ensures Listing(res', scope) == Listing(res, scope)
  {
    assert (set r | r in res' && r.OfWorkload? && InScope(res', scope, r))
        == set r | r in res && r.OfWorkload? && InScope(res, scope, r);
    assert (set r | r in res' && r.OfSchedule? && InScope(res', scope, r))
        == set r | r in res && r.OfSchedule? && InScope(res, scope, r);
  }

  lemma EnforceShape(w: World, d: Decision)
    ensures SameShape(w.resources, Enforce(w, d).world.resources)
  {
    EnforceFrame(w, d);
    var w' := Enforce(w, d).world;
    forall r | r in w.resources
      ensures w'.resources[r].owner == w.resources[r].owner && w'.resources[r].runs == w.resources[r].runs
      ensures w'.resources[r].state.Archived? <==> w.resources[r].state.Archived?
    {
      assert Touched(w, w', d.scope, r);
    }
  }

  /** However an attempt ends, it does not move the target. */
  lemma TargetKept(w: World, d: Decision)
    ensures Target(Enforce(w, d).world.resources, d.scope) == Target(w.resources, d.scope)
  {
    var res, res' := w.resources, Enforce(w, d).world.resources;
    EnforceFrame(w, d);
    EnforceShape(w, d);
    SameListing(res, res', d.scope);
    SameSane(res, res', d.scope, Listing(res, d.scope));
    forall r | r in res ensures Target(res', d.scope)[r] == Target(res, d.scope)[r] {
      assert Touched(w, Enforce(w, d).world, d.scope, r);
      assert RunsArchived(res', r) == RunsArchived(res, r);
    }
  }

  // What one decision meets: taken audit ids, bad schedules.

  predicate PolicyFine(w: World, d: Decision) { Fine(w, PolicyEvent(d)) }

  ghost predicate NoBad(res: Resources, scope: Option<string>) {
    forall r | InScope(res, scope, r) :: !Bad(res, scope, r)
  }

  function SaneListing(res: Resources, scope: Option<string>): seq<Ref> { Sane(res, scope, Listing(res, scope)) }

  predicate EventsFine(w: World, d: Decision) { AllFine(w, w.resources, SaneListing(w.resources, d.scope), d) }

  predicate EventsPassable(w: World, d: Decision) { Passable(w, w.resources, SaneListing(w.resources, d.scope), d) }

  lemma TargetIsPaused(w: World, w': World, d: Decision)
    requires w.resources.Keys == w'.resources.Keys
    requires forall r | r in w.resources && w'.resources[r] != w.resources[r] ::
      r in SaneListing(w.resources, d.scope) && Eligible(w.resources, r)
    ensures w'.resources == Target(w.resources, d.scope)
        <==> AllPaused(w', w.resources, SaneListing(w.resources, d.scope))
  {
    var target := Target(w.resources, d.scope);
    forall r | r in w.resources && AllPaused(w', w.resources, SaneListing(w.resources, d.scope))
      ensures w'.resources[r] == target[r]
    {}
    forall r | w'.resources == target && r in SaneListing(w.resources, d.scope) && Eligible(w.resources, r)
      ensures r in w'.resources && w'.resources[r] == Pause(w.resources[r])
    {
      ListingExact(w.resources, d.scope);
    }
  }

  lemma {:induction false} SaneWhole(res: Resources, scope: Option<string>, refs: seq<Ref>)
    ensures Sane(res, scope, refs) == refs <==> forall r | r in refs :: !Bad(res, scope, r)
    decreases |refs|
  {
    if refs != [] {
      SaneWhole(res, scope, refs[1..]);
      assert refs == [refs[0]] + refs[1..];
      if !Bad(res, scope, refs[0]) { assert Sane(res, scope, refs)[1..] == Sane(res, scope, refs[1..]); }
    }
  }

  /** Without faults, for any store: what makes an attempt return, and what makes it reach its target. */
  lemma Uninterrupted(w: World, d: Decision)
    requires w.faults == []
    ensures var a := Enforce(w, d);
      && (a.ok <==> PolicyFine(w, d) && NoBad(w.resources, d.scope) && EventsFine(w, d))
      && (PolicyFine(w, d) ==> (a.world.resources == Target(w.resources, d.scope) <==> EventsPassable(w, d)))
      && (!PolicyFine(w, d) ==> a.world.resources == w.resources)
  {
    var refs := Listing(w.resources, d.scope);
    ListingExact(w.resources, d.scope);
    AppendFrame(w, PolicyEvent(d));
    var a := Append(w, PolicyEvent(d));
    if a.ok {
      FaultlessOk(a.world, w.resources, refs, d);
      FaultlessPaused(a.world, w.resources, refs, d);
      SameFineList(w, a.world, w.resources, Sane(w.resources, d.scope, refs), d);
      EnforceFrame(w, d);
      SaneWhole(w.resources, d.scope, refs);
      TargetIsPaused(w, Enforce(w, d).world, d);
    }
  }

  /** An attempt without faults that is not at its target moves. */
  lemma Moves(w: World, d: Decision)
    requires w.faults == [] && PolicyFine(w, d) && w.resources != Target(w.resources, d.scope)
    ensures Enforce(w, d).world.resources != w.resources
  {
    var refs := Listing(w.resources, d.scope);
    ListingExact(w.resources, d.scope);
    AppendFrame(w, PolicyEvent(d));
    FaultlessMoves(Append(w, PolicyEvent(d)).world, w.resources, refs, d);
    TargetIsPaused(w, w, d);
  }

  /** Attempts with the same arguments, one after the other, each with its own faults. */
  function Attempts(w: World, d: Decision, scripts: seq<seq<Outcome>>): World
    decreases |scripts|
  {
    if scripts == [] then w else Attempts(Enforce(w.(faults := scripts[0]), d).world, d, scripts[1..])
  }

  lemma EnforceFine(w: World, d: Decision)
    ensures SameFine(w, Enforce(w, d).world)
  {
    AppendFrame(w, PolicyEvent(d));
    ListingExact(w.resources, d.scope);
    ListFrame(Append(w, PolicyEvent(d)).world, w.resources, Listing(w.resources, d.scope), d);
  }

  lemma {:induction false} AttemptsKeep(w: World, d: Decision, scripts: seq<seq<Outcome>>)
    ensures var w' := Attempts(w, d, scripts);
      && SameShape(w.resources, w'.resources)
      && Target(w'.resources, d.scope) == Target(w.resources, d.scope)
      && SameFine(w, w')
    decreases |scripts|
  {
    if scripts != [] {
      var v := w.(faults := scripts[0]);
      EnforceShape(v, d);
      TargetKept(v, d);
      EnforceFine(v, d);
      AttemptsKeep(Enforce(v, d).world, d, scripts[1..]);
    }
  }

  /** Interrupted by these scripts and then retried to the end: the workloads and schedules are those of an
      attempt that was never interrupted, and the retry ends the same way. */
  predicate SameEnd(w: World, d: Decision, scripts: seq<seq<Outcome>>) {
    var direct := Enforce(w.(faults := []), d);
    var retried := Enforce(Attempts(w, d, scripts).(faults := []), d);
    retried.world.resources == direct.world.resources && retried.ok == direct.ok
  }

  /** No audit id that the decision needs is taken by another event; or the policy's is, and every attempt
      stops at once; or only that of the last eligible resource is, and a bad schedule stops every attempt anyway. */
  ghost predicate Retryable(w: World, d: Decision) {
    !PolicyFine(w, d) || (EventsPassable(w, d) && (NoBad(w.resources, d.scope) ==> EventsFine(w, d)))
  }

  lemma {:induction false} NonePassable(w: World, snap: Resources, refs: seq<Ref>, d: Decision)
    requires NoneEligible(snap, refs)
    ensures Passable(w, snap, refs, d)
    decreases |refs|
  {
    if refs != [] { NonePassable(w, snap, refs[1..], d); }
  }

  lemma {:induction false} PassableShrinks(w: World, w': World, refs: seq<Ref>, d: Decision)
    requires SameFine(w, w') && Passable(w, w.resources, refs, d)
    requires forall r | r in refs && Eligible(w'.resources, r) ::
        Eligible(w.resources, r) && w'.resources[r] == w.resources[r]
    ensures Passable(w', w'.resources, refs, d)
    ensures AllFine(w, w.resources, refs, d) ==> AllFine(w', w'.resources, refs, d)
    decreases |refs|
  {
    if refs != [] {
      forall r | r in refs ensures FineFor(w, w.resources, r, d) ==> FineFor(w', w'.resources, r, d) {}
      if FineFor(w, w.resources, refs[0], d) { PassableShrinks(w, w', refs[1..], d); }
      else if FineFor(w', w'.resources, refs[0], d) { NonePassable(w', w'.resources, refs[1..], d); }
    }
  }

  lemma SameScope(w: World, w': World, d: Decision)
    requires SameShape(w.resources, w'.resources)
    ensures SaneListing(w'.resources, d.scope) == SaneListing(w.resources, d.scope)
    ensures NoBad(w'.resources, d.scope) <==> NoBad(w.resources, d.scope)
  {
    SameListing(w.resources, w'.resources, d.scope);
    SameSane(w.resources, w'.resources, d.scope, Listing(w.resources, d.scope));
    forall r | r in w.resources
      ensures InScope(w'.resources, d.scope, r) == InScope(w.resources, d.scope, r)
      ensures Bad(w'.resources, d.scope, r) == Bad(w.resources, d.scope, r)
    {}
  }

  lemma {:induction false} PolicyStops(w: World, d: Decision, scripts: seq<seq<Outcome>>)
    requires !PolicyFine(w, d)
    ensures Attempts(w, d, scripts).resources == w.resources
    decreases |scripts|
  {
    if scripts != [] {
      var v := w.(faults := scripts[0]);
      AppendFrame(v, PolicyEvent(d));
      EnforceFine(v, d);
      PolicyStops(Enforce(v, d).world, d, scripts[1..]);
    }
  }

  lemma FaultsAside(w: World, d: Decision, faults: seq<Outcome>)
    ensures var v := w.(faults := faults);
      && PolicyFine(v, d) == PolicyFine(w, d) && EventsFine(v, d) == EventsFine(w, d)
           && EventsPassable(v, d) == EventsPassable(w, d)
  {
    assert SameFine(w, w.(faults := faults));
    SameFineList(w, w.(faults := faults), w.resources, SaneListing(w.resources, d.scope), d);
  }

  /** The end of an attempt without faults, said from any of the stores on the way. */
  lemma EndOf(w: World, d: Decision)
    ensures var a := Enforce(w.(faults := []), d);
      && (a.ok <==> PolicyFine(w, d) && NoBad(w.resources, d.scope) && EventsFine(w, d))
      && (PolicyFine(w, d) ==> (a.world.resources == Target(w.resources, d.scope) <==> EventsPassable(w, d)))
      && (!PolicyFine(w, d) ==> a.world.resources == w.resources)
  {
    FaultsAside(w, d, []);
    Uninterrupted(w.(faults := []), d);
  }

  lemma PolicyKept(w: World, d: Decision, scripts: seq<seq<Outcome>>)
    ensures PolicyFine(Attempts(w, d, scripts), d) == PolicyFine(w, d)
  {
    AttemptsKeep(w, d, scripts);
  }

  /** Over all attempts, only running resources in scope are touched, each once, and never
      before its effect outside the store. */
  lemma {:induction false} OnlyEligible(w: World, d: Decision, scripts: seq<seq<Outcome>>, r: Ref)
    requires r in w.resources
    ensures Touched(w, Attempts(w, d, scripts), d.scope, r) && w.removed <= Attempts(w, d, scripts).removed
    decreases |scripts|
  {
    if scripts != [] {
      var v := w.(faults := scripts[0]);
      var v' := Enforce(v, d).world;
      EnforceFrame(v, d);
      EnforceShape(v, d);
      assert Touched(v, v', d.scope, r);
      OnlyEligible(v', d, scripts[1..], r);
      assert RunsArchived(v'.resources, r) == RunsArchived(v.resources, r);
    }
  }

  lemma StillPassable(w: World, d: Decision, scripts: seq<seq<Outcome>>)
    requires EventsPassable(w, d)
    ensures var w' := Attempts(w, d, scripts); EventsPassable(w', d) && (EventsFine(w, d) ==> EventsFine(w', d))
  {
    var w' := Attempts(w, d, scripts);
    AttemptsKeep(w, d, scripts);
    SameScope(w, w', d);
    var sane := SaneListing(w.resources, d.scope);
    forall r | r in sane && Eligible(w'.resources, r)
      ensures Eligible(w.resources, r) && w'.resources[r] == w.resources[r]
    {
      ListingExact(w.resources, d.scope);
      OnlyEligible(w, d, scripts, r);
      assert RunsArchived(w'.resources, r) == RunsArchived(w.resources, r);
    }
    PassableShrinks(w, w', sane, d);
  }

  lemma TargetReached(w: World, d: Decision, scripts: seq<seq<Outcome>>)
    requires EventsPassable(w, d)
    ensures var w' := Attempts(w, d, scripts);
      && Target(w'.resources, d.scope) == Target(w.resources, d.scope) && EventsPassable(w', d)
      && NoBad(w'.resources, d.scope) == NoBad(w.resources, d.scope) && (EventsFine(w, d) ==> EventsFine(w', d))
  {
    AttemptsKeep(w, d, scripts);
    SameScope(w, Attempts(w, d, scripts), d);
    StillPassable(w, d, scripts);
  }

  /** Interrupted any number of times, anywhere, and then retried to the end: the same end as without interruption. */
  lemma RetryReachesSame(w: World, d: Decision, scripts: seq<seq<Outcome>>)
    requires Retryable(w, d)
    ensures SameEnd(w, d, scripts)
  {
    var w' := Attempts(w, d, scripts);
    EndOf(w, d);
    EndOf(w', d);
    PolicyKept(w, d, scripts);
    if PolicyFine(w, d) {
      TargetReached(w, d, scripts);
    } else {
      PolicyStops(w, d, scripts);
    }
  }

  /** At the target nothing is left to be stopped by. */
  lemma AtTarget(w: World, d: Decision)
    requires Target(w.resources, d.scope) == w.resources
    ensures EventsFine(w, d)
  {
    ListingExact(w.resources, d.scope);
    forall r | r in SaneListing(w.resources, d.scope) ensures !Eligible(w.resources, r) {
      assert r in w.resources;
      assert Target(w.resources, d.scope)[r] != Pause(w.resources[r]);
    }
  }

  lemma NowFine(w: World, w': World, d: Decision)
    requires SameShape(w.resources, w'.resources) && w'.resources == Target(w.resources, d.scope)
    requires Target(w'.resources, d.scope) == w'.resources && PolicyFine(w', d) && NoBad(w.resources, d.scope)
    ensures Enforce(w'.(faults := []), d).ok
  {
    EndOf(w', d);
    SameScope(w, w', d);
    AtTarget(w', d);
  }

  lemma RetryGoesOn(w: World, d: Decision)
    requires !Retryable(w, d)
    ensures !SameEnd(w, d, [[]])
  {
    var once: seq<seq<Outcome>> := [[]];
    var direct := Enforce(w.(faults := []), d);
    assert once[1..] == [];
    assert Attempts(w, d, once) == Attempts(direct.world, d, []) == direct.world;
    EndOf(w, d);
    PolicyKept(w, d, once);
    TargetKept(w.(faults := []), d);
    if EventsPassable(w, d) {
      EnforceShape(w.(faults := []), d);
      NowFine(w, direct.world, d);
    } else {
      FaultsAside(direct.world, d, []);
      Moves(direct.world.(faults := []), d);
    }
  }

  /** For every store and decision: interruption never shows in the end, whatever the scripts, exactly if the
      decision is retryable. Otherwise one retry gets past the event that stopped the first attempt. */
  lemma RetryExactly(w: World, d: Decision)
    ensures (forall scripts :: SameEnd(w, d, scripts)) <==> Retryable(w, d)
  {
    if Retryable(w, d) {
      forall scripts ensures SameEnd(w, d, scripts) { RetryReachesSame(w, d, scripts); }
    } else {
      RetryGoesOn(w, d);
      assert !SameEnd(w, d, [[]]);
    }
  }

  /** An attempt that returns leaves nothing running in scope, except schedules of archived workloads. */
  lemma SuccessSettles(w: World, d: Decision, r: Ref)
    requires Enforce(w, d).ok && InScope(w.resources, d.scope, r)
    ensures var w' := Enforce(w, d).world;
      && InScope(w'.resources, d.scope, r)
      && !Eligible(w'.resources, r)
      && !Bad(w'.resources, d.scope, r)
      && (w'.resources[r] != w.resources[r] ==> PauseEvent(r, w.resources[r], d) in w'.audits)
  {
    var refs := Listing(w.resources, d.scope);
    var w' := Enforce(w, d).world;
    ListingExact(w.resources, d.scope);
    AppendFrame(w, PolicyEvent(d));
    ListSettles(Append(w, PolicyEvent(d)).world, w.resources, refs, d);
    EnforceFrame(w, d);
    EnforceShape(w, d);
    SaneWhole(w.resources, d.scope, refs);
    assert Touched(w, w', d.scope, r) && Settled(w', w.resources, r, d);
    assert RunsArchived(w'.resources, r) == RunsArchived(w.resources, r);
  }

  lemma {:induction false} ListIdle(w: World, snap: Resources, refs: seq<Ref>, d: Decision)
    requires forall r | r in refs :: !Eligible(snap, r)
    ensures PauseList(w, snap, refs, d).world == w
    decreases |refs|
  {
    if refs != [] { ListIdle(w, snap, refs[1..], d); }
  }

  /** Once an attempt has returned, replaying it changes nothing, whatever faults the replay meets. */
  lemma ReplayChangesNothing(w: World, d: Decision, faults: seq<Outcome>)
    requires Enforce(w, d).ok
    ensures var w' := Enforce(w, d).world;
      var again := Enforce(w'.(faults := faults), d).world;
      again.resources == w'.resources && again.audits == w'.audits && again.removed == w'.removed
  {
    var w' := Enforce(w, d).world;
    EnforceShape(w, d);
    SameListing(w.resources, w'.resources, d.scope);
    ListingExact(w.resources, d.scope);
    forall r | InScope(w.resources, d.scope, r) ensures !Eligible(w'.resources, r) { SuccessSettles(w, d, r); }
    var v := w'.(faults := faults);
    AppendFrame(w, PolicyEvent(d));
    ListFrame(Append(w, PolicyEvent(d)).world, w.resources, Listing(w.resources, d.scope), d);
    assert PolicyEvent(d) in v.audits;
    ListIdle(Append(v, PolicyEvent(d)).world, v.resources, Listing(v.resources, d.scope), d);
  }

  /** How many of the attempts raised. */
  function Interrupted(w: World, d: Decision, scripts: seq<seq<Outcome>>): nat
    decreases |scripts|
  {
    if scripts == [] then 0 else
    var a := Enforce(w.(faults := scripts[0]), d);
    (if a.ok then 0 else 1) + Interrupted(a.world, d, scripts[1..])
  }

  lemma EnforceLoses(w: World, d: Decision)
    ensures |Lost(w.resources, Enforce(w, d).world, w.resources.Keys, d)| <= if Enforce(w, d).ok then 0 else 1
  {
    var refs := Listing(w.resources, d.scope);
    ListingExact(w.resources, d.scope);
    AppendFrame(w, PolicyEvent(d));
    var a := Append(w, PolicyEvent(d));
    var w' := Enforce(w, d).world;
    ListLoses(a.world, w.resources, refs, d);
    ListFrame(a.world, w.resources, refs, d);
    if a.ok {
      assert Lost(w.resources, w', w.resources.Keys, d) == Lost(w.resources, w', SetOf(refs), d);
    } else {
      assert Lost(w.resources, w', w.resources.Keys, d) == {};
    }
  }

  lemma {:induction false} AttemptsExtend(w: World, d: Decision, scripts: seq<seq<Outcome>>)
    ensures forall id | id in w.audits :: id in Attempts(w, d, scripts).audits
    decreases |scripts|
  {
    if scripts != [] {
      EnforceFrame(w.(faults := scripts[0]), d);
      AttemptsExtend(Enforce(w.(faults := scripts[0]), d).world, d, scripts[1..]);
    }
  }

  lemma {:induction false} SubsetSize<T>(a: set<T>, b: set<T>)
    requires a <= b
    ensures |a| <= |b|
    decreases |a|
  {
    if a != {} {
      var x :| x in a;
      SubsetSize(a - {x}, b - {x});
    }
  }

  /** Over any number of attempts, at most one resource audit event is lost for each attempt that raised. */
  lemma {:induction false} LostBound(w: World, d: Decision, scripts: seq<seq<Outcome>>)
    ensures |Lost(w.resources, Attempts(w, d, scripts), w.resources.Keys, d)| <= Interrupted(w, d, scripts)
    decreases |scripts|
  {
    var keys := w.resources.Keys;
    if scripts == [] {
      assert Lost(w.resources, w, keys, d) == {};
    } else {
      var v := w.(faults := scripts[0]);
      var v' := Enforce(v, d).world;
      EnforceFrame(v, d);
      EnforceLoses(v, d);
      AttemptsExtend(v', d, scripts[1..]);
      LostBound(v', d, scripts[1..]);
      var w' := Attempts(w, d, scripts);
      var first, later := Lost(v.resources, v', keys, d), Lost(v'.resources, w', keys, d);
      assert Lost(w.resources, w', keys, d) <= first + later;
      SubsetSize(Lost(w.resources, w', keys, d), first + later);
      assert |first + later| <= |first| + |later|;
    }
  }

  // ---- What an attempt that returns has done, in full ----

  /** An active workload, or an enabled schedule whose workload is not archived. */
  predicate Running(res: Resources, r: Ref)
    requires r in res
  {
    match r
    case OfWorkload(_) => res[r].state == Active
    case OfSchedule(_) =>
      res[r].state == Enabled
      && !exists k | k in res :: k.OfWorkload? && res[r].runs == Some(k.id) && res[k].state == Archived
  }

  /** Resource `r` before and after: what runs and belongs to the scope is paused one version later, after its
      effect and with an audit event that tells both versions; everything else is as it was. */
  predicate PausedAsAsked(w: World, w': World, d: Decision, r: Ref)
    requires r in w.resources
  {
    var x := w.resources[r];
    && r in w'.resources
    && if (d.scope == None || d.scope == Some(x.owner)) && Running(w.resources, r) then
         var action := if r.OfWorkload? then "cost_policy_pause_workload" else "cost_policy_pause_schedule";
         var event := EventId(action, Changed(r, (x.state, x.version), (Paused, x.version + 1)), d);
         && w'.resources[r] == Resource(x.owner, Paused, x.version + 1, x.runs)
         && (r, x.version) in w'.removed
         && event in w'.audits && w'.audits[event] == Event(event, None, "recorded")
       else w'.resources[r] == x
  }

  lemma EligibleIff(res: Resources, r: Ref)
    requires r in res
    ensures Eligible(res, r) <==> Running(res, r)
  {}

  lemma SuccessPauses(w: World, d: Decision, r: Ref)
    requires Enforce(w, d).ok && r in w.resources
    ensures PausedAsAsked(w, Enforce(w, d).world, d, r)
  {
    var refs := Listing(w.resources, d.scope);
    ListingExact(w.resources, d.scope);
    EligibleIff(w.resources, r);
    EnforceFrame(w, d);
    assert Touched(w, Enforce(w, d).world, d.scope, r);
    AppendFrame(w, PolicyEvent(d));
    ListSettles(Append(w, PolicyEvent(d)).world, w.resources, refs, d);
    if r in refs { assert Settled(Enforce(w, d).world, w.resources, r, d); }
  }

  /** The policy's own event is recorded, and every resource is as asked. */
  predicate DoneAsAsked(w: World, w': World, d: Decision, action: string) {
    var event := EventId(action, Policy(d.scope), d);
    && event in w'.audits && w'.audits[event] == Event(event, None, "recorded")
    && forall r | r in w.resources :: PausedAsAsked(w, w', d, r)
  }

  lemma PolicyRecorded(w: World, d: Decision)
    requires Enforce(w, d).ok
    ensures var w', event := Enforce(w, d).world, PolicyEvent(d);
      event in w'.audits && w'.audits[event] == Recorded(event)
  {
    AppendFrame(w, PolicyEvent(d));
    ListingExact(w.resources, d.scope);
    ListFrame(Append(w, PolicyEvent(d)).world, w.resources, Listing(w.resources, d.scope), d);
  }

  lemma SuccessInFull(w: World, d: Decision)
    requires Enforce(w, d).ok
    ensures DoneAsAsked(w, Enforce(w, d).world, d, PolicyEvent(d).action)
  {
    PolicyRecorded(w, d);
    forall r | r in w.resources ensures PausedAsAsked(w, Enforce(w, d).world, d, r) { SuccessPauses(w, d, r); }
  }

  /** The names of the two policies that pause. */
  lemma ActionNames(d: Decision)
    ensures d.scope.Some? && d.level == "pause" ==> PolicyEvent(d).action == "cost_policy_pause"
    ensures d.scope.None? && d.level == "emergency_stop" ==> PolicyEvent(d).action == "cost_policy_org_emergency_stop"
  {
    assert "cost_policy_" + "pause" == "cost_policy_pause";
    assert "cost_policy_org_" + "emergency_stop" == "cost_policy_org_emergency_stop";
  }

  /** Workloads come before schedules, and each kind in the order of ids. */
  predicate Sooner(q: Ref, r: Ref) {
    (q.OfWorkload? && r.OfSchedule?) || (q.OfWorkload? && r.OfWorkload? && q.id < r.id)
    || (q.OfSchedule? && r.OfSchedule? && q.id < r.id)
  }

  lemma ListingAscends(res: Resources, scope: Option<string>)
    ensures var refs := Listing(res, scope); forall a, b | 0 <= a < b < |refs| :: Before(refs[a], refs[b])
  {
    var ws, ss := WorkloadList(res, scope), ScheduleList(res, scope);
    forall a, b | 0 <= a < b < |ws + ss| ensures Before((ws + ss)[a], (ws + ss)[b]) {
      if a < |ws| <= b { assert ws[a] in ws && ss[b - |ws|] in ss; }
    }
  }

  lemma ListingInOrder(res: Resources, scope: Option<string>, q: Ref, r: Ref) returns (i: nat, j: nat)
    requires InScope(res, scope, q) && InScope(res, scope, r) && Sooner(q, r)
    ensures i < j < |Listing(res, scope)| && Listing(res, scope)[i] == q && Listing(res, scope)[j] == r
  {
    ListingExact(res, scope);
    var refs := Listing(res, scope);
    i :| 0 <= i < |refs| && refs[i] == q;
    j :| 0 <= j < |refs| && refs[j] == r;
    ListingAscends(res, scope);
    assert j < i ==> Before(r, q);
  }

  lemma {:induction false} ListInOrder(w: World, snap: Resources, refs: seq<Ref>, d: Decision, i: nat, j: nat)
    requires Untouched(w, snap, refs) && NoDuplicates(refs) && i < j < |refs| && Eligible(snap, refs[i])
    requires var w' := PauseList(w, snap, refs, d).world;
      refs[j] in w'.resources && w'.resources[refs[j]] != snap[refs[j]]
    ensures var w' := PauseList(w, snap, refs, d).world;
      refs[i] in w'.resources && w'.resources[refs[i]] == Pause(snap[refs[i]])
    decreases |refs|
  {
    var a := PauseOne(w, snap, refs[0], d);
    OneFrame(w, snap, refs[0], d);
    HeadApart(refs);
    assert refs[j] in refs[1..];
    if i == 0 {
      ListFrame(a.world, snap, refs[1..], d);
    } else {
      ListInOrder(a.world, snap, refs[1..], d, i - 1, j - 1);
    }
  }

  /** However an attempt ends: if it paused a resource, it had paused everything that comes sooner. */
  lemma InOrder(w: World, d: Decision, q: Ref, r: Ref)
    requires q in w.resources && r in w.resources && Sooner(q, r) && Running(w.resources, q)
    requires d.scope == None || d.scope == Some(w.resources[q].owner)
    requires r in Enforce(w, d).world.resources && Enforce(w, d).world.resources[r] != w.resources[r]
    ensures q in Enforce(w, d).world.resources && Enforce(w, d).world.resources[q].state == Paused
  {
    EnforceFrame(w, d);
    assert Touched(w, Enforce(w, d).world, d.scope, r);
    EligibleIff(w.resources, q);
    var i, j := ListingInOrder(w.resources, d.scope, q, r);
    ListingExact(w.resources, d.scope);
    AppendFrame(w, PolicyEvent(d));
    ListInOrder(Append(w, PolicyEvent(d)).world, w.resources, Listing(w.resources, d.scope), d, i, j);
  }

  // ---- The adapter ----

  datatype Ending = Enforced | Invalid | Failed

  predicate IsText(s: string) { exists i | 0 <= i < |s| :: s[i] !in PYTHON_SPACE }

  predicate BasisOk(basis: seq<string>) {
    && basis != []
    && (forall b | b in basis :: IsText(b))
    && forall i, j | 0 <= i < j < |basis| :: basis[i] != basis[j]
  }

  function Basis(basis: seq<string>): set<string> { set b | b in basis }

  lemma TextIff(s: string)
    ensures IsText(s) <==> Trim(s, PYTHON_SPACE) != ""
  {
    BlankIff(s, PYTHON_SPACE);
    if c :| c in s && c !in PYTHON_SPACE { assert exists i | 0 <= i < |s| :: s[i] == c; }
  }

  lemma {:induction false} DistinctSize(s: seq<string>)
    ensures |Basis(s)| <= |s|
    ensures |Basis(s)| == |s| <==> forall i, j | 0 <= i < j < |s| :: s[i] != s[j]
  {
    if s != [] {
      var n := |s| - 1;
      var front := s[..n];
      DistinctSize(front);
      assert s == front + [s[n]];
      assert Basis(s) == Basis(front) + {s[n]};
    }
  }

  /** A basis is accepted exactly if it is not empty, has no blank entry, and loses nothing as a set. */
  lemma BasisIff(basis: seq<string>)
    ensures BasisOk(basis) <==>
      |Basis(basis)| == |basis| > 0 && forall b | b in basis :: Trim(b, PYTHON_SPACE) != ""
  {
    DistinctSize(basis);
    forall b | b in basis ensures IsText(b) <==> Trim(b, PYTHON_SPACE) != "" { TextIff(b); }
  }

  /** Looks at each entry, and then whether any has come twice. */
  method NormalizeBasis(basis: seq<string>) returns (ok: bool)
    ensures ok <==> BasisOk(basis)
  {
    BasisIff(basis);
    if basis == [] { return false; }
    var ids: set<string> := {};
    for n := 0 to |basis|
      invariant ids == Basis(basis[..n]) && forall i | 0 <= i < n :: IsText(basis[i])
    {
      if Trim(basis[n], PYTHON_SPACE) == "" {
        TextIff(basis[n]);
        return false;
      }
      TextIff(basis[n]);
      assert basis[..n + 1] == basis[..n] + [basis[n]];
      ids := ids + {basis[n]};
    }
    assert basis[..|basis|] == basis;
    DistinctSize(basis);
    ok := |ids| == |basis|;
  }

  /** Pausing implies blocking, blocking implies warning, each from its own percentage on. */
  predicate FlagsOk(percent: int, warn: bool, block: bool, pause: bool) {
    && 0 <= percent && (pause ==> percent >= 100 && block) && (block ==> percent >= 90 && warn)
    && (warn ==> percent >= 70) && (warn || block || pause)
  }

  /** The three policies that are valid: a warning from 70 percent, blocking from 90, pausing from 100. */
  lemma FlagsMean(percent: int, warn: bool, block: bool, pause: bool)
    ensures FlagsOk(percent, warn, block, pause) <==>
      || (warn && !block && !pause && percent >= 70)
      || (warn && block && !pause && percent >= 90)
      || (warn && block && pause && percent >= 100)
  {}

  /** The checks of the flags, one after the other. */
  method RequireFlags(percent: int, warn: bool, block: bool, pause: bool) returns (ok: bool)
    ensures ok <==> FlagsOk(percent, warn, block, pause)
  {
    if percent < 0 { return false; }
    if pause && percent < 100 { return false; }
    if block && percent < 90 { return false; }
    if warn && percent < 70 { return false; }
    if pause && !block { return false; }
    if block && !warn { return false; }
    ok := warn || block || pause;
  }

  function Level(block: bool, pause: bool): string {
    if pause then "pause" else if block then "block_new" else "warn"
  }

  lemma {:induction false} ListConcat(w: World, snap: Resources, refs: seq<Ref>, more: seq<Ref>, d: Decision)
    ensures PauseList(w, snap, refs + more, d)
         == var a := PauseList(w, snap, refs, d); if a.ok then PauseList(a.world, snap, more, d) else a
    decreases |refs|
  {
    if refs == [] {
      assert refs + more == more;
    } else {
      assert (refs + more)[0] == refs[0] && (refs + more)[1..] == refs[1..] + more;
      ListConcat(PauseOne(w, snap, refs[0], d).world, snap, refs[1..], more, d);
    }
  }

  class Adapter {
    var resources: Resources
    var audits: map<EventId, Event>
    var removed: set<(Ref, nat)>
    var faults: seq<Outcome>

    ghost function View(): World
      reads this
    {
      World(resources, audits, removed, faults)
    }

    constructor (resources: Resources, audits: map<EventId, Event>, faults: seq<Outcome>)
      ensures View() == World(resources, audits, {}, faults)
    {
      this.resources, this.audits, removed, this.faults := resources, audits, {}, faults;
    }

    /** The outcome of the call that is being made. */
    method Call() returns (o: Outcome)
      modifies this`faults
      ensures o == old(View()).Next() && View() == old(View()).Called()
    {
      o := Done;
      if faults != [] { o, faults := faults[0], faults[1..]; }
    }

    method AppendExactAudit(id: EventId) returns (ok: bool)
      modifies this
      ensures Attempt(View(), ok) == Append(old(View()), id)
    {
      var o := Call();
      if o.Raised? { return false; }
      if id in audits { return o.Done? && audits[id] == Recorded(id); }
      audits := audits[id := Recorded(id)];
      ok := o.Done?;
    }

    method PauseIfEligible(snap: Resources, r: Ref, d: Decision) returns (ok: bool)
      requires r in snap
      modifies this
      ensures Attempt(View(), ok) == PauseOne(old(View()), snap, r, d)
    {
      if !Eligible(snap, r) { return true; }
      var o := Call();
      if !o.Raised? { removed := removed + {(r, snap[r].version)}; }
      if !o.Done? { return false; }
      o := Call();
      if o.Raised? || r !in resources || resources[r].version != snap[r].version { return false; }
      resources := resources[r := Pause(snap[r])];
      if !o.Done? { return false; }
      ok := AppendExactAudit(PauseEvent(r, snap[r], d));
    }

    /** The loop over one kind of resource. */
    method PauseKind(snap: Resources, refs: seq<Ref>, d: Decision) returns (ok: bool)
      requires forall r | r in refs :: r in snap
      modifies this
      ensures Attempt(View(), ok) == PauseList(old(View()), snap, refs, d)
    {
      var n := 0;
      while n < |refs|
        invariant n <= |refs| && PauseList(View(), snap, refs[n..], d) == PauseList(old(View()), snap, refs, d)
      {
        assert refs[n..][1..] == refs[n + 1..];
        if Bad(snap, d.scope, refs[n]) { return false; }
        ok := PauseIfEligible(snap, refs[n], d);
        if !ok { return; }
        n := n + 1;
      }
      ok := true;
    }

    /** Workloads, then schedules, as listed at the start. */
    method PauseResources(d: Decision) returns (ok: bool)
      modifies this
      ensures Attempt(View(), ok) == PauseList(old(View()), old(resources), Listing(old(resources), d.scope), d)
    {
      var snap := resources;
      var workloads, schedules := WorkloadList(snap, d.scope), ScheduleList(snap, d.scope);
      ListConcat(View(), snap, workloads, schedules, d);
      ok := PauseKind(snap, workloads, d);
      if ok { ok := PauseKind(snap, schedules, d); }
    }

    /** Records the policy, and pauses if it says so. */
    method Carry(d: Decision, pause: bool) returns (ok: bool)
      modifies this
      ensures Attempt(View(), ok) == if pause then Enforce(old(View()), d) else Append(old(View()), PolicyEvent(d))
      ensures ok && pause ==> DoneAsAsked(old(View()), View(), d, PolicyEvent(d).action)
      ensures ok && !pause ==>
        && PolicyEvent(d) in audits && audits[PolicyEvent(d)] == Event(PolicyEvent(d), None, "recorded")
        && resources == old(resources) && removed == old(removed)
    {
      ok := AppendExactAudit(PolicyEvent(d));
      AppendFrame(old(View()), PolicyEvent(d));
      if pause && ok {
        ok := PauseResources(d);
        if ok { SuccessInFull(old(View()), d); }
      }
    }

    /** One user's policy: pause, block or warn. */
    method EnforceUserPolicy(user: string, percent: int, warn: bool, block: bool, pause: bool, basis: seq<string>,
                             key: string)
      returns (r: Ending)
      modifies this
      ensures r.Invalid? <==> !(IsText(user) && BasisOk(basis) && IsText(key) && FlagsOk(percent, warn, block, pause))
      ensures r.Invalid? ==> View() == old(View())
      ensures !r.Invalid? ==>
        var d := Decision(Some(user), Level(block, pause), Some(percent), Basis(basis), key);
        Attempt(View(), r.Enforced?) == if pause then Enforce(old(View()), d) else Append(old(View()), PolicyEvent(d))
      ensures r.Enforced? && pause ==>
        var d := Decision(Some(user), "pause", Some(percent), Basis(basis), key);
        DoneAsAsked(old(View()), View(), d, "cost_policy_pause")
      ensures r.Enforced? && !pause ==>
        var level := if block then "block_new" else "warn";
        var event := EventId("cost_policy_" + level, Policy(Some(user)),
                             Decision(Some(user), level, Some(percent), Basis(basis), key));
        && event in audits && audits[event] == Event(event, None, "recorded")
        && resources == old(resources) && removed == old(removed)
    {
      TextIff(user);
      TextIff(key);
      if Trim(user, PYTHON_SPACE) == "" { return Invalid; }
      var fine := NormalizeBasis(basis);
      if !fine || Trim(key, PYTHON_SPACE) == "" { return Invalid; }
      fine := RequireFlags(percent, warn, block, pause);
      if !fine { return Invalid; }
      var d := Decision(Some(user), Level(block, pause), Some(percent), Basis(basis), key);
      var ok := Carry(d, pause);
      ActionNames(d);
      r := if ok then Enforced else Ending.Failed;
    }

    /** The organisation's emergency stop: everything. */
    method EnforceOrgPolicy(stop: bool, basis: seq<string>, key: string) returns (r: Ending)
      modifies this
      ensures !stop ==> r == Enforced && View() == old(View())
      ensures stop ==> (r.Invalid? <==> !(BasisOk(basis) && IsText(key))) && (r.Invalid? ==> View() == old(View()))
      ensures stop && !r.Invalid? ==>
        Attempt(View(), r.Enforced?) == Enforce(old(View()), Decision(None, "emergency_stop", None, Basis(basis), key))
      ensures stop && r.Enforced? ==>
        var d := Decision(None, "emergency_stop", None, Basis(basis), key);
        DoneAsAsked(old(View()), View(), d, "cost_policy_org_emergency_stop")
    {
      if !stop { return Enforced; }
      TextIff(key);
      var fine := NormalizeBasis(basis);
      if !fine || Trim(key, PYTHON_SPACE) == "" { return Invalid; }
      var d := Decision(None, "emergency_stop", None, Basis(basis), key);
      var ok := Carry(d, true);
      ActionNames(d);
      r := if ok then Enforced else Ending.Failed;
    }
  }
}

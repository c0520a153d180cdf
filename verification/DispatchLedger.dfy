/** Schedule ticks are dispatched to a cloud job through a ledger document: read, claim, run,
    mark, reconcile. Dispatchers interleave freely, every remote call can fail with or without
    its effect, and a dispatcher can crash between any two calls. */
module DispatchLedger {
  import opened Prelude

  datatype Tick = Tick(schedule: string, at: int)
  datatype Request = Request(tick: Tick, workload: string)

  /** The digest of schedule, workload and tick; digests of different requests differ. */
  datatype Token = Token(of: Request)

  datatype Record = Claimed(token: Token) | Ambiguous(token: Token) | Succeeded(token: Token, ref: nat)

  /** An execution of the cloud job; its name is its position in the launch order. */
  datatype Execution = Execution(pid: nat, request: Request)

  datatype Phase =
    | Started                              // about to read the ledger
    | Absent                               // the read found no record; about to create one
    | Lost                                 // the create raised; about to read again
    | Holding                              // holds a claimed record; about to run the job
    | RunFailed                            // the run raised; about to mark the record ambiguous
    | Reconciling                          // about to list the executions
    | Recording(name: nat, created: bool)  // about to mark the record succeeded
    | Returned(name: nat, created: bool)
    | Failed
  {
    predicate InFlight() { !Returned? && !Failed? }

    /** The phases on the way to a launch. */
    predicate MayLaunch() { Absent? || Lost? || Holding? }
  }

  /** `early` remembers that the first read found no record. */
  datatype Proc = Proc(request: Request, phase: Phase, early: bool)

  datatype World = World(ledger: map<Tick, Record>, runs: seq<Execution>, procs: map<nat, Proc>)

  datatype Event =
    | Begin(pid: nat, request: Request)
    | Read(pid: nat, ok: bool)
    | Create(pid: nat, outcome: Outcome)
    | ReRead(pid: nat, ok: bool)
    | Launch(pid: nat, outcome: Outcome, exact: bool)
    | MarkAmbiguous(pid: nat, outcome: Outcome)
    | List(pid: nat, ok: bool)
    | MarkSucceeded(pid: nat, outcome: Outcome)
    | Crash(pid: nat)

  /** What a dispatcher does with a record it finds; only a re-read after a failed create
      may take over a claimed record. */
  function Resolve(request: Request, record: Record, afterCreate: bool): Phase {
    if record.token != Token(request) then Failed
    else match record
      case Succeeded(_, ref) => Returned(ref, false)
      case Claimed(_) => if afterCreate then Holding else Reconciling
      case Ambiguous(_) => Reconciling
  }

  /** The executions that match a request exactly. */
  function Matches(runs: seq<Execution>, request: Request): (names: seq<nat>)
    ensures forall n :: n in names <==> 0 <= n < |runs| && runs[n].request == request
    ensures forall i, j | 0 <= i < j < |names| :: names[i] < names[j]
  {
    if runs == [] then []
    else
      var n := |runs| - 1;
      var before := Matches(runs[..n], request);
      assert forall k | 0 <= k < |before| :: before[k] in before;
      before + if runs[n].request == request then [n] else []
  }

  /** What one event does: the dispatcher's new local state, the record it writes, whether it
      launches an execution. An event that its phase does not allow does nothing. */
  datatype Delta = Delta(proc: Proc, put: Option<Record>, launch: bool)

  function Stay(p: Proc): Delta { Delta(p, None, false) }

  function Go(p: Proc, phase: Phase): Delta { Delta(p.(phase := phase), None, false) }

  function Act(p: Proc, found: Option<Record>, runs: seq<Execution>, e: Event): Delta {
    var token := Token(p.request);
    match e
    case Begin(_, _) => Stay(p)
    case Read(_, ok) =>
      if !p.phase.Started? then Stay(p)
      else if !ok then Go(p, Failed)
      else if found.None? then Delta(p.(phase := Absent, early := true), None, false)
      else Go(p, Resolve(p.request, found.value, false))
    case Create(_, outcome) =>
      if !p.phase.Absent? then Stay(p)
      else if found.Some? || outcome.Raised? then Go(p, Lost)
      else Delta(p.(phase := if outcome.Done? then Holding else Lost), Some(Claimed(token)), false)
    case ReRead(_, ok) =>
      if !p.phase.Lost? then Stay(p)
      else if !ok || found.None? then Go(p, Failed)
      else Go(p, Resolve(p.request, found.value, true))
    case Launch(_, outcome, exact) =>
      if !p.phase.Holding? then Stay(p)
      else if outcome.Raised? then Go(p, RunFailed)
      else
        var next := if outcome.DoneButRaised? then RunFailed else if exact then Recording(|runs|, true) else Failed;
        Delta(p.(phase := next), None, true)
    case MarkAmbiguous(_, outcome) =>
      if !p.phase.RunFailed? then Stay(p)
      else Delta(p.(phase := if outcome.Done? then Reconciling else Failed),
                 if outcome.Effect() then Some(Ambiguous(token)) else None, false)
    case List(_, ok) =>
      var names := Matches(runs, p.request);
      if !p.phase.Reconciling? then Stay(p)
      else Go(p, if ok && |names| == 1 then Recording(names[0], false) else Failed)
    case MarkSucceeded(_, outcome) =>
      if !p.phase.Recording? then Stay(p)
      else Delta(p.(phase := if outcome.Done? then Returned(p.phase.name, p.phase.created) else Failed),
                 if outcome.Effect() then Some(Succeeded(token, p.phase.name)) else None, false)
    case Crash(_) => if p.phase.InFlight() then Go(p, Failed) else Stay(p)
  }

  function Found(w: World, t: Tick): Option<Record> {
    if t in w.ledger then Some(w.ledger[t]) else None
  }

  function Step(w: World, e: Event): World {
    if e.pid !in w.procs then
      if e.Begin? then w.(procs := w.procs[e.pid := Proc(e.request, Started, false)]) else w
    else
      var p := w.procs[e.pid];
      var d := Act(p, Found(w, p.request.tick), w.runs, e);
      World(if d.put.Some? then w.ledger[p.request.tick := d.put.value] else w.ledger,
            if d.launch then w.runs + [Execution(e.pid, p.request)] else w.runs,
            w.procs[e.pid := d.proc])
  }

  function Run(w: World, es: seq<Event>): World
    decreases |es|
  {
    if es == [] then w else Run(Step(w, es[0]), es[1..])
  }

  const EMPTY := World(map[], [], map[])

  // ---- What holds over every interleaving ----

  /** The tick's record carries this request's token. */
  ghost predicate Bound(w: World, request: Request) {
    request.tick in w.ledger && w.ledger[request.tick].token == Token(request)
  }

  ghost predicate Launched(w: World, i: nat)
    requires i < |w.runs|
  {
    var x := w.runs[i];
    && x.pid in w.procs && w.procs[x.pid].request == x.request && w.procs[x.pid].early
         && !w.procs[x.pid].phase.MayLaunch()
    && !w.procs[x.pid].phase.Started?
    && Bound(w, x.request)
  }

  ghost predicate Names(w: World, name: nat, request: Request) {
    name < |w.runs| && w.runs[name].request == request
  }

  ghost predicate ProcOk(w: World, q: nat)
    requires q in w.procs
  {
    var p := w.procs[q];
    && (p.phase.MayLaunch() || p.phase.RunFailed? ==> p.early)
    && (p.phase.Started? ==> !p.early)
    && (p.phase.Holding? || p.phase.RunFailed? || p.phase.Reconciling? || p.phase.Recording? ==> Bound(w, p.request))
    && (p.phase.Recording? || p.phase.Returned? ==> Names(w, p.phase.name, p.request))
  }

  /** Every launch, reference and receipt belongs to the request that the record is bound to. */
  ghost predicate Inv(w: World) {
    && (forall i | 0 <= i < |w.runs| :: Launched(w, i))
    && (forall i, j | 0 <= i < j < |w.runs| :: w.runs[i].pid != w.runs[j].pid)
    && (forall t | t in w.ledger ::
         w.ledger[t].token.of.tick == t && (w.ledger[t].Succeeded? ==> Names(w, w.ledger[t].ref, w.ledger[t].token.of)))
    && (forall q | q in w.procs :: ProcOk(w, q))
  }

  /** Launches are never taken back and a record never changes its token. */
  ghost predicate Grows(w: World, w': World) {
    && |w.runs| <= |w'.runs| && (forall i | 0 <= i < |w.runs| :: w'.runs[i] == w.runs[i])
    && (forall t | t in w.ledger :: t in w'.ledger && w'.ledger[t].token == w.ledger[t].token)
  }

  ghost predicate PutOk(w: World, p: Proc, record: Record) {
    && record.token == Token(p.request)
    && (p.request.tick in w.ledger ==> Bound(w, p.request))
    && (record.Succeeded? ==> Names(w, record.ref, p.request))
  }

  /** The local view: what one event may do, given the invariant. */
  ghost predicate LocalOk(w: World, p: Proc, d: Delta) {
    && d.proc.request == p.request && (p.early ==> d.proc.early)
    && (d.proc.phase.Started? ==> d == Stay(p))
    && (d.put.Some? ==> PutOk(w, p, d.put.value))
    && (d.launch ==> p.phase.Holding? && !d.proc.phase.MayLaunch())
    && (d.proc.phase.MayLaunch() ==>
        d.proc.early && (p.phase.MayLaunch() || (p.phase.Started? && p.request.tick !in w.ledger)))
    && (d.proc.phase.RunFailed? ==> d.proc.early)
    && (d.proc.phase.Holding? || d.proc.phase.RunFailed? || d.proc.phase.Reconciling? || d.proc.phase.Recording? ==>
          Bound(w, p.request) || d.put.Some?)
    && (d.proc.phase.Recording? || d.proc.phase.Returned? ==>
          Names(w, d.proc.phase.name, p.request) || (d.launch && d.proc.phase.name == |w.runs|))
  }

  lemma ReadOk(w: World, q: nat, e: Event)
    requires Inv(w) && q in w.procs && (e.Read? || e.ReRead?)
    ensures var p := w.procs[q]; LocalOk(w, p, Act(p, Found(w, p.request.tick), w.runs, e))
  {
    assert ProcOk(w, q);
  }

  lemma CreateOk(w: World, q: nat, e: Event)
    requires Inv(w) && q in w.procs && (e.Create?)
    ensures var p := w.procs[q]; LocalOk(w, p, Act(p, Found(w, p.request.tick), w.runs, e))
  {
    assert ProcOk(w, q);
  }

  lemma LaunchOk(w: World, q: nat, e: Event)
    requires Inv(w) && q in w.procs && (e.Launch?)
    ensures var p := w.procs[q]; LocalOk(w, p, Act(p, Found(w, p.request.tick), w.runs, e))
  {
    assert ProcOk(w, q);
  }

  lemma MarkOk(w: World, q: nat, e: Event)
    requires Inv(w) && q in w.procs && (e.MarkAmbiguous? || e.MarkSucceeded?)
    ensures var p := w.procs[q]; LocalOk(w, p, Act(p, Found(w, p.request.tick), w.runs, e))
  {
    assert ProcOk(w, q);
  }

  lemma ListOk(w: World, q: nat, e: Event)
    requires Inv(w) && q in w.procs && (e.List?)
    ensures var p := w.procs[q]; LocalOk(w, p, Act(p, Found(w, p.request.tick), w.runs, e))
  {
    assert ProcOk(w, q);
    var names := Matches(w.runs, w.procs[q].request);
    assert |names| == 1 ==> names[0] in names;
  }

  lemma RestOk(w: World, q: nat, e: Event)
    requires Inv(w) && q in w.procs && (e.Begin? || e.Crash?)
    ensures var p := w.procs[q]; LocalOk(w, p, Act(p, Found(w, p.request.tick), w.runs, e))
  {
    assert ProcOk(w, q);
  }

  lemma ActOk(w: World, q: nat, e: Event)
    requires Inv(w) && q in w.procs
    ensures var p := w.procs[q]; LocalOk(w, p, Act(p, Found(w, p.request.tick), w.runs, e))
  {
    if e.Read? || e.ReRead? { ReadOk(w, q, e); } else if e.Create? { CreateOk(w, q, e); }
    else if e.Launch? { LaunchOk(w, q, e); } else if e.List? { ListOk(w, q, e); }
    else if e.Begin? || e.Crash? { RestOk(w, q, e); } else { MarkOk(w, q, e); }
  }

  lemma StepGrows(w: World, e: Event)
    requires Inv(w)
    ensures Grows(w, Step(w, e))
  {
    if e.pid in w.procs { ActOk(w, e.pid, e); }
  }

  lemma DeltaProcOk(w: World, w': World, q: nat, d: Delta)
    requires Inv(w) && q in w.procs && q in w'.procs && w'.procs[q] == d.proc && LocalOk(w, w.procs[q], d)
        && Grows(w, w')
    requires d.put.Some? ==> Bound(w', w.procs[q].request)
    requires d.launch ==> Names(w', |w.runs|, w.procs[q].request)
    ensures ProcOk(w', q)
  {
    assert ProcOk(w, q);
  }

  lemma StepProcs(w: World, e: Event)
    requires Inv(w)
    ensures forall q | q in Step(w, e).procs :: ProcOk(Step(w, e), q)
  {
    StepGrows(w, e);
    forall q | q in Step(w, e).procs ensures ProcOk(Step(w, e), q) {
      if q == e.pid && q in w.procs {
        ActOk(w, q, e);
        DeltaProcOk(w, Step(w, e), q, Act(w.procs[q], Found(w, w.procs[q].request.tick), w.runs, e));
      }
      if q != e.pid { assert ProcOk(w, q); }
    }
  }

  lemma StepLaunches(w: World, e: Event)
    requires Inv(w)
    ensures var w' := Step(w, e);
      && (forall i | 0 <= i < |w'.runs| :: Launched(w', i))
      && (forall i, j | 0 <= i < j < |w'.runs| :: w'.runs[i].pid != w'.runs[j].pid)
  {
    StepGrows(w, e);
    var w' := Step(w, e);
    if e.pid in w.procs {
      ActOk(w, e.pid, e);
      assert ProcOk(w, e.pid);
    }
    forall i | 0 <= i < |w'.runs| ensures Launched(w', i) {
      if i < |w.runs| { assert Launched(w, i); }
    }
    forall i, j | 0 <= i < j < |w'.runs| ensures w'.runs[i].pid != w'.runs[j].pid {
      assert Launched(w, i);
    }
  }

  lemma StepInv(w: World, e: Event)
    requires Inv(w)
    ensures Inv(Step(w, e)) && Grows(w, Step(w, e))
  {
    StepGrows(w, e);
    StepProcs(w, e);
    StepLaunches(w, e);
    if e.pid in w.procs { ActOk(w, e.pid, e); }
  }

  lemma {:induction false} RunInv(w: World, es: seq<Event>)
    requires Inv(w)
    ensures Inv(Run(w, es))
    decreases |es|
  {
    if es != [] {
      StepInv(w, es[0]);
      RunInv(Step(w, es[0]), es[1..]);
    }
  }

  /** A tick, once recorded, stays bound to one workload for ever. */
  lemma {:induction false} BoundForever(w: World, es: seq<Event>, t: Tick)
    requires Inv(w) && t in w.ledger
    ensures t in Run(w, es).ledger && Run(w, es).ledger[t].token == w.ledger[t].token
    decreases |es|
  {
    if es != [] {
      StepInv(w, es[0]);
      BoundForever(Step(w, es[0]), es[1..], t);
    }
  }

  /** The dispatches of `t` whose first read found no record, and those that launched. */
  ghost function Early(w: World, t: Tick): set<nat> {
    set q | q in w.procs && w.procs[q].early && w.procs[q].request.tick == t
  }

  ghost function Launchers(w: World, t: Tick): set<nat> {
    set i | 0 <= i < |w.runs| && w.runs[i].request.tick == t :: w.runs[i].pid
  }

  lemma LaunchersEarly(w: World, t: Tick)
    requires Inv(w)
    ensures Launchers(w, t) <= Early(w, t)
  {
    forall i | 0 <= i < |w.runs| && w.runs[i].request.tick == t ensures w.runs[i].pid in Early(w, t) {
      assert Launched(w, i);
    }
  }

  /** Over every interleaving: each launch of a tick is by a different dispatch, one whose first
      read came before the record; all launches of a tick run the same workload; every receipt
      names a launch of its own request. */
  lemma Unconditional(es: seq<Event>, t: Tick)
    ensures var w := Run(EMPTY, es);
      && Launchers(w, t) <= Early(w, t)
      && (forall i, j | 0 <= i < j < |w.runs| :: w.runs[i].pid != w.runs[j].pid)
      && (forall i, j | 0 <= i < j < |w.runs| && w.runs[i].request.tick == w.runs[j].request.tick ::
           w.runs[i].request == w.runs[j].request)
      && (forall q | q in w.procs && w.procs[q].phase.Returned? :: Names(w, w.procs[q].phase.name, w.procs[q].request))
  {
    RunInv(EMPTY, es);
    var w := Run(EMPTY, es);
    LaunchersEarly(w, t);
    forall i, j | 0 <= i < j < |w.runs| && w.runs[i].request.tick == w.runs[j].request.tick
      ensures w.runs[i].request == w.runs[j].request
    {
      assert Launched(w, i) && Launched(w, j);
    }
    assert forall q | q in w.procs :: ProcOk(w, q);
  }

  lemma EarlyKept(w: World, e: Event, q: nat)
    requires Inv(w) && q in w.procs
    ensures Step(w, e).procs[q].request == w.procs[q].request
    ensures w.procs[q].request.tick in w.ledger ==> Step(w, e).procs[q].early == w.procs[q].early
  {}

  lemma EarlySettled(w: World, e: Event, t: Tick)
    requires Inv(w) && t in w.ledger
    ensures Early(Step(w, e), t) == Early(w, t)
  {
    forall q | q in w.procs
      ensures Step(w, e).procs[q].early == w.procs[q].early || w.procs[q].request.tick != t
      ensures Step(w, e).procs[q].request == w.procs[q].request
    {
      EarlyKept(w, e, q);
    }
  }

  /** Once a tick has a record its early readers are settled: any dispatch that reads later, even
      one that began earlier, never launches. */
  lemma {:induction false} LateReaderNeverLaunches(w: World, es: seq<Event>, t: Tick)
    requires Inv(w) && t in w.ledger
    ensures Early(Run(w, es), t) == Early(w, t)
    ensures Launchers(Run(w, es), t) <= Early(w, t)
    decreases |es|
  {
    if es == [] {
      LaunchersEarly(w, t);
    } else {
      var w' := Step(w, es[0]);
      StepInv(w, es[0]);
      EarlySettled(w, es[0], t);
      LateReaderNeverLaunches(w', es[1..], t);
    }
  }

  /** The event calls the job, whatever becomes of the call. */
  predicate Fires(w: World, e: Event) { e.Launch? && e.pid in w.procs && w.procs[e.pid].phase.Holding? }

  /** How many calls dispatch `q` issues in a run. */
  function IssuedBy(w: World, es: seq<Event>, q: nat): nat
    decreases |es|
  {
    if es == [] then 0 else (if Fires(w, es[0]) && es[0].pid == q then 1 else 0) + IssuedBy(Step(w, es[0]), es[1..], q)
  }

  lemma {:induction false} EarlyStays(w: World, es: seq<Event>, q: nat)
    requires Inv(w) && q in w.procs && w.procs[q].early
    ensures q in Run(w, es).procs && Run(w, es).procs[q].early
    decreases |es|
  {
    if es != [] {
      if es[0].pid in w.procs { ActOk(w, es[0].pid, es[0]); }
      StepInv(w, es[0]);
      EarlyStays(Step(w, es[0]), es[1..], q);
    }
  }

  /** Over every interleaving and with every failure, a dispatch calls the job at most once, and only
      if its first read found no record. */
  lemma {:induction false} OneCallEach(w: World, es: seq<Event>, q: nat)
    requires Inv(w)
    ensures IssuedBy(w, es, q)
         <= if q in w.procs && !w.procs[q].phase.Started? && !w.procs[q].phase.MayLaunch() then 0 else 1
    ensures IssuedBy(w, es, q) > 0 ==> q in Run(w, es).procs && Run(w, es).procs[q].early
    decreases |es|
  {
    if es != [] {
      var w' := Step(w, es[0]);
      if es[0].pid in w.procs { ActOk(w, es[0].pid, es[0]); }
      StepInv(w, es[0]);
      OneCallEach(w', es[1..], q);
      if Fires(w, es[0]) && es[0].pid == q {
        assert ProcOk(w, q);
        EarlyStays(w', es[1..], q);
      }
    }
  }

  // ---- At most one launch, when dispatches of a tick do not overlap ----

  ghost predicate Busy(w: World, t: Tick) {
    exists q | q in w.procs :: w.procs[q].phase.InFlight() && w.procs[q].request.tick == t
  }

  /** No dispatch begins while another one of the same tick is in flight: the caller's lease. */
  ghost predicate Serial(w: World, es: seq<Event>)
    decreases |es|
  {
    es == [] || ((es[0].Begin? && es[0].pid !in w.procs ==> !Busy(w, es[0].request.tick))
        && Serial(Step(w, es[0]), es[1..]))
  }

  ghost predicate AtMostOnce(w: World) {
    forall i, j | 0 <= i < |w.runs| && 0 <= j < |w.runs| && w.runs[i].request.tick == w.runs[j].request.tick :: i == j
  }

  /** A dispatch on its way to its launch has seen none for its tick; while it is about to
      create the record there is none. */
  ghost predicate Untouched(w: World, q: nat)
    requires q in w.procs
  {
    var t := w.procs[q].request.tick;
    && (forall i | 0 <= i < |w.runs| :: w.runs[i].request.tick != t)
    && (w.procs[q].phase.Absent? ==> t !in w.ledger)
  }

  /** At most one dispatch of a tick is in flight. */
  ghost predicate Alone(w: World) {
    forall q, r | q in w.procs && r in w.procs && q != r && w.procs[q].phase.InFlight()
        && w.procs[r].phase.InFlight() ::
      w.procs[q].request.tick != w.procs[r].request.tick
  }

  ghost predicate SerialInv(w: World) {
    && Inv(w)
    && AtMostOnce(w)
    && Alone(w)
    && (forall q | q in w.procs && w.procs[q].phase.MayLaunch() :: Untouched(w, q))
  }

  lemma SerialUntouched(w: World, e: Event, q: nat)
    requires SerialInv(w) && q in Step(w, e).procs && Step(w, e).procs[q].phase.MayLaunch()
    requires e.Begin? && e.pid !in w.procs ==> !Busy(w, e.request.tick)
    ensures Untouched(Step(w, e), q)
  {
    if e.pid in w.procs { ActOk(w, e.pid, e); }
    assert q in w.procs;
    if w.procs[q].phase.MayLaunch() {
      assert Untouched(w, q);
    } else {
      forall i | 0 <= i < |w.runs| ensures w.runs[i].request.tick != w.procs[q].request.tick { assert Launched(w, i); }
    }
  }

  lemma FlightEnds(w: World, e: Event, q: nat)
    requires Inv(w) && q in w.procs
    ensures Step(w, e).procs[q].request == w.procs[q].request
    ensures (Step(w, e).procs[q].phase.InFlight() ==> w.procs[q].phase.InFlight())
  {
    if e.pid in w.procs { ActOk(w, e.pid, e); }
  }

  lemma SerialAlone(w: World, e: Event)
    requires SerialInv(w)
    requires e.Begin? && e.pid !in w.procs ==> !Busy(w, e.request.tick)
    ensures Alone(Step(w, e))
  {
    forall q | q in w.procs
      ensures Step(w, e).procs[q].request == w.procs[q].request
      ensures Step(w, e).procs[q].phase.InFlight() ==> w.procs[q].phase.InFlight()
    {
      FlightEnds(w, e, q);
    }
  }

  lemma SerialOnce(w: World, e: Event)
    requires SerialInv(w)
    ensures AtMostOnce(Step(w, e))
  {
    if e.pid in w.procs {
      ActOk(w, e.pid, e);
      if w.procs[e.pid].phase.MayLaunch() { assert Untouched(w, e.pid); }
    }
  }

  lemma SerialStep(w: World, e: Event)
    requires SerialInv(w)
    requires e.Begin? && e.pid !in w.procs ==> !Busy(w, e.request.tick)
    ensures SerialInv(Step(w, e))
  {
    StepInv(w, e);
    SerialAlone(w, e);
    SerialOnce(w, e);
    forall q | q in Step(w, e).procs && Step(w, e).procs[q].phase.MayLaunch() ensures Untouched(Step(w, e), q) {
      SerialUntouched(w, e, q);
    }
  }

  lemma {:induction false} SerialRun(w: World, es: seq<Event>)
    requires SerialInv(w) && Serial(w, es)
    ensures SerialInv(Run(w, es))
    decreases |es|
  {
    if es != [] {
      SerialStep(w, es[0]);
      SerialRun(Step(w, es[0]), es[1..]);
    }
  }

  /** The event calls the job for tick `t`. */
  predicate Calls(w: World, e: Event, t: Tick) { Fires(w, e) && w.procs[e.pid].request.tick == t }

  /** How many calls for tick `t` a run issues, those included that raise without an effect. */
  function Issued(w: World, es: seq<Event>, t: Tick): nat
    decreases |es|
  {
    if es == [] then 0 else (if Calls(w, es[0], t) then 1 else 0) + Issued(Step(w, es[0]), es[1..], t)
  }

  /** The tick has no record, or a dispatch of it is on its way to the call. */
  ghost predicate CallAhead(w: World, t: Tick) {
    t !in w.ledger || exists q | q in w.procs :: w.procs[q].request.tick == t && w.procs[q].phase.MayLaunch()
  }

  /** What is on its way to the call was so before, or the tick had no record. */
  lemma AheadBefore(w: World, e: Event, q: nat)
    requires Inv(w) && q in Step(w, e).procs && Step(w, e).procs[q].phase.MayLaunch()
    ensures q in w.procs && Step(w, e).procs[q].request == w.procs[q].request
    ensures w.procs[q].phase.MayLaunch() || w.procs[q].request.tick !in w.ledger
  {
    if e.pid in w.procs { ActOk(w, e.pid, e); }
  }

  /** After the call the tick has a record, and the caller was alone. */
  lemma CallUsed(w: World, e: Event, t: Tick)
    requires Inv(w) && Alone(w) && Calls(w, e, t)
    ensures !CallAhead(Step(w, e), t)
  {
    assert ProcOk(w, e.pid);
    StepGrows(w, e);
    forall q | q in Step(w, e).procs && Step(w, e).procs[q].phase.MayLaunch()
      ensures Step(w, e).procs[q].request.tick != t
    {
      AheadBefore(w, e, q);
    }
  }

  lemma AheadKept(w: World, e: Event, t: Tick)
    requires Inv(w) && CallAhead(Step(w, e), t)
    ensures CallAhead(w, t)
  {
    StepGrows(w, e);
    var w' := Step(w, e);
    if t in w'.ledger {
      var q :| q in w'.procs && w'.procs[q].request.tick == t && w'.procs[q].phase.MayLaunch();
      AheadBefore(w, e, q);
    }
  }

  lemma {:induction false} IssuedOnce(w: World, es: seq<Event>, t: Tick)
    requires SerialInv(w) && Serial(w, es)
    ensures Issued(w, es, t) <= if CallAhead(w, t) then 1 else 0
    decreases |es|
  {
    if es != [] {
      SerialStep(w, es[0]);
      if Calls(w, es[0], t) { CallUsed(w, es[0], t); }
      if CallAhead(Step(w, es[0]), t) { AheadKept(w, es[0], t); }
      IssuedOnce(Step(w, es[0]), es[1..], t);
    }
  }

  /** With non-overlapping dispatches, whatever fails or crashes, the job is called at most once for
      a tick, even if the call raises, and every receipt ever returned for it names that one execution. */
  lemma AtMostOneLaunch(es: seq<Event>)
    requires Serial(EMPTY, es)
    ensures forall t :: Issued(EMPTY, es, t) <= 1
    ensures AtMostOnce(Run(EMPTY, es))
    ensures forall q, r | q in Run(EMPTY, es).procs && r in Run(EMPTY, es).procs ::
      var p, p' := Run(EMPTY, es).procs[q], Run(EMPTY, es).procs[r];
      p.phase.Returned? && p'.phase.Returned? && p.request.tick == p'.request.tick ==> p.phase.name == p'.phase.name
  {
    SerialRun(EMPTY, es);
    forall t ensures Issued(EMPTY, es, t) <= 1 { IssuedOnce(EMPTY, es, t); }
    var w := Run(EMPTY, es);
    assert forall q | q in w.procs :: ProcOk(w, q);
  }

  // ---- Exactly when two overlapping dispatches can both launch ----

  ghost predicate HasLaunched(w: World, q: nat) { exists i | 0 <= i < |w.runs| :: w.runs[i].pid == q }

  /** A claimed record of this request may still be taken over, and a missing one still be made. */
  predicate Open(w: World, request: Request) {
    request.tick in w.ledger ==> w.ledger[request.tick] == Claimed(Token(request))
  }

  /** Dispatch `q` holds the record, or can still come to hold it. */
  predicate Hopeful(w: World, q: nat)
    requires q in w.procs
  {
    var p := w.procs[q];
    || p.phase.Holding?
    || ((p.phase.Absent? || p.phase.Lost?) && Open(w, p.request))
    || (p.phase.Started? && p.request.tick !in w.ledger)
  }

  ghost predicate CanLaunch(w: World, q: nat)
    requires q in w.procs
  {
    HasLaunched(w, q) || Hopeful(w, q)
  }

  /** A record never goes back to being claimed. */
  lemma RecordMoves(w: World, e: Event)
    requires Inv(w) && e.pid in w.procs
    ensures var t := w.procs[e.pid].request.tick;
      t in w.ledger ==>
        t in Step(w, e).ledger
        && (Step(w, e).ledger[t] == w.ledger[t] || !Step(w, e).ledger[t].Claimed?)
  {
    ActOk(w, e.pid, e);
  }

  lemma StepHopeless(w: World, e: Event, q: nat)
    requires Inv(w) && q in w.procs && !CanLaunch(w, q)
    ensures q in Step(w, e).procs && !CanLaunch(Step(w, e), q)
  {
    if e.pid in w.procs { ActOk(w, e.pid, e); }
    assert ProcOk(w, q);
    var w' := Step(w, e);
    assert !HasLaunched(w', q) by {
      forall i | 0 <= i < |w'.runs| ensures w'.runs[i].pid != q {
        if i < |w.runs| { assert w'.runs[i] == w.runs[i]; }
      }
    }
    if e.pid in w.procs && e.pid != q && w.procs[e.pid].request.tick == w.procs[q].request.tick { RecordMoves(w, e); }
  }

  lemma {:induction false} RunHopeless(w: World, es: seq<Event>, q: nat)
    requires Inv(w) && q in w.procs && !CanLaunch(w, q)
    ensures !HasLaunched(Run(w, es), q)
    decreases |es|
  {
    if es != [] {
      StepInv(w, es[0]);
      StepHopeless(w, es[0], q);
      RunHopeless(Step(w, es[0]), es[1..], q);
    }
  }

  /** A record is there, and dispatch `q` has launched, or holds it, or can take it over. */
  ghost predicate Ready(w: World, q: nat, t: Tick) {
    && q in w.procs && w.procs[q].request.tick == t && t in w.ledger
    && CanLaunch(w, q)
  }

  /** What a dispatch still has to do under a claimed record. Events that its phase does not allow do nothing. */
  function GoOn(q: nat): seq<Event> { [Create(q, Done), ReRead(q, true), Launch(q, Done, true)] }

  lemma StaysReady(w: World, q: nat, e: Event, other: nat, t: Tick)
    requires Inv(w) && Ready(w, q, t) && Ready(w, other, t) && e.pid == q && (e.Create? || e.ReRead? || e.Launch?)
    ensures var w' := Step(w, e);
      && Inv(w') && w'.ledger == w.ledger
      && (HasLaunched(w, q) ==> HasLaunched(w', q)) && (other != q ==> Ready(w', other, t))
  {
    StepInv(w, e);
    var w' := Step(w, e);
    if i :| 0 <= i < |w.runs| && w.runs[i].pid == q { assert w'.runs[i].pid == q; }
    if i :| 0 <= i < |w.runs| && w.runs[i].pid == other { assert w'.runs[i].pid == other; }
  }

  lemma Takes(w: World, q: nat, t: Tick)
    requires Inv(w) && Ready(w, q, t)
    ensures Ready(Step(w, Create(q, Done)), q, t)
    ensures w.procs[q].phase.Absent? || Step(w, Create(q, Done)).procs[q] == w.procs[q]
    ensures w.procs[q].phase.Absent? ==> Step(w, Create(q, Done)).procs[q].phase.Lost?
  {
    StaysReady(w, q, Create(q, Done), q, t);
  }

  lemma Holds(w: World, q: nat, t: Tick)
    requires Inv(w) && Ready(w, q, t) && !w.procs[q].phase.Absent?
    ensures var w' := Step(w, ReRead(q, true)); Ready(w', q, t) && (HasLaunched(w', q) || w'.procs[q].phase.Holding?)
  {
    StaysReady(w, q, ReRead(q, true), q, t);
  }

  lemma Launches(w: World, q: nat, t: Tick)
    requires Inv(w) && Ready(w, q, t) && (HasLaunched(w, q) || w.procs[q].phase.Holding?)
    ensures HasLaunched(Step(w, Launch(q, Done, true)), q)
  {
    StaysReady(w, q, Launch(q, Done, true), q, t);
    if !HasLaunched(w, q) { assert Step(w, Launch(q, Done, true)).runs[|w.runs|].pid == q; }
  }

  lemma GoesOnFrom(w: World, q: nat, other: nat, t: Tick)
    requires Inv(w) && Ready(w, q, t) && Ready(w, other, t) && !w.procs[q].phase.Absent?
    ensures var w' := Step(Step(w, ReRead(q, true)), Launch(q, Done, true));
      Inv(w') && HasLaunched(w', q) && Ready(w', other, t)
  {
    StaysReady(w, q, ReRead(q, true), other, t);
    Holds(w, q, t);
    var w1 := Step(w, ReRead(q, true));
    StaysReady(w1, q, Launch(q, Done, true), other, t);
    Launches(w1, q, t);
  }

  /** Under a record, a dispatch that can launch does, and takes the chance from no other. */
  lemma GoesOn(w: World, q: nat, other: nat, t: Tick)
    requires Inv(w) && Ready(w, q, t) && Ready(w, other, t)
    ensures var w' := Run(w, GoOn(q)); Inv(w') && HasLaunched(w', q) && Ready(w', other, t)
  {
    var es := GoOn(q);
    var w1 := Step(w, es[0]);
    var w2 := Step(w1, es[1]);
    var w3 := Step(w2, es[2]);
    assert es[1..][1..] == es[2..] && es[2..][1..] == [];
    assert Run(w, es) == Run(w1, es[1..]) == Run(w2, es[2..]) == w3;
    StaysReady(w, q, es[0], other, t);
    Takes(w, q, t);
    if HasLaunched(w, q) { assert HasLaunched(w1, q); }
    assert other != q ==> Ready(w1, other, t);
    GoesOnFrom(w1, q, other, t);
  }

  lemma {:induction false} Unused(s: set<nat>) returns (r: nat)
    ensures r !in s && forall x | x in s :: x < r
    decreases |s|
  {
    if s == {} {
      r := 0;
    } else {
      var x :| x in s;
      var rest := Unused(s - {x});
      r := if x < rest then rest else x + 1;
      forall y | y in s ensures y < r { assert y == x || y in s - {x}; }
    }
  }

  /** Without a record nobody has launched or holds it. */
  lemma NotYet(w: World, q: nat)
    requires Inv(w) && q in w.procs && w.procs[q].request.tick !in w.ledger
    ensures !HasLaunched(w, q) && !w.procs[q].phase.Holding?
  {
    assert ProcOk(w, q);
    forall i | 0 <= i < |w.runs| ensures w.runs[i].pid != q { assert Launched(w, i); }
  }

  /** The dispatch has read no record, and there is none. */
  ghost predicate Waits(w: World, p: nat, request: Request) {
    && p in w.procs && w.procs[p].request == request && request.tick !in w.ledger
    && (w.procs[p].phase.Absent? || w.procs[p].phase.Lost?)
  }

  lemma ReadsNothing(w: World, p: nat, other: nat)
    requires Inv(w) && p in w.procs && w.procs[p].request.tick !in w.ledger && CanLaunch(w, p)
    ensures var request := w.procs[p].request; var w' := Step(w, Read(p, true));
      && Inv(w') && Waits(w', p, request) && w'.procs.Keys == w.procs.Keys && w'.ledger == w.ledger
      && (Waits(w, other, request) ==> Waits(w', other, request))
      && (other in w.procs && CanLaunch(w, other) ==>
          CanLaunch(w', other) && w'.procs[other].request == w.procs[other].request)
  {
    StepInv(w, Read(p, true));
    NotYet(w, p);
    if other in w.procs && other != p && HasLaunched(w, other) { assert HasLaunched(Step(w, Read(p, true)), other); }
  }

  /** A third dispatch makes the record. */
  function Make(r: nat, request: Request): seq<Event> {
    [Begin(r, request), Read(r, true), Create(r, Done)]
  }

  lemma Made(w: World, r: nat, request: Request, p: nat)
    requires Inv(w) && Waits(w, p, request) && r !in w.procs
    ensures var w' := Run(w, Make(r, request)); Inv(w') && Ready(w', p, request.tick)
  {
    var es := Make(r, request);
    RunInv(w, es);
    var w1 := Step(w, es[0]);
    var w2 := Step(w1, es[1]);
    assert es[1..][1..] == es[2..] && es[2..][1..] == [];
    assert Run(w, es) == Run(w1, es[1..]) == Run(w2, es[2..]) == Step(w2, es[2]);
    assert w2.procs[r] == Proc(request, Absent, true) && w2.ledger == w.ledger;
  }

  /** Where no record is, two dispatches read so before a third one makes it. */
  function ReadAndMake(p: nat, q: nat, r: nat, request: Request): seq<Event> {
    [Read(p, true), Read(q, true)] + Make(r, request)
  }

  lemma ReadMade(w: World, p: nat, q: nat, r: nat)
    requires Inv(w) && p in w.procs && q in w.procs && r !in w.procs && w.procs[p].request == w.procs[q].request
    requires w.procs[p].request.tick !in w.ledger && CanLaunch(w, p) && CanLaunch(w, q)
    ensures var request := w.procs[p].request; var w' := Run(w, ReadAndMake(p, q, r, request));
      Inv(w') && Ready(w', p, request.tick) && Ready(w', q, request.tick)
  {
    var request := w.procs[p].request;
    var w1 := Step(w, Read(p, true));
    var w2 := Step(w1, Read(q, true));
    var es := ReadAndMake(p, q, r, request);
    assert es[1..][0] == Read(q, true) && es[1..][1..] == Make(r, request);
    assert Run(w, es) == Run(w1, es[1..]) == Run(w2, Make(r, request));
    ReadsNothing(w, p, q);
    ReadsNothing(w1, q, p);
    Made(w2, r, request, p);
    Made(w2, r, request, q);
  }

  /** The continuation makes both launch. */
  ghost predicate BothIn(w: World, es: seq<Event>, p: nat, q: nat) {
    HasLaunched(Run(w, es), p) && HasLaunched(Run(w, es), q)
  }

  lemma {:induction false} RunGrows(w: World, es: seq<Event>, q: nat)
    requires Inv(w) && HasLaunched(w, q)
    ensures HasLaunched(Run(w, es), q)
    decreases |es|
  {
    if es != [] {
      StepInv(w, es[0]);
      var i :| 0 <= i < |w.runs| && w.runs[i].pid == q;
      assert Step(w, es[0]).runs[i].pid == q;
      RunGrows(Step(w, es[0]), es[1..], q);
    }
  }

  lemma {:induction false} RunConcat(w: World, es: seq<Event>, fs: seq<Event>)
    ensures Run(w, es + fs) == Run(Run(w, es), fs)
    decreases |es|
  {
    if es == [] {
      assert es + fs == fs;
    } else {
      assert (es + fs)[1..] == es[1..] + fs;
      RunConcat(Step(w, es[0]), es[1..], fs);
    }
  }

  lemma ReadyLaunch(w: World, p: nat, q: nat, t: Tick)
    requires Inv(w) && Ready(w, p, t) && Ready(w, q, t)
    ensures var w' := Run(w, GoOn(p) + GoOn(q)); HasLaunched(w', p) && HasLaunched(w', q)
  {
    RunConcat(w, GoOn(p), GoOn(q));
    GoesOn(w, p, q, t);
    var w1 := Run(w, GoOn(p));
    GoesOn(w1, q, q, t);
    RunGrows(w1, GoOn(q), p);
  }

  lemma BothLaunch(w: World, p: nat, q: nat) returns (es: seq<Event>)
    requires Inv(w) && p in w.procs && q in w.procs && w.procs[p].request == w.procs[q].request
    requires CanLaunch(w, p) && CanLaunch(w, q)
    ensures HasLaunched(Run(w, es), p) && HasLaunched(Run(w, es), q)
  {
    var t := w.procs[p].request.tick;
    if t in w.ledger {
      es := GoOn(p) + GoOn(q);
      ReadyLaunch(w, p, q, t);
    } else {
      var r := Unused(w.procs.Keys);
      ReadMade(w, p, q, r);
      var made := ReadAndMake(p, q, r, w.procs[p].request);
      ReadyLaunch(Run(w, made), p, q, t);
      es := made + (GoOn(p) + GoOn(q));
      RunConcat(w, made, GoOn(p) + GoOn(q));
    }
  }

  /** The exact condition: in any state that a run can reach, two dispatches of one request can both come
      to launch, by some continuation, exactly if each of them has launched, holds the record, waits to
      create or re-read it while it is claimed or missing, or has yet to read while it is missing. */
  lemma OverlapLaunchesTwice(w: World, p: nat, q: nat)
    requires Inv(w) && p in w.procs && q in w.procs && w.procs[p].request == w.procs[q].request
    ensures (exists es :: BothIn(w, es, p, q)) <==> CanLaunch(w, p) && CanLaunch(w, q)
  {
    forall es | BothIn(w, es, p, q) ensures CanLaunch(w, p) && CanLaunch(w, q) {
      if !CanLaunch(w, p) { RunHopeless(w, es, p); }
      if !CanLaunch(w, q) { RunHopeless(w, es, q); }
    }
    if CanLaunch(w, p) && CanLaunch(w, q) {
      var es := BothLaunch(w, p, q);
      assert BothIn(w, es, p, q);
    }
  }

  lemma {:induction false} RequestKept(w: World, es: seq<Event>, q: nat)
    requires Inv(w) && q in w.procs
    ensures q in Run(w, es).procs && Run(w, es).procs[q].request == w.procs[q].request
    decreases |es|
  {
    if es != [] {
      StepInv(w, es[0]);
      FlightEnds(w, es[0], q);
      RequestKept(Step(w, es[0]), es[1..], q);
    }
  }

  lemma TwoLaunches(w: World, p: nat, q: nat, request: Request)
    requires Inv(w) && p != q && HasLaunched(w, p) && HasLaunched(w, q)
    requires p in w.procs && q in w.procs && w.procs[p].request == w.procs[q].request == request
    ensures !AtMostOnce(w)
  {
    var i :| 0 <= i < |w.runs| && w.runs[i].pid == p;
    var j :| 0 <= j < |w.runs| && w.runs[j].pid == q;
    assert Launched(w, i) && Launched(w, j);
  }

  /** Such states are reached from nothing: two dispatches that begin before either has read. */
  lemma OverlapReached(request: Request, p: nat, q: nat)
    requires p != q
    ensures var w := Run(EMPTY, [Begin(p, request), Begin(q, request)]);
      && Inv(w) && p in w.procs && q in w.procs && w.procs[p].request == w.procs[q].request == request
      && CanLaunch(w, p) && CanLaunch(w, q)
    ensures exists es :: !AtMostOnce(Run(EMPTY, es))
  {
    var start := [Begin(p, request), Begin(q, request)];
    var w1 := Step(EMPTY, start[0]);
    var w := Step(w1, start[1]);
    assert start[1..][0] == start[1] && start[1..][1..] == [];
    assert Run(EMPTY, start) == Run(w1, start[1..]) == Run(w, []) == w;
    RunInv(EMPTY, start);
    var es := BothLaunch(w, p, q);
    RunConcat(EMPTY, start, es);
    RunInv(w, es);
    RequestKept(w, es, p);
    RequestKept(w, es, q);
    TwoLaunches(Run(EMPTY, start + es), p, q, request);
    assert !AtMostOnce(Run(EMPTY, start + es));
  }

  // ---- One dispatch as the adapter runs it, among others ----

  /** How each remote call of one dispatch will end, and what the other dispatchers do just
      before its n-th call. */
  datatype Oracle = Oracle(read: bool, create: Outcome, reRead: bool, launch: Outcome, exact: bool,
                           ambiguous: Outcome, list: bool, mark: Outcome, others: nat -> seq<Event>)
  {
    ghost predicate Excludes(pid: nat) {
      forall n, e | e in others(n) :: e.pid != pid
    }

    /** Every call succeeds, undisturbed. */
    ghost predicate Faultless() {
      read && create.Done? && reRead && launch.Done? && ambiguous.Done? && list && mark.Done? && Quiet()
    }

    /** Nobody else does anything. */
    ghost predicate Quiet() { forall n :: others(n) == [] }
  }

  // ---- The calls of one dispatch, in order ----

  /** The next call of a dispatch in flight. */
  function NextCall(pid: nat, phase: Phase, o: Oracle): Event
    requires phase.InFlight()
  {
    match phase
    case Started => Read(pid, o.read)
    case Absent => Event.Create(pid, o.create)
    case Lost => ReRead(pid, o.reRead)
    case Holding => Launch(pid, o.launch, o.exact)
    case RunFailed => MarkAmbiguous(pid, o.ambiguous)
    case Reconciling => List(pid, o.list)
    case Recording(_, _) => MarkSucceeded(pid, o.mark)
  }

  /** Which events of others come before it. */
  function Slot(phase: Phase): nat
    requires phase.InFlight()
  {
    match phase
    case Started => 0
    case Absent => 1
    case Lost => 2
    case Holding => 3
    case RunFailed => 4
    case Reconciling => 5
    case Recording(_, created) => if created then 4 else 6
  }

  function CallsLeft(phase: Phase): nat {
    match phase
    case Started => 7
    case Absent => 6
    case Lost => 5
    case Holding => 4
    case RunFailed => 3
    case Reconciling => 2
    case Recording(_, _) => 1
    case _ => 0
  }

  function Turn(pid: nat, phase: Phase, o: Oracle): seq<Event>
    requires phase.InFlight()
  {
    o.others(Slot(phase)) + [NextCall(pid, phase, o)]
  }

  lemma {:induction false} OthersKeep(w: World, es: seq<Event>, pid: nat)
    requires pid in w.procs && forall e | e in es :: e.pid != pid
    ensures pid in Run(w, es).procs && Run(w, es).procs[pid] == w.procs[pid]
    decreases |es|
  {
    if es != [] { OthersKeep(Step(w, es[0]), es[1..], pid); }
  }

  lemma CallLowers(p: Proc, found: Option<Record>, runs: seq<Execution>, pid: nat, o: Oracle)
    requires p.phase.InFlight()
    ensures CallsLeft(Act(p, found, runs, NextCall(pid, p.phase, o)).proc.phase) < CallsLeft(p.phase)
  {}

  lemma RunSnoc(w: World, es: seq<Event>, e: Event)
    ensures Run(w, es + [e]) == Step(Run(w, es), e)
  {
    RunConcat(w, es, [e]);
    assert [e][1..] == [];
  }

  lemma TurnLowers(w: World, pid: nat, o: Oracle)
    requires pid in w.procs && w.procs[pid].phase.InFlight() && o.Excludes(pid)
    ensures var w' := Run(w, Turn(pid, w.procs[pid].phase, o));
      pid in w'.procs && CallsLeft(w'.procs[pid].phase) < CallsLeft(w.procs[pid].phase)
  {
    var p := w.procs[pid];
    var es, e := o.others(Slot(p.phase)), NextCall(pid, p.phase, o);
    OthersKeep(w, es, pid);
    RunSnoc(w, es, e);
    var v := Run(w, es);
    CallLowers(p, Found(v, p.request.tick), v.runs, pid, o);
  }

  /** All calls of dispatch `pid` from here on, until it has returned or failed. */
  ghost function Drive(w: World, pid: nat, o: Oracle): seq<Event>
    requires pid in w.procs && o.Excludes(pid)
    decreases CallsLeft(w.procs[pid].phase)
  {
    if !w.procs[pid].phase.InFlight() then []
    else
      var turn := Turn(pid, w.procs[pid].phase, o);
      TurnLowers(w, pid, o);
      turn + Drive(Run(w, turn), pid, o)
  }

  /** What has happened, and all calls that are still to come. */
  ghost function Whole(w0: World, trace: seq<Event>, pid: nat, o: Oracle): seq<Event>
    requires pid in Run(w0, trace).procs && o.Excludes(pid)
  {
    trace + Drive(Run(w0, trace), pid, o)
  }

  lemma Regroup(a: seq<Event>, b: seq<Event>, c: seq<Event>)
    ensures a + (b + c) == a + b + c
  {}

  lemma WholeKept(w0: World, trace: seq<Event>, pid: nat, o: Oracle)
    requires var w := Run(w0, trace); pid in w.procs && w.procs[pid].phase.InFlight() && o.Excludes(pid)
    ensures var turn := Turn(pid, Run(w0, trace).procs[pid].phase, o);
      pid in Run(w0, trace + turn).procs && Whole(w0, trace + turn, pid, o) == Whole(w0, trace, pid, o)
  {
    var w := Run(w0, trace);
    var turn := Turn(pid, w.procs[pid].phase, o);
    RunConcat(w0, trace, turn);
    TurnLowers(w, pid, o);
    Regroup(trace, turn, Drive(Run(w, turn), pid, o));
  }

  datatype Receipt = Receipt(name: nat, created: bool)

  /** Other dispatchers neither see nor touch the local state of dispatch `pid`. */
  lemma {:induction false} OthersIgnore(w: World, es: seq<Event>, pid: nat, p: Proc)
    requires forall e | e in es :: e.pid != pid
    ensures Run(w.(procs := w.procs[pid := p]), es) == Run(w, es).(procs := Run(w, es).procs[pid := p])
    ensures pid !in w.procs ==> pid !in Run(w, es).procs
    decreases |es|
  {
    if es != [] {
      var w' := Step(w, es[0]);
      assert es[0].pid in w.procs ==> w.procs[pid := p][es[0].pid := w'.procs[es[0].pid]] == w'.procs[pid := p];
      assert es[0].pid !in w.procs && es[0].Begin?
          ==> w.procs[pid := p][es[0].pid := Proc(es[0].request, Started, false)] == w'.procs[pid := p];
      assert Step(w.(procs := w.procs[pid := p]), es[0]) == w'.(procs := w'.procs[pid := p]);
      OthersIgnore(w', es[1..], pid, p);
    }
  }

  /** All that a dispatch does, with what the others do in between. */
  ghost function CallsOf(w: World, pid: nat, request: Request, o: Oracle): seq<Event>
    requires pid !in w.procs && o.Excludes(pid)
  {
    [Begin(pid, request)] + Drive(Step(w, Begin(pid, request)), pid, o)
  }

  // ---- What comes of a dispatch that nobody disturbs ----

  /** The state in which dispatch `pid` ends, from here. */
  ghost function After(w: World, pid: nat, o: Oracle): World
    requires pid in w.procs && o.Excludes(pid)
  {
    Run(w, Drive(w, pid, o))
  }

  ghost function AfterDispatch(w: World, pid: nat, request: Request, o: Oracle): World
    requires pid !in w.procs && o.Excludes(pid)
  {
    Run(w, CallsOf(w, pid, request, o))
  }

  lemma AfterBegin(w: World, pid: nat, request: Request, o: Oracle)
    requires pid !in w.procs && o.Excludes(pid)
    ensures AfterDispatch(w, pid, request, o)
         == After(w.(procs := w.procs[pid := Proc(request, Started, false)]), pid, o)
  {
    var es := CallsOf(w, pid, request, o);
    assert es[1..] == Drive(Step(w, es[0]), pid, o);
  }

  lemma AfterCall(w: World, pid: nat, o: Oracle)
    requires pid in w.procs && w.procs[pid].phase.InFlight() && o.Quiet()
    ensures var w' := Step(w, NextCall(pid, w.procs[pid].phase, o));
      pid in w'.procs && After(w, pid, o) == After(w', pid, o)
  {
    var turn := Turn(pid, w.procs[pid].phase, o);
    assert turn == [NextCall(pid, w.procs[pid].phase, o)];
    TurnLowers(w, pid, o);
    RunConcat(w, turn, Drive(Run(w, turn), pid, o));
    assert turn[1..] == [];
  }

  lemma AfterEnd(w: World, pid: nat, o: Oracle)
    requires pid in w.procs && !w.procs[pid].phase.InFlight() && o.Excludes(pid)
    ensures After(w, pid, o) == w
  {}

  /** How dispatch `pid` of this request stands. */
  function With(w: World, pid: nat, request: Request, phase: Phase, early: bool): World {
    w.(procs := w.procs[pid := Proc(request, phase, early)])
  }

  /** From the launch on: an exact execution is recorded and returned as created; another one is an error that
      leaves the record claimed. */
  lemma LaunchEnds(w: World, pid: nat, request: Request, o: Oracle)
    requires request.tick in w.ledger && o.Quiet() && o.launch.Done? && o.mark.Done?
    ensures var launched := w.(runs := w.runs + [Execution(pid, request)]);
      After(With(w, pid, request, Holding, true), pid, o) ==
        if o.exact then
          With(launched.(ledger := w.ledger[request.tick := Succeeded(Token(request), |w.runs|)]), pid, request,
               Returned(|w.runs|, true), true)
        else With(launched, pid, request, Phase.Failed, true)
  {
    var w0 := With(w, pid, request, Holding, true);
    AfterCall(w0, pid, o);
    var w1 := Step(w0, Launch(pid, o.launch, o.exact));
    if o.exact {
      assert w1 == With(w.(runs := w.runs + [Execution(pid, request)]), pid, request, Recording(|w.runs|, true), true);
      AfterCall(w1, pid, o);
      var w2 := Step(w1, MarkSucceeded(pid, o.mark));
      AfterEnd(w2, pid, o);
      assert w2 == With(w.(runs := w1.runs, ledger := w.ledger[request.tick := Succeeded(Token(request), |w.runs|)]),
                        pid, request, Returned(|w.runs|, true), true);
    } else {
      AfterEnd(w1, pid, o);
      assert w1 == With(w.(runs := w.runs + [Execution(pid, request)]), pid, request, Phase.Failed, true);
    }
  }

  /** Execution `n` is the only one of this request. */
  predicate OnlyRun(w: World, request: Request, n: nat) {
    && n < |w.runs| && w.runs[n].request == request
    && forall i | 0 <= i < |w.runs| && w.runs[i].request == request :: i == n
  }

  lemma OnlyMatch(w: World, request: Request, n: nat)
    ensures OnlyRun(w, request, n) <==> Matches(w.runs, request) == [n]
  {
    var names := Matches(w.runs, request);
    assert |names| <= 1 || names[0] < names[1];
    assert forall k | 0 <= k < |names| :: names[k] in names;
    if OnlyRun(w, request, n) { assert n in names; }
    if names == [n] {
      assert n in names;
      forall i | 0 <= i < |w.runs| && w.runs[i].request == request ensures i == n { assert i in names; }
    }
  }

  lemma Lists(w: World, pid: nat, request: Request, early: bool, o: Oracle, n: nat)
    requires o.Quiet() && o.list && OnlyRun(w, request, n)
    ensures After(With(w, pid, request, Reconciling, early), pid, o)
         == After(With(w, pid, request, Recording(n, false), early), pid, o)
  {
    OnlyMatch(w, request, n);
    var w0 := With(w, pid, request, Reconciling, early);
    AfterCall(w0, pid, o);
    assert Step(w0, List(pid, o.list)) == With(w, pid, request, Recording(n, false), early);
  }

  /** From reconciling on: the only execution of the request is recorded and returned. */
  lemma ReconcileFinds(w: World, pid: nat, request: Request, early: bool, o: Oracle, n: nat)
    requires request.tick in w.ledger && o.Quiet() && o.list && o.mark.Done? && OnlyRun(w, request, n)
    ensures After(With(w, pid, request, Reconciling, early), pid, o)
         == With(w.(ledger := w.ledger[request.tick := Succeeded(Token(request), n)]), pid, request,
                 Returned(n, false), early)
  {
    Lists(w, pid, request, early, o, n);
    var w1 := With(w, pid, request, Recording(n, false), early);
    AfterCall(w1, pid, o);
    var w2 := Step(w1, MarkSucceeded(pid, o.mark));
    AfterEnd(w2, pid, o);
    assert w2 == With(w.(ledger := w.ledger[request.tick := Succeeded(Token(request), n)]), pid, request,
                      Returned(n, false), early);
  }

  /** No execution of the request, or several of them, are an error that changes nothing. */
  lemma ReconcileFails(w: World, pid: nat, request: Request, early: bool, o: Oracle)
    requires o.Quiet() && forall n: nat :: !OnlyRun(w, request, n)
    ensures After(With(w, pid, request, Reconciling, early), pid, o) == With(w, pid, request, Phase.Failed, early)
  {
    var names := Matches(w.runs, request);
    if |names| == 1 {
      OnlyMatch(w, request, names[0]);
      assert false;
    }
    var w0 := With(w, pid, request, Reconciling, early);
    AfterCall(w0, pid, o);
    var w1 := Step(w0, List(pid, o.list));
    assert w1 == With(w, pid, request, Phase.Failed, early);
    AfterEnd(w1, pid, o);
  }

  /** A crash ends a dispatch in flight, for good, and touches nothing else; one that has ended is not touched. */
  lemma {:induction false} CrashStops(w: World, pid: nat, es: seq<Event>)
    requires pid in w.procs
    ensures var p := w.procs[pid];
      Step(w, Crash(pid)) == if p.phase.InFlight() then w.(procs := w.procs[pid := p.(phase := Phase.Failed)]) else w
    ensures w.procs[pid].phase == Phase.Failed ==> pid in Run(w, es).procs && Run(w, es).procs[pid] == w.procs[pid]
    decreases |es|
  {
    assert w.procs[pid := w.procs[pid]] == w.procs;
    if es != [] { CrashStops(Step(w, es[0]), pid, es[1..]); }
  }

  lemma FreshReads(w: World, pid: nat, request: Request, o: Oracle)
    requires pid !in w.procs && request.tick !in w.ledger && o.Quiet() && o.read
    ensures AfterDispatch(w, pid, request, o) == After(With(w, pid, request, Absent, true), pid, o)
  {
    AfterBegin(w, pid, request, o);
    var w0 := With(w, pid, request, Started, false);
    AfterCall(w0, pid, o);
    assert Step(w0, Read(pid, o.read)) == With(w, pid, request, Absent, true);
  }

  lemma CreateHolds(w: World, pid: nat, request: Request, o: Oracle)
    requires request.tick !in w.ledger && o.Quiet() && o.create.Done?
    ensures After(With(w, pid, request, Absent, true), pid, o)
         == After(With(w.(ledger := w.ledger[request.tick := Claimed(Token(request))]), pid, request, Holding, true),
                  pid, o)
  {
    var w1 := With(w, pid, request, Absent, true);
    AfterCall(w1, pid, o);
    assert Step(w1, Event.Create(pid, o.create))
        == With(w.(ledger := w.ledger[request.tick := Claimed(Token(request))]), pid, request, Holding, true);
  }

  /** A dispatch that finds no record and meets no fault: it starts exactly one execution, and if that is the one
      asked for, records and returns it as created; otherwise it fails, and the record stays claimed. */
  lemma FreshDispatch(w: World, pid: nat, request: Request, o: Oracle)
    requires pid !in w.procs && request.tick !in w.ledger && o.Faultless()
    ensures var w' := AfterDispatch(w, pid, request, o);
      && w'.runs == w.runs + [Execution(pid, request)]
      && w'.procs == w.procs[pid := Proc(request, if o.exact then Returned(|w.runs|, true) else Phase.Failed, true)]
      && w'.ledger == w.ledger[request.tick :=
           if o.exact then Succeeded(Token(request), |w.runs|) else Claimed(Token(request))]
  {
    FreshReads(w, pid, request, o);
    CreateHolds(w, pid, request, o);
    LaunchEnds(w.(ledger := w.ledger[request.tick := Claimed(Token(request))]), pid, request, o);
  }

  /** A create that took effect but raised is made good by reading again: the dispatch holds the record. */
  lemma LostCreateHolds(w: World, pid: nat, request: Request, o: Oracle)
    requires request.tick !in w.ledger && o.Quiet() && o.create.DoneButRaised? && o.reRead
    ensures After(With(w, pid, request, Absent, true), pid, o)
         == After(With(w.(ledger := w.ledger[request.tick := Claimed(Token(request))]), pid, request, Holding, true),
                  pid, o)
  {
    var w1 := With(w, pid, request, Absent, true);
    AfterCall(w1, pid, o);
    var w2 := Step(w1, Event.Create(pid, o.create));
    assert w2 == With(w.(ledger := w.ledger[request.tick := Claimed(Token(request))]), pid, request, Lost, true);
    AfterCall(w2, pid, o);
    assert Step(w2, ReRead(pid, o.reRead))
        == With(w.(ledger := w.ledger[request.tick := Claimed(Token(request))]), pid, request, Holding, true);
  }

  /** What a launch that raised has left of its execution. */
  function RunsAfterError(w: World, pid: nat, request: Request, o: Oracle): seq<Execution> {
    w.runs + if o.launch.DoneButRaised? then [Execution(pid, request)] else []
  }

  lemma LaunchRaises(w: World, pid: nat, request: Request, o: Oracle)
    requires o.Quiet() && !o.launch.Done?
    ensures After(With(w, pid, request, Holding, true), pid, o)
         == After(With(w.(runs := RunsAfterError(w, pid, request, o)), pid, request, RunFailed, true), pid, o)
  {
    var w0 := With(w, pid, request, Holding, true);
    AfterCall(w0, pid, o);
    assert Step(w0, Launch(pid, o.launch, o.exact))
        == With(w.(runs := RunsAfterError(w, pid, request, o)), pid, request, RunFailed, true);
  }

  lemma Suspects(w: World, pid: nat, request: Request, o: Oracle)
    requires o.Quiet() && !o.launch.Done? && o.ambiguous.Done?
    ensures After(With(w, pid, request, Holding, true), pid, o)
         == After(With(w.(runs := RunsAfterError(w, pid, request, o),
                          ledger := w.ledger[request.tick := Ambiguous(Token(request))]), pid, request, Reconciling,
                       true), pid, o)
  {
    LaunchRaises(w, pid, request, o);
    var w1 := With(w.(runs := RunsAfterError(w, pid, request, o)), pid, request, RunFailed, true);
    AfterCall(w1, pid, o);
    assert Step(w1, MarkAmbiguous(pid, o.ambiguous))
        == With(w.(runs := RunsAfterError(w, pid, request, o),
                   ledger := w.ledger[request.tick := Ambiguous(Token(request))]), pid, request, Reconciling, true);
  }

  /** A launch that raised is marked ambiguous and then reconciled: the execution is returned, as not created, if
      it was started and is the only one of the request; otherwise the dispatch fails, and the record stays
      ambiguous. */
  lemma LostLaunchReconciles(w: World, pid: nat, request: Request, o: Oracle)
    requires o.Quiet() && !o.launch.Done? && o.ambiguous.Done? && o.list && o.mark.Done?
    requires forall i | 0 <= i < |w.runs| :: w.runs[i].request != request
    ensures var w' := After(With(w, pid, request, Holding, true), pid, o); var n := |w.runs|;
      if o.launch.DoneButRaised? then
        w' == With(w.(runs := w.runs + [Execution(pid, request)],
                      ledger := w.ledger[request.tick := Succeeded(Token(request), n)]), pid, request,
                   Returned(n, false), true)
      else
        w' == With(w.(ledger := w.ledger[request.tick := Ambiguous(Token(request))]), pid, request, Phase.Failed, true)
  {
    Suspects(w, pid, request, o);
    var marked := w.(runs := RunsAfterError(w, pid, request, o),
                     ledger := w.ledger[request.tick := Ambiguous(Token(request))]);
    if o.launch.DoneButRaised? {
      assert OnlyRun(marked, request, |w.runs|);
      ReconcileFinds(marked, pid, request, true, o, |w.runs|);
      assert marked.ledger[request.tick := Succeeded(Token(request), |w.runs|)]
          == w.ledger[request.tick := Succeeded(Token(request), |w.runs|)];
    } else {
      assert marked.runs == w.runs;
      ReconcileFails(marked, pid, request, true, o);
    }
  }

  /** A dispatch that finds a record of its request: one that succeeded is returned, as not created, and nothing
      changes; under a claimed or ambiguous one the only execution of the request is recorded and returned. If
      there is no such execution or there are several, or the record is of another request, it fails and
      changes nothing. It never starts an execution. */
  lemma Redispatch(w: World, pid: nat, request: Request, o: Oracle)
    requires pid !in w.procs && request.tick in w.ledger && o.Faultless()
    ensures var w' := AfterDispatch(w, pid, request, o); var record := w.ledger[request.tick];
      && w'.runs == w.runs && pid in w'.procs && w'.procs == w.procs[pid := Proc(request, w'.procs[pid].phase, false)]
      && (record.token == Token(request) && record.Succeeded? ==>
            w'.procs[pid].phase == Returned(record.ref, false) && w'.ledger == w.ledger)
      && (forall n: nat | record.token == Token(request) && !record.Succeeded? && OnlyRun(w, request, n) ::
            w'.procs[pid].phase == Returned(n, false)
            && w'.ledger == w.ledger[request.tick := Succeeded(Token(request), n)])
      && (record.token != Token(request) || (!record.Succeeded? && forall n: nat :: !OnlyRun(w, request, n)) ==>
            w'.procs[pid].phase == Phase.Failed && w'.ledger == w.ledger)
  {
    var record := w.ledger[request.tick];
    AfterBegin(w, pid, request, o);
    var w0 := With(w, pid, request, Started, false);
    AfterCall(w0, pid, o);
    var w1 := Step(w0, Read(pid, o.read));
    assert w1 == With(w, pid, request, w1.procs[pid].phase, false);
    if record.token != Token(request) || record.Succeeded? {
      AfterEnd(w1, pid, o);
    } else {
      assert w1 == With(w, pid, request, Reconciling, false);
      if n: nat :| OnlyRun(w, request, n) {
        ReconcileFinds(w, pid, request, false, o, n);
      } else {
        ReconcileFails(w, pid, request, false, o);
      }
    }
  }

  /** The ledger documents, the job's executions, and the local states of the other dispatchers. */
  class Site {
    var docs: map<Tick, Record>
    var runs: seq<Execution>
    var procs: map<nat, Proc>

    ghost function View(pid: nat, p: Proc): World
      reads this
    {
      World(docs, runs, procs[pid := p])
    }

    method Others(es: seq<Event>, ghost pid: nat, ghost p: Proc, ghost w0: World, ghost trace: seq<Event>)
      returns (ghost trace': seq<Event>)
      requires pid !in procs && View(pid, p) == Run(w0, trace) && forall e | e in es :: e.pid != pid
      modifies this
      ensures pid !in procs && View(pid, p) == Run(w0, trace') && trace' == trace + es
    {
      OthersIgnore(World(docs, runs, procs), es, pid, p);
      RunConcat(w0, trace, es);
      var w := Run(World(docs, runs, procs), es);
      docs, runs, procs := w.ledger, w.runs, w.procs;
      trace' := trace + es;
    }

    method Get(t: Tick, ok: bool) returns (r: Result<Option<Record>, ()>)
      ensures r == if !ok then Err(()) else Ok(if t in docs then Some(docs[t]) else None)
    {
      r := if !ok then Err(()) else Ok(if t in docs then Some(docs[t]) else None);
    }

    /** `create` refuses to overwrite a document. */
    method Create(t: Tick, record: Record, outcome: Outcome) returns (ok: bool)
      modifies this`docs
      ensures docs == if t !in old(docs) && outcome.Effect() then old(docs)[t := record] else old(docs)
      ensures ok <==> t !in old(docs) && outcome.Done?
    {
      ok := t !in docs && outcome.Done?;
      if t !in docs && outcome.Effect() { docs := docs[t := record]; }
    }

    /** `mark_succeeded` and `mark_ambiguous` overwrite it. */
    method Mark(t: Tick, record: Record, outcome: Outcome) returns (ok: bool)
      modifies this`docs
      ensures docs == if outcome.Effect() then old(docs)[t := record] else old(docs)
      ensures ok <==> outcome.Done?
    {
      if outcome.Effect() { docs := docs[t := record]; }
      ok := outcome.Done?;
    }

    method RunJob(pid: nat, request: Request, outcome: Outcome) returns (execution: Option<nat>)
      modifies this`runs
      ensures runs == if outcome.Effect() then old(runs) + [Execution(pid, request)] else old(runs)
      ensures execution == if outcome.Done? then Some(|old(runs)|) else None
    {
      execution := if outcome.Done? then Some(|runs|) else None;
      if outcome.Effect() { runs := runs + [Execution(pid, request)]; }
    }
  }

  /** One more event of dispatch `pid`, seen from the site. */
  lemma Advance(w0: World, trace: seq<Event>, docs: map<Tick, Record>, runs: seq<Execution>, procs: map<nat, Proc>,
                p: Proc, e: Event)
    returns (p': Proc, trace': seq<Event>)
    requires Run(w0, trace) == World(docs, runs, procs[e.pid := p])
    ensures var t := p.request.tick; var d := Act(p, if t in docs then Some(docs[t]) else None, runs, e);
      && p' == d.proc && trace' == trace + [e]
      && Run(w0, trace') == World(if d.put.Some? then docs[t := d.put.value] else docs,
                                  if d.launch then runs + [Execution(e.pid, p.request)] else runs,
                                  procs[e.pid := p'])
  {
    var w := Run(w0, trace);
    RunSnoc(w0, trace, e);
    trace' := trace + [e];
    p' := Act(p, Found(w, p.request.tick), runs, e).proc;
    assert procs[e.pid := p][e.pid := p'] == procs[e.pid := p'];
  }

  ghost predicate Ends(p: Proc, request: Request, r: Option<Receipt>) {
    p.request == request &&
    p.phase == match r case Some(receipt) => Returned(receipt.name, receipt.created) case None => Failed
  }

  /** `all` is what has happened so far and all calls that are still to come. */
  ghost predicate OnCourse(w0: World, trace: seq<Event>, pid: nat, o: Oracle, all: seq<Event>) {
    pid in Run(w0, trace).procs && o.Excludes(pid) && Whole(w0, trace, pid, o) == all
  }

  lemma Turned(w0: World, trace: seq<Event>, pid: nat, o: Oracle, p: Proc, all: seq<Event>)
    requires pid in Run(w0, trace).procs && Run(w0, trace).procs[pid] == p && p.phase.InFlight()
    requires OnCourse(w0, trace, pid, o, all)
    ensures OnCourse(w0, trace + o.others(Slot(p.phase)) + [NextCall(pid, p.phase, o)], pid, o, all)
  {
    WholeKept(w0, trace, pid, o);
    Regroup(trace, o.others(Slot(p.phase)), [NextCall(pid, p.phase, o)]);
  }

  lemma CourseEnds(w0: World, trace: seq<Event>, pid: nat, o: Oracle, all: seq<Event>)
    requires OnCourse(w0, trace, pid, o, all) && !Run(w0, trace).procs[pid].phase.InFlight()
    ensures trace == all
  {}

  /** Lets the others go on, and then makes the next call of the dispatch; what the call does to the site
      is for the caller to carry out. */
  method Next(site: Site, slot: nat, pid: nat, o: Oracle, ghost p0: Proc, ghost w0: World, ghost trace0: seq<Event>,
              ghost all: seq<Event>)
    returns (ghost p: Proc, ghost trace: seq<Event>)
    requires pid !in site.procs && site.View(pid, p0) == Run(w0, trace0) && p0.phase.InFlight()
    requires OnCourse(w0, trace0, pid, o, all) && slot == Slot(p0.phase)
    modifies site
    ensures pid !in site.procs && OnCourse(w0, trace, pid, o, all)
    ensures var t := p0.request.tick;
      var d := Act(p0, if t in site.docs then Some(site.docs[t]) else None, site.runs, NextCall(pid, p0.phase, o));
      && p == d.proc
      && Run(w0, trace) == World(if d.put.Some? then site.docs[t := d.put.value] else site.docs,
                                 if d.launch then site.runs + [Execution(pid, p0.request)] else site.runs,
                                 site.procs[pid := p])
  {
    Turned(w0, trace0, pid, o, p0, all);
    trace := site.Others(o.others(slot), pid, p0, w0, trace0);
    p, trace := Advance(w0, trace, site.docs, site.runs, site.procs, p0, NextCall(pid, p0.phase, o));
  }

  /** Creates a claimed record; when the create raises, whatever record is there is returned. */
  method Claim(site: Site, pid: nat, request: Request, o: Oracle, ghost p0: Proc, ghost w0: World,
               ghost trace0: seq<Event>, ghost all: seq<Event>)
    returns (r: Result<Record, ()>, ghost trace: seq<Event>, ghost p: Proc)
    requires pid !in site.procs && site.View(pid, p0) == Run(w0, trace0) && OnCourse(w0, trace0, pid, o, all)
    requires p0 == Proc(request, Absent, true)
    modifies site
    ensures pid !in site.procs && site.View(pid, p) == Run(w0, trace)
    ensures p == Proc(request, if r.Err? then Failed else Resolve(request, r.value, true), true)
    ensures OnCourse(w0, trace, pid, o, all)
  {
    p, trace := Next(site, 1, pid, o, p0, w0, trace0, all);
    var created := site.Create(request.tick, Claimed(Token(request)), o.create);
    if created { return Ok(Claimed(Token(request))), trace, p; }
    p, trace := Next(site, 2, pid, o, p, w0, trace, all);
    var existing := site.Get(request.tick, o.reRead);
    if existing.Err? || existing.value.None? { return Err(()), trace, p; }
    r := Ok(existing.value.value);
  }

  method MatchingNames(runs: seq<Execution>, request: Request) returns (names: seq<nat>)
    ensures names == Matches(runs, request)
  {
    names := [];
    for i := 0 to |runs|
      invariant names == Matches(runs[..i], request)
    {
      assert runs[..i + 1][..i] == runs[..i];
      if runs[i].request == request { names := names + [i]; }
    }
    assert runs[..|runs|] == runs;
  }

  /** Marks the record succeeded with this execution. */
  method MarkRun(site: Site, pid: nat, request: Request, name: nat, created: bool, o: Oracle, ghost p0: Proc,
                 ghost w0: World, ghost trace0: seq<Event>, ghost all: seq<Event>)
    returns (r: Option<Receipt>, ghost trace: seq<Event>, ghost p: Proc)
    requires pid !in site.procs && site.View(pid, p0) == Run(w0, trace0) && OnCourse(w0, trace0, pid, o, all)
    requires p0 == Proc(request, Recording(name, created), p0.early)
    modifies site
    ensures site.View(pid, p) == Run(w0, trace)
    ensures Ends(p, request, r) && OnCourse(w0, trace, pid, o, all)
  {
    p, trace := Next(site, if created then 4 else 6, pid, o, p0, w0, trace0, all);
    var marked := site.Mark(request.tick, Succeeded(Token(request), name), o.mark);
    r := if marked then Some(Receipt(name, created)) else None;
  }

  /** Lists the executions, keeps the exact matches, and records the match if there is just one. */
  method Reconcile(site: Site, pid: nat, request: Request, o: Oracle, ghost p0: Proc, ghost w0: World,
                   ghost trace0: seq<Event>, ghost all: seq<Event>)
    returns (r: Option<Receipt>, ghost trace: seq<Event>, ghost p: Proc)
    requires pid !in site.procs && site.View(pid, p0) == Run(w0, trace0) && OnCourse(w0, trace0, pid, o, all)
    requires p0 == Proc(request, Reconciling, p0.early)
    modifies site
    ensures site.View(pid, p) == Run(w0, trace)
    ensures Ends(p, request, r) && OnCourse(w0, trace, pid, o, all)
  {
    p, trace := Next(site, 5, pid, o, p0, w0, trace0, all);
    if !o.list { return None, trace, p; }
    var matches := MatchingNames(site.runs, request);
    if |matches| != 1 { return None, trace, p; }
    r, trace, p := MarkRun(site, pid, request, matches[0], false, o, p, w0, trace, all);
  }

  /** After a run that raised: marks the record ambiguous, and reconciles. */
  method Suspect(site: Site, pid: nat, request: Request, o: Oracle, ghost p0: Proc, ghost w0: World,
                 ghost trace0: seq<Event>, ghost all: seq<Event>)
    returns (r: Option<Receipt>, ghost trace: seq<Event>, ghost p: Proc)
    requires pid !in site.procs && site.View(pid, p0) == Run(w0, trace0) && OnCourse(w0, trace0, pid, o, all)
    requires p0 == Proc(request, RunFailed, p0.early)
    modifies site
    ensures site.View(pid, p) == Run(w0, trace)
    ensures Ends(p, request, r) && OnCourse(w0, trace, pid, o, all)
  {
    p, trace := Next(site, 4, pid, o, p0, w0, trace0, all);
    var marked := site.Mark(request.tick, Ambiguous(Token(request)), o.ambiguous);
    if !marked { return None, trace, p; }
    r, trace, p := Reconcile(site, pid, request, o, p, w0, trace, all);
  }

  /** Runs the job under a claimed record, then records the execution or reconciles. */
  method RunAndMark(site: Site, pid: nat, request: Request, o: Oracle, ghost p0: Proc, ghost w0: World,
                    ghost trace0: seq<Event>, ghost all: seq<Event>)
    returns (r: Option<Receipt>, ghost trace: seq<Event>, ghost p: Proc)
    requires pid !in site.procs && site.View(pid, p0) == Run(w0, trace0) && OnCourse(w0, trace0, pid, o, all)
    requires p0 == Proc(request, Holding, true)
    modifies site
    ensures site.View(pid, p) == Run(w0, trace)
    ensures Ends(p, request, r) && OnCourse(w0, trace, pid, o, all)
  {
    p, trace := Next(site, 3, pid, o, p0, w0, trace0, all);
    var execution := site.RunJob(pid, request, o.launch);
    if execution.None? {
      r, trace, p := Suspect(site, pid, request, o, p, w0, trace, all);
      return;
    }
    if !o.exact { return None, trace, p; }
    r, trace, p := MarkRun(site, pid, request, execution.value, true, o, p, w0, trace, all);
  }

  method ResolveExisting(site: Site, pid: nat, request: Request, existing: Record, o: Oracle, ghost p0: Proc,
                         ghost w0: World, ghost trace0: seq<Event>, ghost all: seq<Event>)
    returns (r: Option<Receipt>, ghost trace: seq<Event>, ghost p: Proc)
    requires pid !in site.procs && site.View(pid, p0) == Run(w0, trace0) && OnCourse(w0, trace0, pid, o, all)
    requires p0 == Proc(request, if existing.Succeeded? then Returned(existing.ref, false) else Reconciling, p0.early)
    modifies site
    ensures site.View(pid, p) == Run(w0, trace)
    ensures Ends(p, request, r) && OnCourse(w0, trace, pid, o, all)
  {
    p, trace := p0, trace0;
    match existing {
      case Succeeded(_, ref) => r := Some(Receipt(ref, false));
      case Claimed(_) => r, trace, p := Reconcile(site, pid, request, o, p, w0, trace, all);
      case Ambiguous(_) => r, trace, p := Reconcile(site, pid, request, o, p, w0, trace, all);
    }
  }

  /** Reads the ledger, and goes on as the record that is there demands. */
  method ReadAndGo(site: Site, pid: nat, request: Request, o: Oracle, ghost p0: Proc, ghost w0: World,
                   ghost trace0: seq<Event>, ghost all: seq<Event>)
    returns (r: Option<Receipt>, ghost trace: seq<Event>, ghost p: Proc)
    requires pid !in site.procs && site.View(pid, p0) == Run(w0, trace0) && OnCourse(w0, trace0, pid, o, all)
    requires p0 == Proc(request, Started, false)
    modifies site
    ensures site.View(pid, p) == Run(w0, trace)
    ensures Ends(p, request, r) && OnCourse(w0, trace, pid, o, all)
  {
    p, trace := Next(site, 0, pid, o, p0, w0, trace0, all);
    var existing := site.Get(request.tick, o.read);
    if existing.Err? { return None, trace, p; }
    if existing.value.Some? {
      if existing.value.value.token != Token(request) { return None, trace, p; }
      r, trace, p := ResolveExisting(site, pid, request, existing.value.value, o, p, w0, trace, all);
      return;
    }
    var claimed;
    claimed, trace, p := Claim(site, pid, request, o, p, w0, trace, all);
    if claimed.Err? || claimed.value.token != Token(request) { return None, trace, p; }
    if !claimed.value.Claimed? {
      r, trace, p := ResolveExisting(site, pid, request, claimed.value, o, p, w0, trace, all);
      return;
    }
    r, trace, p := RunAndMark(site, pid, request, o, p, w0, trace, all);
  }

  /** Dispatches one request while other dispatchers run between its calls. Whatever happens is a
      run of the interleaving model, so everything proved about those holds of this code; and it is
      the run of exactly the calls that the dispatch has to make. */
  method Dispatch(site: Site, pid: nat, request: Request, o: Oracle)
    returns (r: Option<Receipt>, ghost trace: seq<Event>, ghost p: Proc)
    requires pid !in site.procs && o.Excludes(pid)
    modifies site
    ensures site.View(pid, p) == Run(old(World(site.docs, site.runs, site.procs)), trace)
    ensures Ends(p, request, r)
    ensures trace == CallsOf(old(World(site.docs, site.runs, site.procs)), pid, request, o)
    ensures o.Faultless() && request.tick !in old(site.docs) ==>
      && r == (if o.exact then Some(Receipt(|old(site.runs)|, true)) else None)
      && site.runs == old(site.runs) + [Execution(pid, request)]
      && site.docs == old(site.docs)[request.tick :=
           if o.exact then Succeeded(Token(request), |old(site.runs)|) else Claimed(Token(request))]
    ensures o.Faultless() && request.tick in old(site.docs) ==>
      var record := old(site.docs)[request.tick];
      && site.runs == old(site.runs)
      && (record.token == Token(request) && record.Succeeded? ==>
            r == Some(Receipt(record.ref, false)) && site.docs == old(site.docs))
      && (forall n: nat | record.token == Token(request) && !record.Succeeded?
              && OnlyRun(old(World(site.docs, site.runs, site.procs)), request, n) ::
            r == Some(Receipt(n, false)) && site.docs == old(site.docs)[request.tick := Succeeded(Token(request), n)])
  {
    ghost var w0 := World(site.docs, site.runs, site.procs);
    p, trace := Proc(request, Started, false), [Begin(pid, request)];
    RunSnoc(w0, [], trace[0]);
    assert [] + trace == trace;
    ghost var all := CallsOf(w0, pid, request, o);
    r, trace, p := ReadAndGo(site, pid, request, o, p, w0, trace, all);
    CourseEnds(w0, trace, pid, o, all);
    if o.Faultless() {
      if request.tick in w0.ledger { Redispatch(w0, pid, request, o); } else { FreshDispatch(w0, pid, request, o); }
    }
  }
}

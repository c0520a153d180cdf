/** The lease that serialises directory synchronisation: one document, taken over once it has
    expired, deleted by its holder. Commits can be ambiguous; a claimant whose transaction
    raised reads the document again to find out. */
module DirectoryLease {
  import opened Prelude

  /** Fifteen minutes, in microseconds. */
  const MAX_DURATION := 900_000_000

  /** A claim, which is also the record: fresh tokens differ, and so do their digests. */
  datatype Claim = Claim(token: string, acquired: int, expires: int)
  {
    predicate Valid() { acquired < expires <= acquired + MAX_DURATION }
  }

  /** What happened to the document, in commit order. */
  datatype Entry = Committed(claim: Claim) | Released(claim: Claim)

  datatype World = World(doc: Option<Claim>, log: seq<Entry>, returned: set<Claim>)

  datatype Op =
    | Acquire(claim: Claim, outcome: Outcome)   // one attempt of the transaction
    | Recover(claim: Claim)                     // the read after the transaction raised
    | Release(token: string, outcome: Outcome)

  /** Nothing unexpired is in the way. */
  predicate Free(doc: Option<Claim>, now: int) {
    doc.None? || doc.value.expires <= now
  }

  predicate Commits(w: World, op: Op) {
    op.Acquire? && op.claim.Valid() && Free(w.doc, op.claim.acquired) && op.outcome.Effect()
  }

  function Step(w: World, op: Op): World {
    match op
    case Acquire(c, outcome) =>
      if !c.Valid() then w
      else if Free(w.doc, c.acquired) then
        if !outcome.Effect() then w
        else World(Some(c), w.log + [Committed(c)], if outcome.Done? then w.returned + {c} else w.returned)
      else if w.doc == Some(c) && outcome.Done? then w.(returned := w.returned + {c})
      else w
    case Recover(c) =>
      if w.doc == Some(c) then w.(returned := w.returned + {c}) else w
    case Release(token, outcome) =>
      if w.doc.Some? && w.doc.value.token == token && outcome.Effect()
          then World(None, w.log + [Released(w.doc.value)], w.returned)
      else w
  }

  function Run(w: World, ops: seq<Op>): World
    decreases |ops|
  {
    if ops == [] then w else Run(Step(w, ops[0]), ops[1..])
  }

  const EMPTY := World(None, [], {})

  // ---- Mutual exclusion ----

  /** `t` is no earlier than any claim committed so far. */
  ghost predicate Reached(log: seq<Entry>, t: int) {
    forall i | 0 <= i < |log| && log[i].Committed? :: log[i].claim.acquired <= t
  }

  /** Claims are committed in the order of their clocks. */
  ghost predicate InOrder(w: World, ops: seq<Op>)
    decreases |ops|
  {
    ops == [] || ((Commits(w, ops[0]) ==> Reached(w.log, ops[0].claim.acquired)) && InOrder(Step(w, ops[0]), ops[1..]))
  }

  ghost predicate ReleasedIn(log: seq<Entry>, c: Claim, i: nat, j: nat) {
    exists k | i < k < j && k < |log| :: log[k] == Released(c)
  }

  /** Of two claims committed one after the other, the first was released in between, or had
      expired when the second was acquired. */
  ghost predicate Exclusive(log: seq<Entry>) {
    forall i, j | 0 <= i < j < |log| && log[i].Committed? && log[j].Committed? ::
      ReleasedIn(log, log[i].claim, i, j) || log[i].claim.expires <= log[j].claim.acquired
  }

  /** A committed claim is released, or is the record, or had expired at a later commit. */
  ghost predicate Settled(w: World, i: nat)
    requires i < |w.log|
  {
    w.log[i].Committed? ==>
      || ReleasedIn(w.log, w.log[i].claim, i, |w.log|)
      || w.doc == Some(w.log[i].claim)
      || exists j | i < j < |w.log| && w.log[j].Committed? :: w.log[i].claim.expires <= w.log[j].claim.acquired
  }

  ghost predicate Inv(w: World) {
    && Exclusive(w.log)
    && (forall i | 0 <= i < |w.log| :: Settled(w, i))
    && (w.doc.Some? ==> w.doc.value.Valid() && Committed(w.doc.value) in w.log)
    && (forall c | c in w.returned :: Committed(c) in w.log)
  }

  lemma ReleasedStays(log: seq<Entry>, more: seq<Entry>, c: Claim, i: nat, j: nat)
    requires ReleasedIn(log, c, i, j)
    ensures ReleasedIn(log + more, c, i, j) && ReleasedIn(log + more, c, i, |log + more|)
  {
    var k :| i < k < j && k < |log| && log[k] == Released(c);
    assert (log + more)[k] == Released(c);
  }

  lemma StepSettled(w: World, op: Op, i: nat)
    requires Inv(w) && i < |w.log|
    ensures Settled(Step(w, op), i)
  {
    var w' := Step(w, op);
    assert Settled(w, i);
    var n := |w.log|;
    if w'.log == w.log {
      assert w'.doc == w.doc;
    } else if w.log[i].Committed? {
      var c := w.log[i].claim;
      if ReleasedIn(w.log, c, i, n) {
        ReleasedStays(w.log, [w'.log[n]], c, i, n);
      } else if w.doc == Some(c) {
        assert w'.log[n].Released? ==> w'.log[n] == Released(c);
      } else {
        var j :| i < j < n && w.log[j].Committed? && c.expires <= w.log[j].claim.acquired;
        assert w'.log[j] == w.log[j];
      }
    }
  }

  lemma StaysApart(log: seq<Entry>, e: Entry, i: nat, j: nat)
    requires Exclusive(log) && i < j < |log| && log[i].Committed? && log[j].Committed?
    ensures ReleasedIn(log + [e], log[i].claim, i, j) || log[i].claim.expires <= log[j].claim.acquired
  {
    if ReleasedIn(log, log[i].claim, i, j) { ReleasedStays(log, [e], log[i].claim, i, j); }
  }

  /** A new claim is committed only after an earlier one was released or had expired. */
  lemma NewcomerWaits(w: World, op: Op, i: nat)
    requires Inv(w) && Commits(w, op) && Reached(w.log, op.claim.acquired) && i < |w.log| && w.log[i].Committed?
    ensures ReleasedIn(w.log + [Committed(op.claim)], w.log[i].claim, i, |w.log|)
         || w.log[i].claim.expires <= op.claim.acquired
  {
    var c := w.log[i].claim;
    assert Settled(w, i);
    if ReleasedIn(w.log, c, i, |w.log|) { ReleasedStays(w.log, [Committed(op.claim)], c, i, |w.log|); }
  }

  lemma StepExclusive(w: World, op: Op)
    requires Inv(w) && (Commits(w, op) ==> Reached(w.log, op.claim.acquired))
    ensures Exclusive(Step(w, op).log)
  {
    var w' := Step(w, op);
    var n := |w.log|;
    if Commits(w, op) {
      forall i, j | 0 <= i < j < |w'.log| && w'.log[i].Committed? && w'.log[j].Committed?
        ensures ReleasedIn(w'.log, w'.log[i].claim, i, j) || w'.log[i].claim.expires <= w'.log[j].claim.acquired
      {
        if j == n { NewcomerWaits(w, op, i); } else { StaysApart(w.log, w'.log[n], i, j); }
      }
    } else if w'.log != w.log {
      forall i, j | 0 <= i < j < n && w.log[i].Committed? && w.log[j].Committed?
        ensures ReleasedIn(w'.log, w.log[i].claim, i, j) || w.log[i].claim.expires <= w.log[j].claim.acquired
      {
        StaysApart(w.log, w'.log[n], i, j);
      }
    }
  }

  lemma StepInv(w: World, op: Op)
    requires Inv(w) && (Commits(w, op) ==> Reached(w.log, op.claim.acquired))
    ensures Inv(Step(w, op))
  {
    StepExclusive(w, op);
    forall i | 0 <= i < |w.log| ensures Settled(Step(w, op), i) { StepSettled(w, op, i); }
  }

  lemma {:induction false} RunInv(w: World, ops: seq<Op>)
    requires Inv(w) && InOrder(w, ops)
    ensures Inv(Run(w, ops))
    decreases |ops|
  {
    if ops != [] {
      StepInv(w, ops[0]);
      RunInv(Step(w, ops[0]), ops[1..]);
    }
  }

  /** Over every interleaving of attempts, recoveries and releases, with ambiguous commits: claims
      returned to callers were committed, and of any two commits of different ones the earlier claim
      had been released, or had expired, when the later was acquired. A claim may be committed twice. */
  lemma MutualExclusion(ops: seq<Op>, c: Claim, d: Claim)
    requires InOrder(EMPTY, ops) && c in Run(EMPTY, ops).returned && d in Run(EMPTY, ops).returned
    ensures var log := Run(EMPTY, ops).log;
      && Committed(c) in log && Committed(d) in log
      && forall i, j | 0 <= i < j < |log| && log[i] == Committed(c) && log[j] == Committed(d) ::
           ReleasedIn(log, c, i, j) || c.expires <= d.acquired
  {
    RunInv(EMPTY, ops);
  }

  /** The order of clocks is exactly what is needed: whenever one claim's clock is behind that of a claim
      committed before it, some run of those two and a third claim, all of them returned, is not exclusive.
      The third is neither released nor expired when the last is acquired, because a holder came and went. */
  lemma ClockOrderNeeded(token: string, d: Claim, e: Claim)
    requires d.Valid() && e.Valid() && e.acquired < d.acquired && token != d.token && token != e.token
    ensures var c := Claim(token, e.acquired, e.acquired + 1);
      var w := Run(EMPTY, [Acquire(c, Done), Acquire(d, Done), Release(d.token, Done), Acquire(e, Done)]);
      && {c, d, e} <= w.returned && c != e
      && w.log == [Committed(c), Committed(d), Released(d), Committed(e)]
      && !ReleasedIn(w.log, c, 0, 3) && c.expires > e.acquired && !Exclusive(w.log)
  {
    var c := Claim(token, e.acquired, e.acquired + 1);
    var ops := [Acquire(c, Done), Acquire(d, Done), Release(d.token, Done), Acquire(e, Done)];
    var w1 := Step(EMPTY, ops[0]);
    var w2 := Step(w1, ops[1]);
    var w3 := Step(w2, ops[2]);
    var w4 := Step(w3, ops[3]);
    assert ops[1..][1..] == ops[2..] && ops[2..][1..] == ops[3..] && ops[3..][1..] == [];
    assert Run(EMPTY, ops) == Run(w1, ops[1..]) == Run(w2, ops[2..]) == Run(w3, ops[3..]) == w4;
    assert w4.log == [Committed(c), Committed(d), Released(d), Committed(e)];
    assert w4.log[0].claim == c && w4.log[3].claim == e;
    assert forall k | 0 < k < 3 :: w4.log[k] != Released(c);
  }

  lemma {:induction false} RecordValid(w: World, ops: seq<Op>)
    requires w.doc.Some? ==> w.doc.value.Valid()
    ensures Run(w, ops).doc.Some? ==> Run(w, ops).doc.value.Valid()
    decreases |ops|
  {
    if ops != [] { RecordValid(Step(w, ops[0]), ops[1..]); }
  }

  /** No record blocks for longer than the bound: whatever happened, in whatever order of clocks, an
      attempt made fifteen minutes after the record was taken goes through. */
  lemma NeverBlockedLonger(ops: seq<Op>, c: Claim)
    requires c.Valid()
    requires var doc := Run(EMPTY, ops).doc; doc.Some? ==> doc.value.acquired + MAX_DURATION <= c.acquired
    ensures var w := Step(Run(EMPTY, ops), Acquire(c, Done)); w.doc == Some(c) && c in w.returned
  {
    RecordValid(EMPTY, ops);
  }

  // ---- The lease object ----

  lemma {:induction false} RunSnoc(w: World, ops: seq<Op>, op: Op)
    ensures Run(w, ops + [op]) == Step(Run(w, ops), op)
    decreases |ops|
  {
    if ops == [] {
      assert [op][1..] == [];
    } else {
      assert (ops + [op])[1..] == ops[1..] + [op];
      RunSnoc(Step(w, ops[0]), ops[1..], op);
    }
  }

  class SyncLease {
    var doc: Option<Claim>
    ghost var log: seq<Entry>
    ghost var returned: set<Claim>

    ghost function View(): World
      reads this
    {
      World(doc, log, returned)
    }

    constructor ()
      ensures View() == EMPTY
    {
      doc, log, returned := None, [], {};
    }

    /** What other claimants do to the same document. */
    method Others(ops: seq<Op>)
      modifies this
      ensures View() == Run(old(View()), ops)
    {
      var n := 0;
      while n < |ops|
        invariant n <= |ops| && Run(View(), ops[n..]) == Run(old(View()), ops)
      {
        assert ops[n..][1..] == ops[n + 1..];
        Perform(ops[n]);
        n := n + 1;
      }
    }

    method Perform(op: Op)
      modifies this
      ensures View() == Step(old(View()), op)
    {
      match op {
        case Acquire(c, outcome) => if c.Valid() { var _ := AcquireTx(c, outcome); }
        case Recover(c) => var _ := RecoverRead(c);
        case Release(token, outcome) => var _ := ReleaseLease(token, outcome);
      }
    }

    /** One transaction: the claim, or nothing because another holder is in the way, or an error. */
    method AcquireTx(c: Claim, outcome: Outcome) returns (r: Result<Option<Claim>, ()>)
      requires c.Valid()
      modifies this
      ensures View() == Step(old(View()), Acquire(c, outcome))
      ensures r.Err? <==> !outcome.Done?
      ensures r == Ok(Some(c)) ==> doc == Some(c) && c in returned
      ensures r == Ok(None) ==> !Free(old(doc), c.acquired) && old(doc) != Some(c)
      ensures r.Ok? ==> r.value in {None, Some(c)}
    {
      if doc.Some? && doc.value.expires > c.acquired {
        if doc.value == c {
          if !outcome.Done? { return Err(()); }
          returned := returned + {c};
          return Ok(Some(c));
        }
        return if outcome.Done? then Ok(None) else Err(());
      }
      if outcome.Effect() {
        doc, log := Some(c), log + [Committed(c)];
        if outcome.Done? { returned := returned + {c}; }
      }
      r := if outcome.Done? then Ok(Some(c)) else Err(());
    }

    method RecoverRead(c: Claim) returns (mine: bool)
      modifies this
      ensures View() == Step(old(View()), Recover(c))
      ensures mine <==> doc == Some(c)
    {
      mine := doc == Some(c);
      if mine { returned := returned + {c}; }
    }

    /** Tries to take the lease; `others` run between a transaction that raised and the read that
        finds out whether it committed. A claim is returned only while it is the record. */
    method TryAcquire(token: string, now: int, duration: int, outcome: Outcome, others: seq<Op>, readable: bool)
      returns (r: Result<Option<Claim>, ()>)
      modifies this
      ensures var c := Claim(token, now, now + duration);
        if !(0 < duration <= MAX_DURATION) then r == Err(()) && View() == old(View())
        else View() == Run(old(View()), if outcome.Done? then [Acquire(c, outcome)]
                                        else [Acquire(c, outcome)] + others + if readable then [Recover(c)] else [])
      ensures r.Ok? && r.value.Some?
          ==> r.value.value == Claim(token, now, now + duration) && doc == r.value && r.value.value in returned
      ensures 0 < duration <= 900_000_000 && outcome.Done? ==>
        var c := Claim(token, now, now + duration);
        r == Ok(if old(doc).None? || old(doc).value.expires <= now || old(doc).value == c then Some(c) else None)
      ensures 0 < duration <= 900_000_000 && !outcome.Done? ==>
        var c := Claim(token, now, now + duration);
        r == if readable && doc == Some(c) then Ok(Some(c)) else Err(())
      ensures r == Ok(None) ==> old(doc).Some? && old(doc).value.expires > now
    {
      if !(0 < duration <= MAX_DURATION) { return Err(()); }
      var c := Claim(token, now, now + duration);
      ghost var w0 := View();
      r := AcquireTx(c, outcome);
      assert [Acquire(c, outcome)][1..] == [] && ([Acquire(c, outcome)] + others)[1..] == others;
      if r.Ok? { return; }
      Others(others);
      if readable {
        RunSnoc(w0, [Acquire(c, outcome)] + others, Recover(c));
        var mine := RecoverRead(c);
        if mine { return Ok(Some(c)); }
      } else {
        assert [Acquire(c, outcome)] + others + [] == [Acquire(c, outcome)] + others;
      }
      r := Err(());
    }

    /** Deletes the record only if it carries this token; a successor's record is left alone. */
    method ReleaseLease(token: string, outcome: Outcome) returns (ok: bool)
      modifies this
      ensures View() == Step(old(View()), Release(token, outcome))
      ensures old(doc).Some? && old(doc).value.token != token ==> doc == old(doc) && !ok
      ensures old(doc).Some? && old(doc).value.token == token ==>
        (ok <==> outcome.Done?) && doc == if outcome.Effect() then None else old(doc)
    {
      if doc.None? { return outcome.Done?; }
      if doc.value.token != token { return false; }
      if outcome.Effect() { log := log + [Released(doc.value)]; doc := None; }
      ok := outcome.Done?;
    }
  }
}

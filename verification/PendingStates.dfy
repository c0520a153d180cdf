/** One-shot OAuth states: created once, consumed at most once, before they expire, by exactly
    the request they were created for. */
module PendingStates {
  import opened Prelude

  datatype Tenant = Tenant(team: string, enterprise: Option<string>)

  /** Everything a consumer must present again; e-mails are stored casefolded. */
  datatype Terms = Terms(hash: string, installer: string, email: string, tenant: Tenant, redirect: string,
                         scopes: seq<string>)

  datatype Pending = Pending(terms: Terms, issued: int, expires: int, consumed: Option<int>, version: nat)

  type Db = map<string, Pending>

  datatype Refusal = StoreError | Mismatch | OwnerMismatch | ExpiredOrReplayed

  datatype Op =
    | Create(id: string, pending: Pending, outcome: Outcome)
    | Consume(id: string, terms: Terms, now: int, outcome: Outcome)

  /** The checks run in this order: hash, owner, tenant, redirect, scopes, then time and replay.
      A time before the issue cannot be recorded. */
  function Refuse(db: Db, id: string, given: Terms, now: int, fold: string -> string): Option<Refusal> {
    if id !in db then Some(StoreError)
    else
      var p := db[id];
      if p.terms.hash != given.hash then Some(Mismatch)
      else if p.terms.installer != given.installer || p.terms.email != fold(given.email) then Some(OwnerMismatch)
      else if p.terms.tenant != given.tenant || p.terms.redirect != given.redirect || p.terms.scopes != given.scopes
          then Some(Mismatch)
      else if now >= p.expires || p.consumed.Some? then Some(ExpiredOrReplayed)
      else if now < p.issued then Some(StoreError)
      else None
  }

  predicate SameOwner(a: Terms, given: Terms, fold: string -> string) {
    a.installer == given.installer && a.email == fold(given.email)
  }

  predicate SameTarget(a: Terms, given: Terms) {
    a.tenant == given.tenant && a.redirect == given.redirect && a.scopes == given.scopes
  }

  /** Which refusal a request meets: the hash comes before the owner, the owner before what is asked for, and that
      before time and replay. */
  lemma RefusalMeans(db: Db, id: string, given: Terms, now: int, fold: string -> string)
    ensures var r := Refuse(db, id, given, now, fold);
      if id !in db then r == Some(StoreError)
      else
        var p := db[id];
        var same := p.terms.hash == given.hash && SameOwner(p.terms, given, fold) && SameTarget(p.terms, given);
        var live := now < p.expires && p.consumed == None;
        && (r == None <==> same && live && p.issued <= now)
        && (r == Some(OwnerMismatch) <==> p.terms.hash == given.hash && !SameOwner(p.terms, given, fold))
        && (r == Some(Mismatch) <==>
              p.terms.hash != given.hash || (SameOwner(p.terms, given, fold) && !SameTarget(p.terms, given)))
        && (r == Some(ExpiredOrReplayed) <==> same && !live)
        && (r == Some(StoreError) <==> same && live && now < p.issued)
  {}

  predicate Commits(db: Db, op: Op, fold: string -> string) {
    op.outcome.Effect() &&
    match op
    case Create(id, _, _) => id !in db
    case Consume(id, given, now, _) => Refuse(db, id, given, now, fold).None?
  }

  function Step(db: Db, op: Op, fold: string -> string): Db {
    if !Commits(db, op, fold) then db
    else match op
      case Create(id, p, _) => db[id := p]
      case Consume(id, _, now, _) => db[id := db[id].(consumed := Some(now), version := db[id].version + 1)]
  }

  /** What a committed operation writes: a new state as given, or the same state consumed at this time, one version
      later. Nothing else changes. */
  lemma CommitWrites(db: Db, op: Op, fold: string -> string)
    ensures var db' := Step(db, op, fold);
      if Commits(db, op, fold) then
        && op.id in db' && (forall id | id in db && id != op.id :: id in db' && db'[id] == db[id])
        && db'.Keys == db.Keys + {op.id}
        && (op.Create? ==> db'[op.id] == op.pending)
        && (op.Consume? ==> op.id in db && var p := db[op.id];
              db'[op.id] == Pending(p.terms, p.issued, p.expires, Some(op.now), p.version + 1))
      else db' == db
  {}

  function Run(db: Db, ops: seq<Op>, fold: string -> string): Db
    decreases |ops|
  {
    if ops == [] then db else Run(Step(db, ops[0], fold), ops[1..], fold)
  }

  /** The state before operation `n`. */
  function Before(ops: seq<Op>, n: nat, fold: string -> string): Db
    requires n <= |ops|
  {
    Run(map[], ops[..n], fold)
  }

  /** Operation `n` consumes state `id`, whether or not its caller gets to know. */
  ghost predicate Consumes(ops: seq<Op>, n: nat, id: string, fold: string -> string)
    requires n < |ops|
  {
    ops[n].Consume? && ops[n].id == id && Commits(Before(ops, n, fold), ops[n], fold)
  }

  ghost predicate Creates(ops: seq<Op>, n: nat, id: string, fold: string -> string)
    requires n < |ops|
  {
    ops[n].Create? && ops[n].id == id && Commits(Before(ops, n, fold), ops[n], fold)
  }

  lemma {:induction false} RunSnoc(db: Db, ops: seq<Op>, op: Op, fold: string -> string)
    ensures Run(db, ops + [op], fold) == Step(Run(db, ops, fold), op, fold)
    decreases |ops|
  {
    if ops == [] {
      assert [op][1..] == [];
    } else {
      assert (ops + [op])[1..] == ops[1..] + [op];
      RunSnoc(Step(db, ops[0], fold), ops[1..], op, fold);
    }
  }

  lemma {:induction false} BeforeNext(ops: seq<Op>, n: nat, fold: string -> string)
    requires n < |ops|
    ensures Before(ops, n + 1, fold) == Step(Before(ops, n, fold), ops[n], fold)
  {
    assert ops[..n + 1] == ops[..n] + [ops[n]];
    RunSnoc(map[], ops[..n], ops[n], fold);
  }

  /** Once there, a state keeps its terms and times; once consumed, it stays as it is. */
  lemma {:induction false} Persists(ops: seq<Op>, m: nat, n: nat, id: string, fold: string -> string)
    requires m <= n <= |ops| && id in Before(ops, m, fold)
    ensures id in Before(ops, n, fold)
    ensures var p, q := Before(ops, m, fold)[id], Before(ops, n, fold)[id];
      && q.terms == p.terms && q.issued == p.issued && q.expires == p.expires
      && (p.consumed.Some? ==> q == p)
    decreases n - m
  {
    if m < n {
      BeforeNext(ops, m, fold);
      Persists(ops, m + 1, n, id, fold);
    }
  }

  /** A state exists only through a committed create, which fixed what it holds. */
  lemma {:induction false} CreatedBy(ops: seq<Op>, n: nat, id: string, fold: string -> string) returns (c: nat)
    requires n <= |ops| && id in Before(ops, n, fold)
    ensures c < n && Creates(ops, c, id, fold)
    ensures var p, q := ops[c].pending, Before(ops, n, fold)[id];
      q.terms == p.terms && q.issued == p.issued && q.expires == p.expires && (p.consumed.Some? ==> q == p)
  {
    assert n > 0 by { assert ops[..0] == []; }
    BeforeNext(ops, n - 1, fold);
    if id in Before(ops, n - 1, fold) {
      c := CreatedBy(ops, n - 1, id, fold);
      Persists(ops, n - 1, n, id, fold);
    } else {
      c := n - 1;
    }
  }

  /** Over every interleaving and every ambiguous commit, a state is consumed at most once. */
  lemma ConsumedAtMostOnce(ops: seq<Op>, m: nat, n: nat, id: string, fold: string -> string)
    requires m < |ops| && n < |ops| && Consumes(ops, m, id, fold) && Consumes(ops, n, id, fold)
    ensures m == n
  {
    if m < n {
      BeforeNext(ops, m, fold);
      Persists(ops, m + 1, n, id, fold);
    } else if n < m {
      BeforeNext(ops, n, fold);
      Persists(ops, n + 1, m, id, fold);
    }
  }

  /** It is consumed strictly before it expires and with every term equal to those of the create
      that made it; and it had been created unconsumed. */
  lemma ConsumedAsCreated(ops: seq<Op>, n: nat, id: string, fold: string -> string) returns (c: nat)
    requires n < |ops| && Consumes(ops, n, id, fold)
    ensures c < n && Creates(ops, c, id, fold)
    ensures var p := ops[c].pending;
      && p.issued <= ops[n].now < p.expires && p.consumed.None?
      && p.terms == ops[n].terms.(email := fold(ops[n].terms.email))
  {
    c := CreatedBy(ops, n, id, fold);
  }

  lemma {:induction false} Unconsumed(ops: seq<Op>, m: nat, n: nat, id: string, fold: string -> string)
    requires m <= n <= |ops| && id in Before(ops, m, fold) && Before(ops, m, fold)[id].consumed.None?
    requires forall k | m <= k < n :: !Consumes(ops, k, id, fold)
    ensures id in Before(ops, n, fold) && Before(ops, n, fold)[id].consumed.None?
    decreases n - m
  {
    if m < n {
      BeforeNext(ops, m, fold);
      assert !Consumes(ops, m, id, fold);
      Unconsumed(ops, m + 1, n, id, fold);
    }
  }

  /** And nothing else is asked: a request that meets those conditions on a state that no earlier
      operation consumed commits unless the store itself fails. */
  lemma FirstConsumeSucceeds(ops: seq<Op>, c: nat, n: nat, id: string, fold: string -> string)
    requires c < n < |ops| && Creates(ops, c, id, fold) && ops[n].Consume? && ops[n].id == id && ops[n].outcome.Effect()
    requires var p := ops[c].pending;
      p.issued <= ops[n].now < p.expires && p.consumed.None?
          && p.terms == ops[n].terms.(email := fold(ops[n].terms.email))
    requires forall m | c < m < n :: !Consumes(ops, m, id, fold)
    ensures Consumes(ops, n, id, fold)
  {
    BeforeNext(ops, c, fold);
    Unconsumed(ops, c + 1, n, id, fold);
    Persists(ops, c + 1, n, id, fold);
  }

  /** The repository object. Firestore's `create` refuses to overwrite. */
  class Repository {
    var pending: Db
    const fold: string -> string

    constructor (fold: string -> string)
      ensures pending == map[] && this.fold == fold
    {
      pending := map[];
      this.fold := fold;
    }

    method CreatePendingState(id: string, p: Pending, outcome: Outcome) returns (ok: bool)
      modifies this
      ensures pending == Step(old(pending), Create(id, p, outcome), fold)
      ensures ok <==> id !in old(pending) && outcome.Done?
    {
      ok := id !in pending && outcome.Done?;
      if id !in pending && outcome.Effect() { pending := pending[id := p]; }
    }

    /** Only a caller that is told so has consumed the state, and then the state really is consumed. */
    method ConsumePendingState(id: string, given: Terms, now: int, outcome: Outcome)
      returns (r: Result<Pending, Refusal>)
      modifies this
      ensures pending == Step(old(pending), Consume(id, given, now, outcome), fold)
      ensures r.Ok? <==> Refuse(old(pending), id, given, now, fold).None? && outcome.Done?
      ensures r.Ok? ==> id in pending && pending[id] == r.value && r.value.consumed == Some(now)
      ensures r.Err? ==> r.error == Refuse(old(pending), id, given, now, fold).GetOr(StoreError)
    {
      if id !in pending { return Err(StoreError); }
      var record := pending[id];
      if record.terms.hash != given.hash { return Err(Mismatch); }
      if record.terms.installer != given.installer || record.terms.email != fold(given.email) {
        return Err(OwnerMismatch);
      }
      if record.terms.tenant != given.tenant { return Err(Mismatch); }
      if record.terms.redirect != given.redirect { return Err(Mismatch); }
      if record.terms.scopes != given.scopes { return Err(Mismatch); }
      if now >= record.expires || record.consumed.Some? { return Err(ExpiredOrReplayed); }
      if now < record.issued { return Err(StoreError); }
      var consumed := record.(consumed := Some(now), version := record.version + 1);
      if outcome.Effect() { pending := pending[id := consumed]; }
      r := if outcome.Done? then Ok(consumed) else Err(StoreError);
    }
  }
}

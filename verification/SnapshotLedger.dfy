/** Directory snapshots are applied exactly once: users, audit events and the ledger entry are
    written in one transaction, and a caller whose commit was ambiguous asks the ledger. */
module SnapshotLedger {
  import opened Prelude

  /** `fixed` stands for the material that no snapshot may change: e-mail, role and creation. */
  datatype User = User(id: string, fixed: string, state: string, updated: int, version: nat)
  datatype Change = Change(user: User, expectedVersion: nat)
  datatype Audit = Audit(id: string, body: string)
  datatype Request = Request(snapshot: string, material: string, changes: seq<Change>, audits: seq<Audit>)

  datatype Db = Db(users: map<string, User>, audits: map<string, Audit>, ledger: map<string, string>)

  datatype Answer = Applied | Replayed | Conflict | Refused | StoreError

  /** The identity limit, and the rules of the directory domain: which state transitions are
      allowed and which audit event each change needs. */
  datatype Rules = Rules(limit: nat, allowed: (User, User) -> bool, audit: (string, User, User) -> Audit)

  predicate WithinLimit(req: Request, rules: Rules) {
    |req.changes| <= rules.limit && |req.audits| <= rules.limit
  }

  /** One change against the stored user: it exists, its version is the expected one and rises
      by one, nothing fixed changes and time does not go back. */
  predicate ChangeOk(db: Db, c: Change, rules: Rules) {
    c.user.id in db.users &&
    var current := db.users[c.user.id];
    && current.id == c.user.id && current.version == c.expectedVersion && c.user.version == c.expectedVersion + 1
    && current.fixed == c.user.fixed && current.updated <= c.user.updated && rules.allowed(current, c.user)
  }

  predicate Valid(db: Db, req: Request, rules: Rules) {
    && WithinLimit(req, rules)
    && (forall i | 0 <= i < |req.changes| :: ChangeOk(db, req.changes[i], rules))
    && (forall i, j | 0 <= i < j < |req.changes| :: req.changes[i].user.id != req.changes[j].user.id)
    && |req.audits| == |req.changes|
    && (forall i | 0 <= i < |req.audits| :: req.audits[i].id !in db.audits &&
          req.audits[i] == rules.audit(req.snapshot, db.users[req.changes[i].user.id], req.changes[i].user))
    && (forall i, j | 0 <= i < j < |req.audits| :: req.audits[i].id != req.audits[j].id)
  }

  function WriteUsers(users: map<string, User>, changes: seq<Change>): map<string, User> {
    if changes == [] then users
    else
      var n := |changes| - 1;
      WriteUsers(users, changes[..n])[changes[n].user.id := changes[n].user]
  }

  predicate Touched(changes: seq<Change>, id: string) {
    exists i | 0 <= i < |changes| :: changes[i].user.id == id
  }

  /** A touched user holds what one of its changes says; the others stay. */
  lemma {:induction false} WroteUser(users: map<string, User>, changes: seq<Change>, id: string)
    ensures var r := WriteUsers(users, changes);
      && (id in r <==> id in users || Touched(changes, id))
      && (!Touched(changes, id) && id in users ==> r[id] == users[id])
      && (Touched(changes, id) ==> exists i | 0 <= i < |changes| ::
           changes[i].user.id == id && r[id] == changes[i].user)
  {
    if changes != [] {
      var n := |changes| - 1;
      WroteUser(users, changes[..n], id);
      assert forall i | 0 <= i < n :: changes[..n][i] == changes[i];
    }
  }

  function WriteAudits(audits: map<string, Audit>, events: seq<Audit>): map<string, Audit> {
    if events == [] then audits
    else
      var n := |events| - 1;
      WriteAudits(audits, events[..n])[events[n].id := events[n]]
  }

  /** Each event is kept under its id, with the last of its contents; other audits stay. */
  lemma {:induction false} WroteAudit(audits: map<string, Audit>, events: seq<Audit>, id: string)
    ensures var r := WriteAudits(audits, events);
      && (id in r <==> id in audits || exists i | 0 <= i < |events| :: events[i].id == id)
      && ((exists i | 0 <= i < |events| :: events[i].id == id) ==>
            exists i | 0 <= i < |events| :: events[i].id == id && r[id] == events[i])
      && (id in audits && (forall i | 0 <= i < |events| :: events[i].id != id) ==> r[id] == audits[id])
  {
    if events != [] {
      var n := |events| - 1;
      WroteAudit(audits, events[..n], id);
      assert forall i | 0 <= i < n :: events[..n][i] == events[i];
    }
  }

  function Write(db: Db, req: Request): Db {
    Db(WriteUsers(db.users, req.changes), WriteAudits(db.audits, req.audits), db.ledger[req.snapshot := req.material])
  }

  /** What the transaction answers, before it is known whether its commit goes through. */
  function Decide(db: Db, req: Request, rules: Rules): Answer {
    if !WithinLimit(req, rules) then Refused
    else if req.snapshot in db.ledger then
      if db.ledger[req.snapshot] == req.material then Replayed else Conflict
    else if Valid(db, req, rules) then Applied else Refused
  }

  /** One attempt of the transaction. */
  datatype Op = Apply(req: Request, outcome: Outcome)

  predicate Commits(db: Db, op: Op, rules: Rules) {
    Decide(db, op.req, rules).Applied? && op.outcome.Effect()
  }

  function Step(db: Db, op: Op, rules: Rules): Db {
    if Commits(db, op, rules) then Write(db, op.req) else db
  }

  function Run(db: Db, ops: seq<Op>, rules: Rules): Db
    decreases |ops|
  {
    if ops == [] then db else Run(Step(db, ops[0], rules), ops[1..], rules)
  }

  /** The attempts that changed anything. */
  function Committed(db: Db, ops: seq<Op>, rules: Rules): seq<Op>
    decreases |ops|
  {
    if ops == [] then []
    else (if Commits(db, ops[0], rules) then [ops[0]] else []) + Committed(Step(db, ops[0], rules), ops[1..], rules)
  }

  // ---- What one applied snapshot means, in full ----

  /** A change that the source accepts against what is stored. */
  predicate Acceptable(db: Db, req: Request, rules: Rules, i: nat)
    requires i < |req.changes| == |req.audits|
  {
    var user, event := req.changes[i].user, req.audits[i];
    user.id in db.users &&
    var current := db.users[user.id];
    && current.id == user.id && current.version == req.changes[i].expectedVersion && user.version == current.version + 1
    && current.fixed == user.fixed && current.updated <= user.updated && rules.allowed(current, user)
    && event.id !in db.audits && event == rules.audit(req.snapshot, current, user)
  }

  /** A snapshot is applied exactly if it is new and within the limit, each change is acceptable and has its audit
      event, and no user and no event occurs twice. */
  lemma AppliedIff(db: Db, req: Request, rules: Rules)
    ensures Decide(db, req, rules) == Applied <==>
      && req.snapshot !in db.ledger && |req.changes| == |req.audits| <= rules.limit
      && (forall i | 0 <= i < |req.changes| :: Acceptable(db, req, rules, i))
      && (forall i, j | 0 <= i < j < |req.changes| :: req.changes[i].user.id != req.changes[j].user.id)
      && (forall i, j | 0 <= i < j < |req.audits| :: req.audits[i].id != req.audits[j].id)
  {
    if |req.changes| == |req.audits| && forall i | 0 <= i < |req.changes| :: Acceptable(db, req, rules, i) {
      forall i | 0 <= i < |req.changes| ensures ChangeOk(db, req.changes[i], rules) {
        assert Acceptable(db, req, rules, i);
      }
      forall i | 0 <= i < |req.audits|
        ensures req.audits[i].id !in db.audits
            && req.audits[i] == rules.audit(req.snapshot, db.users[req.changes[i].user.id], req.changes[i].user)
      {
        assert Acceptable(db, req, rules, i);
      }
    }
  }

  /** What else is answered: a known snapshot is a replay with its material and a conflict with another, unless it
      is over the limit, which is refused like anything that cannot be applied. */
  lemma AnswerIff(db: Db, req: Request, rules: Rules)
    ensures var a, small := Decide(db, req, rules), |req.changes| <= rules.limit && |req.audits| <= rules.limit;
      && (a == Replayed <==> small && req.snapshot in db.ledger && db.ledger[req.snapshot] == req.material)
      && (a == Conflict <==> small && req.snapshot in db.ledger && db.ledger[req.snapshot] != req.material)
      && a in {Applied, Replayed, Conflict, Refused}
  {}

  lemma WroteUsers(users: map<string, User>, changes: seq<Change>)
    requires forall i, j | 0 <= i < j < |changes| :: changes[i].user.id != changes[j].user.id
    ensures var r := WriteUsers(users, changes);
      && (forall i | 0 <= i < |changes| :: changes[i].user.id in r && r[changes[i].user.id] == changes[i].user)
      && (forall id | id in users && !Touched(changes, id) :: id in r && r[id] == users[id])
  {
    forall id { WroteUser(users, changes, id); }
  }

  lemma WroteAudits(audits: map<string, Audit>, events: seq<Audit>)
    requires forall i | 0 <= i < |events| :: events[i].id !in audits
    requires forall i, j | 0 <= i < j < |events| :: events[i].id != events[j].id
    ensures var r := WriteAudits(audits, events);
      && (forall i | 0 <= i < |events| :: events[i].id in r && r[events[i].id] == events[i])
      && (forall id | id in audits :: id in r && r[id] == audits[id])
  {
    forall id { WroteAudit(audits, events, id); }
  }

  /** After a committed snapshot: every changed user is stored as given, every audit event under its id, and the
      snapshot with its material; nothing else has changed. */
  lemma AppliedInFull(db: Db, op: Op, rules: Rules)
    requires Commits(db, op, rules)
    ensures var r, req := Step(db, op, rules), op.req;
      && (forall i | 0 <= i < |req.changes| :: req.changes[i].user.id in r.users
            && r.users[req.changes[i].user.id] == req.changes[i].user)
      && (forall id | id in db.users && !Touched(req.changes, id) :: id in r.users && r.users[id] == db.users[id])
      && (forall i | 0 <= i < |req.audits| :: req.audits[i].id in r.audits
            && r.audits[req.audits[i].id] == req.audits[i])
      && (forall id | id in db.audits :: id in r.audits && r.audits[id] == db.audits[id])
      && |req.audits| == |req.changes|
      && r.ledger == db.ledger[req.snapshot := req.material]
  {
    WroteUsers(db.users, op.req.changes);
    WroteAudits(db.audits, op.req.audits);
  }

  // ---- Exactly once ----

  ghost predicate DistinctSnapshots(ops: seq<Op>) {
    forall i, j | 0 <= i < j < |ops| :: ops[i].req.snapshot != ops[j].req.snapshot
  }

  lemma {:induction false} KeptRuns(db: Db, ops: seq<Op>, rules: Rules)
    ensures var kept := Committed(db, ops, rules);
      Run(db, ops, rules) == Run(db, kept, rules) && Committed(db, kept, rules) == kept
    decreases |ops|
  {
    if ops != [] {
      var db' := Step(db, ops[0], rules);
      KeptRuns(db', ops[1..], rules);
      var rest := Committed(db', ops[1..], rules);
      if Commits(db, ops[0], rules) {
        assert ([ops[0]] + rest)[1..] == rest;
      } else {
        assert [] + rest == rest;
      }
    }
  }

  lemma {:induction false} KeptDistinct(db: Db, ops: seq<Op>, rules: Rules)
    ensures var kept := Committed(db, ops, rules);
      DistinctSnapshots(kept) && forall op | op in kept :: op in ops && op.req.snapshot !in db.ledger
    decreases |ops|
  {
    if ops != [] {
      var db' := Step(db, ops[0], rules);
      KeptDistinct(db', ops[1..], rules);
      var rest := Committed(db', ops[1..], rules);
      forall i | 0 <= i < |rest| ensures rest[i] in ops && rest[i].req.snapshot !in db'.ledger {
        assert rest[i] in rest;
      }
    }
  }

  /** Whatever is retried, in whatever order and however commits end, the outcome is that of a
      sequence of attempts that all commit and among which no snapshot occurs twice. */
  lemma ExactlyOnce(db: Db, ops: seq<Op>, rules: Rules)
    ensures var kept := Committed(db, ops, rules);
      && Run(db, ops, rules) == Run(db, kept, rules) && Committed(db, kept, rules) == kept
      && DistinctSnapshots(kept)
      && (forall op | op in kept :: op in ops && op.req.snapshot !in db.ledger)
  {
    KeptRuns(db, ops, rules);
    KeptDistinct(db, ops, rules);
  }

  /** The ledger only grows, and says for ever what was applied. */
  lemma {:induction false} LedgerKeeps(db: Db, ops: seq<Op>, rules: Rules, snapshot: string)
    requires snapshot in db.ledger
    ensures snapshot in Run(db, ops, rules).ledger && Run(db, ops, rules).ledger[snapshot] == db.ledger[snapshot]
    decreases |ops|
  {
    if ops != [] {
      LedgerKeeps(Step(db, ops[0], rules), ops[1..], rules, snapshot);
    }
  }

  /** After a snapshot was applied, every further attempt at it, at any later time, changes
      nothing, and is answered as a replay or as a conflict according to its material. */
  lemma LaterAttempts(db: Db, first: Op, ops: seq<Op>, again: Op, rules: Rules)
    requires Commits(db, first, rules) && again.req.snapshot == first.req.snapshot && WithinLimit(again.req, rules)
    ensures var now := Run(Step(db, first, rules), ops, rules);
      && Step(now, again, rules) == now
      && Decide(now, again.req, rules) == if again.req.material == first.req.material then Replayed else Conflict
  {
    LedgerKeeps(Step(db, first, rules), ops, rules, first.req.snapshot);
  }

  /** The number of attempts in `ops` that change user `id`. */
  function Touches(ops: seq<Op>, id: string): nat {
    if ops == [] then 0
    else (if Touched(ops[0].req.changes, id) then 1 else 0) + Touches(ops[1..], id)
  }

  lemma CommittedUser(db: Db, op: Op, rules: Rules, id: string)
    requires Commits(db, op, rules)
    ensures var r := Step(db, op, rules).users;
      && (id in r <==> id in db.users)
      && (id in db.users ==> r[id].version == db.users[id].version + if Touched(op.req.changes, id) then 1 else 0)
  {
    WroteUser(db.users, op.req.changes, id);
    assert forall i | 0 <= i < |op.req.changes| :: ChangeOk(db, op.req.changes[i], rules);
  }

  /** Users are neither added nor lost, and a user's version counts the snapshots applied to it. */
  lemma {:induction false} VersionsCount(db: Db, ops: seq<Op>, rules: Rules, id: string)
    requires id in db.users
    ensures Run(db, ops, rules).users.Keys == db.users.Keys
    ensures Run(db, ops, rules).users[id].version == db.users[id].version + Touches(Committed(db, ops, rules), id)
    decreases |ops|
  {
    if ops != [] {
      var op, db' := ops[0], Step(db, ops[0], rules);
      var rest := Committed(db', ops[1..], rules);
      if Commits(db, op, rules) {
        assert ([op] + rest)[1..] == rest;
        forall j ensures j in db'.users <==> j in db.users { CommittedUser(db, op, rules, j); }
        CommittedUser(db, op, rules, id);
      } else {
        assert [] + rest == rest;
      }
      VersionsCount(db', ops[1..], rules, id);
    }
  }

  // ---- The repository object ----

  class Repository {
    var db: Db
    const rules: Rules

    constructor (rules: Rules, users: map<string, User>)
      ensures this.rules == rules && db == Db(users, map[], map[])
    {
      this.rules := rules;
      db := Db(users, map[], map[]);
    }

    /** The transaction and, when it raised, the read of the ledger; `others` commit in between.
        Whatever the caller is told about a snapshot is true of the ledger it leaves. */
    method ApplySnapshotOnce(req: Request, outcome: Outcome, others: seq<Op>, readable: bool) returns (r: Answer)
      modifies this
      ensures db == Run(old(db), if Decide(old(db), req, rules) in {Refused, Conflict} || outcome.Done?
          then [Apply(req, outcome)] else [Apply(req, outcome)] + others, rules)
      ensures outcome.Done? ==> r == Decide(old(db), req, rules)
      ensures r.Applied? || r.Replayed? ==> req.snapshot in db.ledger && db.ledger[req.snapshot] == req.material
      ensures r.Conflict? ==> req.snapshot in db.ledger && db.ledger[req.snapshot] != req.material
      ensures outcome.DoneButRaised? && readable && Decide(old(db), req, rules).Applied? ==> r.Replayed?
    {
      assert [Apply(req, outcome)][1..] == [];
      ghost var first := Step(db, Apply(req, outcome), rules);
      var answer := Decide(db, req, rules);
      if answer in {Refused, Conflict} { return answer; }
      if answer.Applied? && outcome.Effect() { db := Write(db, req); }
      if outcome.Done? { return answer; }
      assert ([Apply(req, outcome)] + others)[1..] == others;
      db := Run(db, others, rules);
      if req.snapshot in first.ledger { LedgerKeeps(first, others, rules, req.snapshot); }
      if !readable || req.snapshot !in db.ledger { return StoreError; }
      r := if db.ledger[req.snapshot] == req.material then Replayed else Conflict;
    }
  }
}

/** Shared Slack installs: one collection holds the installs, another points each tenant to
    its active install. Each operation is one transaction over both. */
module SlackInstalls {
  import opened Prelude

  datatype State = Active | Revoked

  /** The fields that decide anything; times are in any fixed unit. */
  datatype Install = Install(id: string, team: string, enterprise: Option<string>, state: State, created: int,
                             version: nat)

  datatype Pointer = Pointer(team: string, enterprise: Option<string>, install: string)

  /** Installs by id; pointers by the logical id of their tenant. Both document ids are digests
      of these, and digests of different texts differ. */
  datatype Db = Db(installs: map<string, Install>, tenants: map<string, Pointer>)

  /** A missing enterprise id and an empty one are both shown as a dash. */
  function Part(enterprise: Option<string>): string {
    if enterprise.Some? && enterprise.value != "" then enterprise.value else "-"
  }

  function LogicalId(team: string, enterprise: Option<string>): string { team + ":" + Part(enterprise) }

  function IdOf(i: Install): string { LogicalId(i.team, i.enterprise) }

  function PointTo(i: Install): Pointer { Pointer(i.team, i.enterprise, i.id) }

  /** The pointer document under a tenant's logical id really speaks of that tenant. */
  predicate Speaks(p: Pointer, team: string, enterprise: Option<string>) {
    p.team == team && p.enterprise == enterprise
  }

  /** Re-saving a revoked install continues its version. */
  function Persisted(db: Db, i: Install): Install {
    if i.id in db.installs then i.(version := db.installs[i.id].version + 1) else i
  }

  function SaveTx(db: Db, i: Install): Result<Db, ()> {
    var t := IdOf(i);
    if t in db.tenants && (!Speaks(db.tenants[t], i.team, i.enterprise) || db.tenants[t].install != i.id) then Err(())
    else if i.id in db.installs && db.installs[i.id].state.Active? then Err(())
    else Ok(Db(db.installs[i.id := Persisted(db, i)], db.tenants[t := PointTo(i)]))
  }

  function RevokeTx(db: Db, id: string, at: int): Result<Db, ()> {
    if id !in db.installs || at < db.installs[id].created then Err(())
    else
      var current := db.installs[id];
      var t := IdOf(current);
      var installs := db.installs[id := current.(state := Revoked, version := current.version + 1)];
      if t !in db.tenants then Ok(Db(installs, db.tenants))
      else if !Speaks(db.tenants[t], current.team, current.enterprise) then Err(())
      else if db.tenants[t].install == id then Ok(Db(installs, db.tenants - {t}))
      else Ok(Db(installs, db.tenants))
  }

  /** A save or a revoke, and how its commit ends. */
  datatype Op = Save(install: Install, outcome: Outcome) | Revoke(id: string, at: int, outcome: Outcome)

  function Tx(db: Db, op: Op): Result<Db, ()> {
    match op case Save(i, _) => SaveTx(db, i) case Revoke(id, at, _) => RevokeTx(db, id, at)
  }

  function Step(db: Db, op: Op): Db {
    var r := Tx(db, op);
    if r.Ok? && op.outcome.Effect() then r.value else db
  }

  function Run(db: Db, ops: seq<Op>): Db
    decreases |ops|
  {
    if ops == [] then db else Run(Step(db, ops[0]), ops[1..])
  }

  // ---- The index invariant ----

  ghost predicate PointedTo(db: Db, id: string)
    requires id in db.installs
  {
    var t := IdOf(db.installs[id]);
    t in db.tenants && db.tenants[t] == PointTo(db.installs[id])
  }

  ghost predicate PointsWell(db: Db, t: string)
    requires t in db.tenants
  {
    var p := db.tenants[t];
    p.install in db.installs && db.installs[p.install].state.Active? && IdOf(db.installs[p.install]) == t
        && PointTo(db.installs[p.install]) == p
  }

  /** Tenant t points to install i exactly when i is active with tenant t; ids match contents. */
  ghost predicate Indexed(db: Db) {
    && (forall id | id in db.installs :: db.installs[id].id == id)
    && (forall id | id in db.installs && db.installs[id].state.Active? :: PointedTo(db, id))
    && (forall t | t in db.tenants :: PointsWell(db, t))
  }

  /** A committed save keeps the index exactly when it saves an active install. */
  lemma SaveKeepsIndex(db: Db, i: Install)
    requires Indexed(db) && SaveTx(db, i).Ok?
    ensures Indexed(SaveTx(db, i).value) <==> i.state.Active?
  {
    var db' := SaveTx(db, i).value;
    if i.state.Active? {
      forall id | id in db'.installs && db'.installs[id].state.Active? ensures PointedTo(db', id) {
        if id != i.id { assert PointedTo(db, id); }
      }
      forall t | t in db'.tenants ensures PointsWell(db', t) {
        if t != IdOf(i) { assert PointsWell(db, t); }
      }
    } else {
      assert !PointsWell(db', IdOf(i));
    }
  }

  lemma RevokeKeepsIndex(db: Db, id: string, at: int)
    requires Indexed(db) && RevokeTx(db, id, at).Ok?
    ensures Indexed(RevokeTx(db, id, at).value)
  {
    var db' := RevokeTx(db, id, at).value;
    var t := IdOf(db.installs[id]);
    forall j | j in db'.installs && db'.installs[j].state.Active? ensures PointedTo(db', j) {
      assert PointedTo(db, j);
      if IdOf(db.installs[j]) == t { assert db.tenants[t].install == j; }
    }
    forall u | u in db'.tenants ensures PointsWell(db', u) {
      assert PointsWell(db, u);
    }
  }

  ghost predicate SavesActive(ops: seq<Op>) {
    forall op | op in ops :: op.Save? ==> op.install.state.Active?
  }

  lemma {:induction false} RunIndexed(db: Db, ops: seq<Op>)
    requires Indexed(db) && SavesActive(ops)
    ensures Indexed(Run(db, ops))
    decreases |ops|
  {
    if ops != [] {
      if Tx(db, ops[0]).Ok? {
        match ops[0]
        case Save(i, _) => SaveKeepsIndex(db, i);
        case Revoke(id, at, _) => RevokeKeepsIndex(db, id, at);
      }
      RunIndexed(Step(db, ops[0]), ops[1..]);
    }
  }

  const EMPTY := Db(map[], map[])

  /** In every reachable state: at most one active install per tenant, and the tenant's pointer names it. */
  lemma OneActivePerTenant(ops: seq<Op>, i: string, j: string)
    requires SavesActive(ops)
    requires i in Run(EMPTY, ops).installs && j in Run(EMPTY, ops).installs
    requires var db := Run(EMPTY, ops);
      db.installs[i].state.Active? && db.installs[j].state.Active? && IdOf(db.installs[i]) == IdOf(db.installs[j])
    ensures i == j && PointedTo(Run(EMPTY, ops), i)
  {
    RunIndexed(EMPTY, ops);
    var db := Run(EMPTY, ops);
    assert PointedTo(db, i) && PointedTo(db, j);
  }

  /** Installs are never forgotten and every change to one raises its version. */
  lemma {:induction false} VersionsRise(db: Db, ops: seq<Op>, id: string)
    requires id in db.installs
    ensures var db' := Run(db, ops);
      id in db'.installs && (db'.installs[id] == db.installs[id] || db'.installs[id].version > db.installs[id].version)
    decreases |ops|
  {
    if ops != [] {
      VersionsRise(Step(db, ops[0]), ops[1..], id);
    }
  }

  // ---- Lookup ----

  datatype Lookup = NoInstall | Found(install: Install) | Denied

  function Get(db: Db, team: string, enterprise: Option<string>): Lookup {
    var t := LogicalId(team, enterprise);
    if t !in db.tenants then NoInstall
    else if !Speaks(db.tenants[t], team, enterprise) || db.tenants[t].install !in db.installs then Denied
    else if db.installs[db.tenants[t].install].state.Active? then Found(db.installs[db.tenants[t].install]) else Denied
  }

  ghost predicate ActiveFor(db: Db, i: Install, team: string, enterprise: Option<string>) {
    i.id in db.installs && db.installs[i.id] == i && i.state.Active? && i.team == team && i.enterprise == enterprise
  }

  /** In any store: nothing is found exactly where there is no pointer document; what is found is active; everything
      else is denied. */
  lemma GetIff(db: Db, team: string, enterprise: Option<string>)
    ensures Get(db, team, enterprise) == NoInstall <==> team + ":" + Part(enterprise) !in db.tenants
    ensures forall i :: Get(db, team, enterprise) == Found(i) <==>
      var t := team + ":" + Part(enterprise);
      && t in db.tenants && db.tenants[t].team == team && db.tenants[t].enterprise == enterprise
      && db.tenants[t].install in db.installs && db.installs[db.tenants[t].install] == i && i.state == Active
  {}

  /** An active install of another tenant that shares this tenant's logical id. */
  ghost predicate Occupies(i: Install, team: string, enterprise: Option<string>) {
    i.state.Active? && IdOf(i) == LogicalId(team, enterprise) && !Speaks(PointTo(i), team, enterprise)
  }

  /** A lookup never meets a revoked install. It finds the tenant's active install whenever there
      is one, and is denied exactly when another tenant with a colliding logical id is active. */
  lemma LookupExact(ops: seq<Op>, team: string, enterprise: Option<string>)
    requires SavesActive(ops)
    ensures var db := Run(EMPTY, ops); var r := Get(db, team, enterprise);
      && (forall i :: r == Found(i) <==> ActiveFor(db, i, team, enterprise))
      && (r.Denied? <==> exists id | id in db.installs :: Occupies(db.installs[id], team, enterprise))
  {
    RunIndexed(EMPTY, ops);
    var db := Run(EMPTY, ops);
    var t := LogicalId(team, enterprise);
    if t in db.tenants { assert PointsWell(db, t); }
    forall i | ActiveFor(db, i, team, enterprise) ensures Get(db, team, enterprise) == Found(i) {
      assert PointedTo(db, i.id);
    }
    forall id | id in db.installs && Occupies(db.installs[id], team, enterprise)
      ensures Get(db, team, enterprise).Denied?
    {
      assert PointedTo(db, id);
    }
  }

  // ---- What a save and a revoke do ----

  /** A save commits exactly if no active install has the logical id of its tenant, and the install itself is not
      active. */
  lemma SaveOkIff(db: Db, i: Install)
    requires Indexed(db)
    ensures SaveTx(db, i).Ok? <==>
      && !(i.id in db.installs && db.installs[i.id].state == Active)
      && forall j | j in db.installs && db.installs[j].state == Active :: IdOf(db.installs[j]) != IdOf(i)
  {
    var t := IdOf(i);
    if t in db.tenants { assert PointsWell(db, t); }
    forall j | j in db.installs && db.installs[j].state == Active && IdOf(db.installs[j]) == t ensures t in db.tenants {
      assert PointedTo(db, j);
    }
  }

  /** After a committed save of an active install the lookup of its tenant finds it, as saved, one version after a
      revoked install whose id it takes over; no other install changes. */
  lemma SaveFinds(db: Db, i: Install)
    requires Indexed(db) && SaveTx(db, i).Ok? && i.state == Active
    ensures var db' := SaveTx(db, i).value;
      var version := if i.id in db.installs then db.installs[i.id].version + 1 else i.version;
      && Get(db', i.team, i.enterprise) == Found(Install(i.id, i.team, i.enterprise, Active, i.created, version))
      && i.id in db'.installs && forall j | j in db.installs && j != i.id ::
           j in db'.installs && db'.installs[j] == db.installs[j]
  {}

  /** A revoke commits exactly if the install exists, the time is not before its creation, and no other tenant's
      active install occupies the logical id. */
  lemma RevokeOkIff(db: Db, id: string, at: int)
    requires Indexed(db)
    ensures RevokeTx(db, id, at).Ok? <==>
      && id in db.installs && db.installs[id].created <= at
      && forall j | j in db.installs :: !Occupies(db.installs[j], db.installs[id].team, db.installs[id].enterprise)
  {
    if id in db.installs {
      var t := IdOf(db.installs[id]);
      if t in db.tenants { assert PointsWell(db, t); }
      forall j | j in db.installs && db.installs[j].state == Active && IdOf(db.installs[j]) == t
        ensures t in db.tenants && db.tenants[t] == PointTo(db.installs[j])
      {
        assert PointedTo(db, j);
      }
    }
  }

  /** The lookup of no tenant finds this install. */
  ghost predicate NotFound(db: Db, id: string) {
    forall team, enterprise, i | Get(db, team, enterprise) == Found(i) :: i.id != id
  }

  lemma RevokedNotFound(db: Db, id: string)
    requires Indexed(db) && id in db.installs && db.installs[id].state == Revoked
    ensures NotFound(db, id)
  {
    forall team, enterprise, i | Get(db, team, enterprise) == Found(i) ensures i.id != id {
      assert PointsWell(db, LogicalId(team, enterprise));
    }
  }

  /** After a committed revoke the install is revoked, one version later and otherwise as it was; it is found for
      no tenant, and if it was the active one, nothing is found for its tenant. No other install changes. */
  lemma RevokeRevokes(db: Db, id: string, at: int)
    requires Indexed(db) && RevokeTx(db, id, at).Ok?
    ensures var x, db' := db.installs[id], RevokeTx(db, id, at).value;
      && db'.installs == db.installs[id := Install(x.id, x.team, x.enterprise, Revoked, x.created, x.version + 1)]
      && (x.state == Active ==> Get(db', x.team, x.enterprise) == NoInstall)
      && NotFound(db', id)
  {
    var x, db' := db.installs[id], RevokeTx(db, id, at).value;
    RevokeKeepsIndex(db, id, at);
    RevokedNotFound(db', id);
    if x.state == Active { assert PointedTo(db, id); }
  }

  /** A revoked install stays revoked, and is found for no tenant, until a save of it commits. */
  lemma {:induction false} RevokedStays(db: Db, ops: seq<Op>, id: string)
    requires Indexed(db) && SavesActive(ops) && id in db.installs && db.installs[id].state == Revoked
    requires forall op | op in ops && op.Save? && op.install.id == id :: !op.outcome.Effect()
    ensures var db' := Run(db, ops);
      id in db'.installs && db'.installs[id].state == Revoked && NotFound(db', id)
    decreases |ops|
  {
    if ops == [] {
      RevokedNotFound(db, id);
    } else {
      RunIndexed(db, [ops[0]]);
      assert [ops[0]][1..] == [] && Run(db, [ops[0]]) == Step(db, ops[0]);
      RevokedStays(Step(db, ops[0]), ops[1..], id);
    }
  }

  // ---- Which logical ids collide ----

  /** Two tenants with one logical id. */
  predicate Collide(team: string, enterprise: Option<string>, team': string, enterprise': Option<string>) {
    (team, enterprise) != (team', enterprise') && LogicalId(team, enterprise) == LogicalId(team', enterprise')
  }

  /** The logical id can be cut at position `k`, another one than that of the tenant itself. */
  predicate CutAt(team: string, enterprise: Option<string>, k: nat) {
    var id := LogicalId(team, enterprise);
    k != |team| && k < |id| - 1 && id[k] == ':'
  }

  lemma CutCollides(team: string, enterprise: Option<string>, k: nat)
    requires CutAt(team, enterprise, k)
    ensures var id := LogicalId(team, enterprise); Collide(team, enterprise, id[..k], Some(id[k + 1..]))
  {
    var id := LogicalId(team, enterprise);
    assert id[..k] + ":" + id[k + 1..] == id;
  }

  /** Another tenant with this logical id cuts it elsewhere, or both are shown with a dash. */
  lemma CollidesCut(team: string, enterprise: Option<string>, team': string, enterprise': Option<string>)
    requires Collide(team, enterprise, team', enterprise')
    ensures var id := LogicalId(team, enterprise);
      || (team' == team && Part(enterprise) == Part(enterprise') == "-")
      || (CutAt(team, enterprise, |team'|) && team' == id[..|team'|] && Part(enterprise') == id[|team'| + 1..])
  {
    var id, id' := LogicalId(team, enterprise), LogicalId(team', enterprise');
    assert id[..|team|] == team && id'[..|team'|] == team' && id[|team| + 1..] == Part(enterprise);
    assert id'[|team'| + 1..] == Part(enterprise') && id'[|team'|] == ':';
  }

  /** The same, said of the team and the enterprise. */
  predicate CanCollide(team: string, enterprise: Option<string>) {
    var v := Part(enterprise);
    ':' in team || v == "-" || exists k :: 0 <= k < |v| - 1 && v[k] == ':'
  }

  lemma CutIff(team: string, enterprise: Option<string>)
    ensures CanCollide(team, enterprise) <==> Part(enterprise) == "-" || exists k: nat :: CutAt(team, enterprise, k)
  {
    var id, v := LogicalId(team, enterprise), Part(enterprise);
    forall k: nat | CutAt(team, enterprise, k) ensures CanCollide(team, enterprise) {
      if k < |team| { assert team[k] == ':'; } else { assert v[k - |team| - 1] == ':'; }
    }
    if ':' in team {
      var k :| 0 <= k < |team| && team[k] == ':';
      assert CutAt(team, enterprise, k);
    } else if k :| 0 <= k < |v| - 1 && v[k] == ':' {
      assert id[|team| + 1 + k] == ':' && CutAt(team, enterprise, |team| + 1 + k);
    }
  }

  /** The exact condition on the arguments of a lookup: some other tenant shares the logical id exactly if
      there is a colon in the team id, or one in the enterprise id that is not its last character, or the
      enterprise id is missing, empty or a dash. */
  lemma LogicalIdsCollide(team: string, enterprise: Option<string>)
    ensures (exists team', enterprise' :: Collide(team, enterprise, team', enterprise'))
        <==> CanCollide(team, enterprise)
  {
    CutIff(team, enterprise);
    forall team', enterprise' | Collide(team, enterprise, team', enterprise') ensures CanCollide(team, enterprise) {
      CollidesCut(team, enterprise, team', enterprise');
    }
    if Part(enterprise) == "-" {
      assert Collide(team, enterprise, team, if enterprise.None? then Some("-") else None);
    } else if k: nat :| CutAt(team, enterprise, k) {
      CutCollides(team, enterprise, k);
    }
  }

  /** Exact text: not empty, and no white space at either end. */
  predicate Text(s: string, space: set<char>) { s != "" && s[0] !in space && s[|s| - 1] !in space }

  /** A tenant that an install can be saved for. */
  predicate Storable(team: string, enterprise: Option<string>, space: set<char>) {
    Text(team, space) && (enterprise.Some? ==> Text(enterprise.value, space))
  }

  ghost predicate StorableCollide(team: string, enterprise: Option<string>, team': string,
                                  enterprise': Option<string>, space: set<char>) {
    Storable(team', enterprise', space) && Collide(team, enterprise, team', enterprise')
  }

  /** Among tenants that can have an install: the id is shared exactly if it can be cut into exact texts at
      another colon, or the enterprise id is missing or a dash. */
  lemma StorableIdsCollide(team: string, enterprise: Option<string>, space: set<char>)
    requires Storable(team, enterprise, space) && '-' !in space
    ensures (exists team', enterprise' :: StorableCollide(team, enterprise, team', enterprise', space)) <==>
      var id := LogicalId(team, enterprise);
      Part(enterprise) == "-" || exists k: nat :: CutAt(team, enterprise, k) && Text(id[..k], space)
                                                  && Text(id[k + 1..], space)
  {
    var id := LogicalId(team, enterprise);
    forall team', enterprise' | StorableCollide(team, enterprise, team', enterprise', space)
      ensures Part(enterprise) == "-" || exists k: nat :: CutAt(team, enterprise, k) && Text(id[..k], space)
                                                          && Text(id[k + 1..], space)
    {
      CollidesCut(team, enterprise, team', enterprise');
    }
    if Part(enterprise) == "-" {
      assert StorableCollide(team, enterprise, team, if enterprise.None? then Some("-") else None, space);
    } else if k: nat :| CutAt(team, enterprise, k) && Text(id[..k], space) && Text(id[k + 1..], space) {
      CutCollides(team, enterprise, k);
      assert StorableCollide(team, enterprise, id[..k], Some(id[k + 1..]), space);
    }
  }

  /** Two pairs of tenants that do. */
  lemma LogicalIdsCollided()
    ensures Collide("T", None, "T", Some("-"))
    ensures Collide("A:B", Some("C"), "A", Some("B:C"))
  {
    assert "A:B" + ":" + "C" == "A" + ":" + "B:C";
  }

  /** The operation is for this tenant: it saves an install of the tenant, or revokes one. */
  ghost predicate For(db: Db, op: Op, team: string, enterprise: Option<string>) {
    match op
    case Save(i, _) => i.team == team && i.enterprise == enterprise
    case Revoke(id, _, _) =>
      id in db.installs && db.installs[id].team == team
      && db.installs[id].enterprise == enterprise
  }

  /** Collisions only deny: a tenant's active install, and the pointer to it, survive every operation
      for any other tenant, whether or not the logical ids collide. */
  lemma OthersLeaveActive(db: Db, op: Op, id: string)
    requires Indexed(db) && id in db.installs && db.installs[id].state.Active?
    requires !For(db, op, db.installs[id].team, db.installs[id].enterprise)
    ensures id in Step(db, op).installs && Step(db, op).installs[id] == db.installs[id] && PointedTo(Step(db, op), id)
  {
    assert PointedTo(db, id);
    if op.Revoke? && op.id in db.installs && IdOf(db.installs[op.id]) == IdOf(db.installs[id]) {
      assert db.tenants[IdOf(db.installs[id])].install == id;
    }
  }

  /** A pointer that speaks of a tenant changes only through an operation for that tenant. */
  lemma OthersLeavePointer(db: Db, op: Op, t: string)
    requires Indexed(db) && t in db.tenants && !For(db, op, db.tenants[t].team, db.tenants[t].enterprise)
    ensures t in Step(db, op).tenants && Step(db, op).tenants[t] == db.tenants[t]
  {
    assert PointsWell(db, t);
  }

  /** Only a revoked install can be taken over: an operation for another tenant changes an install exactly
      if it is a committed save under the id of an install that was revoked. */
  lemma TakenOverIff(db: Db, op: Op, id: string)
    requires Indexed(db) && id in db.installs && !For(db, op, db.installs[id].team, db.installs[id].enterprise)
    ensures Step(db, op).installs[id] != db.installs[id] <==>
      op.Save? && op.install.id == id && db.installs[id].state.Revoked? && Tx(db, op).Ok? && op.outcome.Effect()
  {
    if db.installs[id].state.Active? { OthersLeaveActive(db, op, id); }
  }

  /** The repository object: its transactions are the functions above. */
  class Repository {
    var db: Db

    constructor ()
      ensures db == EMPTY
    {
      db := EMPTY;
    }

    /** The transaction body reads both documents, then writes both or raises. */
    method SaveSharedInstall(i: Install, outcome: Outcome) returns (r: Option<Install>)
      modifies this
      ensures db == Step(old(db), Save(i, outcome))
      ensures r == if SaveTx(old(db), i).Ok? && outcome.Done? then Some(db.installs[i.id]) else None
    {
      var t := IdOf(i);
      if t in db.tenants {
        if !Speaks(db.tenants[t], i.team, i.enterprise) || db.tenants[t].install != i.id { return None; }
      }
      var persisted := i;
      if i.id in db.installs {
        if db.installs[i.id].state.Active? { return None; }
        persisted := i.(version := db.installs[i.id].version + 1);
      }
      if outcome.Effect() {
        db := Db(db.installs[i.id := persisted], db.tenants[t := PointTo(persisted)]);
      }
      r := if outcome.Done? then Some(persisted) else None;
    }

    method RevokeSharedInstall(id: string, at: int, outcome: Outcome) returns (r: Option<Install>)
      modifies this
      ensures db == Step(old(db), Revoke(id, at, outcome))
      ensures r == if RevokeTx(old(db), id, at).Ok? && outcome.Done? then Some(db.installs[id]) else None
    {
      if id !in db.installs || at < db.installs[id].created { return None; }
      var current := db.installs[id];
      var revoked := current.(state := Revoked, version := current.version + 1);
      var t, tenants := IdOf(current), db.tenants;
      if t in tenants {
        if !Speaks(tenants[t], current.team, current.enterprise) { return None; }
        if tenants[t].install == id { tenants := tenants - {t}; }
      }
      if outcome.Effect() { db := Db(db.installs[id := revoked], tenants); }
      r := if outcome.Done? then Some(revoked) else None;
    }

    method GetActiveInstallForTenant(team: string, enterprise: Option<string>) returns (r: Lookup)
      ensures r == Get(db, team, enterprise)
    {
      var t := LogicalId(team, enterprise);
      if t !in db.tenants { return NoInstall; }
      if !Speaks(db.tenants[t], team, enterprise) || db.tenants[t].install !in db.installs { return Denied; }
      var install := db.installs[db.tenants[t].install];
      r := if install.state.Active? then Found(install) else Denied;
    }
  }
}

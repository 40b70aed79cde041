/**
 What the session table is for: a simple machine in which every login family is one live token with an expiry, or
 dead. The table refines that machine, step by step and over whole runs.
 */
module SessionFamilies {
  import opened Prelude
  import opened SessionTable

  datatype FamilyState = Live(token: Hash, expiry: Time) | Dead

  datatype Family = Family(userId: nat, state: FamilyState)

  /** Every digest ever issued with its family, and the state of every family. */
  datatype Machine = Machine(tokens: map<Hash, FamilyId>, families: map<FamilyId, Family>)

  const START := Machine(map[], map[])

  function Killed(family: Family): Family {
    family.(state := Dead)
  }

  /** Kills every family a revocation covers. */
  function KillWhere(m: Machine, selector: Selector): Machine {
    m.(families := map f | f in m.families :: if Covers(selector, f, m.families[f]) then Killed(m.families[f])
                                              else m.families[f])
  }

  predicate Covers(selector: Selector, f: FamilyId, family: Family) {
    match selector
    case OfFamily(g) => f == g
    case OfUser(u) => family.userId == u
    case OfId(_) => false
  }

  function Kill(m: Machine, f: FamilyId): Machine {
    KillWhere(m, OfFamily(f))
  }

  function Refreshed(m: Machine, users: set<nat>, current: Hash, replacement: Hash, expiry: Time, checkedAt: Time)
    : (Machine, Outcome)
  {
    if current !in m.tokens || m.tokens[current] !in m.families then (m, NotFound)
    else
      var f := m.tokens[current];
      var family := m.families[f];
      if family.state.Dead? || family.state.token != current then (Kill(m, f), Reused(f))
      else if family.state.expiry <= checkedAt then (Kill(m, f), Expired(f))
      else if family.userId !in users then (Kill(m, f), UserNotFound(f))
      else if replacement in m.tokens then (m, StoreFailed)
      else
        (Machine(m.tokens[replacement := f], m.families[f := family.(state := Live(replacement, expiry))]),
         Rotated(f, family.userId))
  }

  function Next(m: Machine, o: Timed): (Machine, Outcome) {
    match o.op
    case OpCreate(u, h, f, e) =>
      if h in m.tokens || u !in o.users then (m, StoreFailed)
      else (Machine(m.tokens[h := f], m.families[f := Family(u, Live(h, e))]), Done)
    case OpRefresh(cur, repl, e, checkedAt) => Refreshed(m, o.users, cur, repl, e, checkedAt)
    case OpRevokeFamily(f) => (Kill(m, f), Done)
    case OpRevokeUser(u) => (KillWhere(m, OfUser(u)), Done)
  }

  function Runs(m: Machine, ops: seq<Timed>): (r: (Machine, seq<Outcome>))
    ensures |r.1| == |ops|
    decreases |ops|
  {
    if ops == [] then (m, [])
    else
      var (m', o) := Next(m, ops[0]);
      var (m'', os) := Runs(m', ops[1..]);
      (m'', [o] + os)
  }

  /** The unspent row of a family, if there is one. */
  predicate IsLiveRow(t: Table, f: FamilyId, id: nat) {
    id in t.rows && t.rows[id].familyId == f && t.rows[id].revokedAt.None?
  }

  predicate RowAgrees(t: Table, m: Machine, id: nat)
    requires id in t.rows
  {
    var row := t.rows[id];
    && row.tokenHash in m.tokens && m.tokens[row.tokenHash] == row.familyId
    && row.familyId in m.families && m.families[row.familyId].userId == row.userId
    && (row.revokedAt.None? ==> m.families[row.familyId].state == Live(row.tokenHash, row.expiresAt))
  }

  ghost predicate FamilyAgrees(t: Table, m: Machine, f: FamilyId)
    requires f in m.families
  {
    && FamilyKnown(t, f)
    && (m.families[f].state.Live? ==> exists id :: IsLiveRow(t, f, id))
  }

  /** The table and the machine tell the same story. */
  ghost predicate Refines(t: Table, m: Machine) {
    && (forall id {:trigger RowAgrees(t, m, id)} :: id in t.rows ==> RowAgrees(t, m, id))
    && (forall h {:trigger HashTaken(t, h)} :: h in m.tokens ==> HashTaken(t, h))
    && (forall f {:trigger FamilyAgrees(t, m, f)} :: f in m.families ==> FamilyAgrees(t, m, f))
  }

  lemma StartRefines()
    ensures Chained(EMPTY) && Refines(EMPTY, START)
  {
  }

  lemma HashKept(t: Table, t': Table, h: Hash)
    requires HashTaken(t, h)
    requires forall id :: id in t.rows ==> id in t'.rows && t'.rows[id].tokenHash == t.rows[id].tokenHash
    ensures HashTaken(t', h)
  {
  }

  /** A family whose rows are untouched still agrees. */
  lemma FamilyKept(t: Table, m: Machine, t': Table, m': Machine, f: FamilyId)
    requires f in m.families && FamilyAgrees(t, m, f)
    requires f in m'.families && m'.families[f] == m.families[f]
    requires forall id :: id in t.rows && t.rows[id].familyId == f ==> id in t'.rows && t'.rows[id] == t.rows[id]
    ensures FamilyAgrees(t', m', f)
  {
    var id :| id in t.rows && t.rows[id].familyId == f;
    assert id in t'.rows;
    if m.families[f].state.Live? {
      var live :| IsLiveRow(t, f, live);
      assert IsLiveRow(t', f, live);
    }
  }

  lemma RevokedRow(t: Table, m: Machine, selector: Selector, now: Time, id: nat)
    requires !selector.OfId? && id in t.rows && RowAgrees(t, m, id)
    ensures RowAgrees(Revoke(t, selector, now), KillWhere(m, selector), id)
  {
  }

  lemma RevokedFamily(t: Table, m: Machine, selector: Selector, now: Time, f: FamilyId)
    requires !selector.OfId? && f in m.families && FamilyAgrees(t, m, f)
    requires forall id :: id in t.rows && t.rows[id].familyId == f ==> t.rows[id].userId == m.families[f].userId
    ensures FamilyAgrees(Revoke(t, selector, now), KillWhere(m, selector), f)
  {
    var t', m' := Revoke(t, selector, now), KillWhere(m, selector);
    var id :| id in t.rows && t.rows[id].familyId == f;
    assert id in t'.rows && t'.rows[id].familyId == f;
    if m'.families[f].state.Live? {
      var live :| IsLiveRow(t, f, live);
      assert IsLiveRow(t', f, live);
    }
  }

  lemma FamilyOwner(t: Table, m: Machine, f: FamilyId)
    requires Refines(t, m) && f in m.families
    ensures forall id :: id in t.rows && t.rows[id].familyId == f ==> t.rows[id].userId == m.families[f].userId
  {
    forall id | id in t.rows && t.rows[id].familyId == f ensures t.rows[id].userId == m.families[f].userId {
      assert RowAgrees(t, m, id);
    }
  }

  /** Revoking a family or a user kills exactly the families covered. */
  lemma RevocationRefines(t: Table, m: Machine, selector: Selector, now: Time)
    requires Refines(t, m) && !selector.OfId?
    ensures Refines(Revoke(t, selector, now), KillWhere(m, selector))
  {
    var t', m' := Revoke(t, selector, now), KillWhere(m, selector);
    forall id | id in t'.rows ensures RowAgrees(t', m', id) {
      RevokedRow(t, m, selector, now, id);
    }
    forall h | h in m'.tokens ensures HashTaken(t', h) {
      HashKept(t, t', h);
    }
    forall f | f in m'.families ensures FamilyAgrees(t', m', f) {
      FamilyOwner(t, m, f);
      RevokedFamily(t, m, selector, now, f);
    }
  }

  lemma TokensAreHashes(t: Table, m: Machine, h: Hash)
    requires Refines(t, m)
    ensures h in m.tokens <==> HashTaken(t, h)
  {
    if HashTaken(t, h) {
      var id :| id in t.rows && t.rows[id].tokenHash == h;
      assert RowAgrees(t, m, id);
    }
  }

  /** A new live row for a family that has no other live row any more. */
  lemma InsertionRefines(t: Table, m: Machine, t': Table, m': Machine, id: nat, f: FamilyId)
    requires Refines(t, m) && id !in t.rows && t'.rows.Keys == t.rows.Keys + {id}
    requires IsLiveRow(t', f, id) && !HashTaken(t, t'.rows[id].tokenHash)
    requires m'.tokens == m.tokens[t'.rows[id].tokenHash := f]
    requires m'.families ==
      m.families[f := Family(t'.rows[id].userId, Live(t'.rows[id].tokenHash, t'.rows[id].expiresAt))]
    requires forall j :: j in t.rows ==>
      t'.rows[j].tokenHash == t.rows[j].tokenHash && t'.rows[j].familyId == t.rows[j].familyId
    requires forall j :: j in t.rows && t.rows[j].familyId != f ==> t'.rows[j] == t.rows[j]
    requires forall j :: j in t.rows && t.rows[j].familyId == f ==>
      t'.rows[j].revokedAt.Some? && t'.rows[j].userId == t'.rows[id].userId
    ensures Refines(t', m')
  {
    forall j | j in t'.rows ensures RowAgrees(t', m', j) {
      if j != id { assert RowAgrees(t, m, j); }
    }
    forall h | h in m'.tokens ensures HashTaken(t', h) {
      if h in m.tokens { HashKept(t, t', h); }
    }
    forall g | g in m'.families ensures FamilyAgrees(t', m', g) {
      if g != f { FamilyKept(t, m, t', m', g); }
    }
  }

  /** The presented token is live in the machine exactly when its row is unspent. */
  lemma LiveIffUnspent(t: Table, m: Machine, id: nat)
    requires Chained(t) && Refines(t, m) && id in t.rows
    ensures RowAgrees(t, m, id)
    ensures t.rows[id].Spent() <==>
      m.families[t.rows[id].familyId].state.Dead? ||
      m.families[t.rows[id].familyId].state.token != t.rows[id].tokenHash
  {
    assert Linked(t, id) && RowAgrees(t, m, id);
    var f := t.rows[id].familyId;
    if m.families[f].state.Live? {
      assert FamilyAgrees(t, m, f);
      var live :| IsLiveRow(t, f, live);
      assert RowAgrees(t, m, live);
    }
  }

  lemma CreationRefines(t: Table, m: Machine, o: Timed)
    requires Chained(t) && Refines(t, m) && o.op.OpCreate?
    requires !FamilyKnown(t, o.op.familyId)
    ensures Refines(Step(t, o).0, Next(m, o).0) && Step(t, o).1 == Next(m, o).1
  {
    TokensAreHashes(t, m, o.op.hash);
    if Step(t, o).1.Done? {
      assert t.nextId !in t.rows;
      InsertionRefines(t, m, Step(t, o).0, Next(m, o).0, t.nextId, o.op.familyId);
    }
  }

  lemma RotationRefines(t: Table, m: Machine, id: nat, replacement: Hash, expiresAt: Time, now: Time)
    requires Chained(t) && Refines(t, m)
    requires id in t.rows && !t.rows[id].Spent() && !HashTaken(t, replacement)
    ensures var f := t.rows[id].familyId;
      Refines(Rotate(t, id, replacement, expiresAt, now),
              Machine(m.tokens[replacement := f],
                      m.families[f := Family(t.rows[id].userId, Live(replacement, expiresAt))]))
  {
    var t', f := Rotate(t, id, replacement, expiresAt, now), t.rows[id].familyId;
    assert t.nextId !in t.rows;
    forall j | j in t.rows && t.rows[j].familyId == f
      ensures t'.rows[j].revokedAt.Some? && t'.rows[j].userId == t.rows[id].userId
    {
      ChainFacts(t, id, j);
    }
    InsertionRefines(t, m, t',
      Machine(m.tokens[replacement := f], m.families[f := Family(t.rows[id].userId, Live(replacement, expiresAt))]),
      t.nextId, f);
  }

  lemma RefreshRefines(t: Table, m: Machine, o: Timed)
    requires Chained(t) && Refines(t, m) && o.op.OpRefresh?
    ensures Refines(Step(t, o).0, Next(m, o).0) && Step(t, o).1 == Next(m, o).1
  {
    var OpRefresh(current, replacement, expiresAt, checkedAt) := o.op;
    TokensAreHashes(t, m, current);
    TokensAreHashes(t, m, replacement);
    var found := Lookup(t, current);
    if found.Some? {
      var id := found.value;
      LiveIffUnspent(t, m, id);
      RevocationRefines(t, m, OfFamily(t.rows[id].familyId), o.now);
      if !t.rows[id].Spent() {
        RevokingTheLiveRow(t, id, o.now);
        if !HashTaken(t, replacement) {
          RotationRefines(t, m, id, replacement, expiresAt, o.now);
        }
      }
    }
  }

  /** One transaction of the table is one step of the machine, with the same outcome. */
  lemma StepRefines(t: Table, m: Machine, o: Timed)
    requires Chained(t) && Refines(t, m)
    requires o.op.OpCreate? ==> !FamilyKnown(t, o.op.familyId)
    ensures Refines(Step(t, o).0, Next(m, o).0)
    ensures Step(t, o).1 == Next(m, o).1
  {
    match o.op
    case OpCreate(_, _, _, _) => CreationRefines(t, m, o);
    case OpRefresh(_, _, _, _) => RefreshRefines(t, m, o);
    case OpRevokeFamily(f) => RevocationRefines(t, m, OfFamily(f), o.now);
    case OpRevokeUser(u) => RevocationRefines(t, m, OfUser(u), o.now);
  }

  /** Any run of transactions is a run of the machine: same outcomes, and related states at the end. */
  lemma {:induction false} RunRefines(t: Table, m: Machine, ops: seq<Timed>)
    requires Chained(t) && Refines(t, m) && FreshFamilies(t, ops)
    ensures Refines(Run(t, ops).0, Runs(m, ops).0)
    ensures Run(t, ops).1 == Runs(m, ops).1
    decreases |ops|
  {
    if ops != [] {
      StepKeepsChained(t, ops[0]);
      StepRefines(t, m, ops[0]);
      RunRefines(Step(t, ops[0]).0, Next(m, ops[0]).0, ops[1..]);
    }
  }
}

/**
 The refresh-session table and the statements the session store issues on it. Each function is the effect of one
 committed transaction; the class AuthStore performs the same statements step by step.
 */
module SessionTable {
  import opened Prelude

  datatype Session = Session(
    userId: nat,
    tokenHash: Hash,
    familyId: FamilyId,
    expiresAt: Time,
    lastUsedAt: Time,
    revokedAt: Option<Time>,
    replacedBy: Option<nat>)
  {
    /** A row that may not be refreshed again. */
    predicate Spent() {
      revokedAt.Some? || replacedBy.Some?
    }

    function Revoke(now: Time): Session {
      if revokedAt.None? then this.(revokedAt := Some(now)) else this
    }
  }

  /** Rows by primary key; keys are handed out in increasing order and never reused. */
  datatype Table = Table(rows: map<nat, Session>, nextId: nat)

  const EMPTY := Table(map[], 1)

  /** The WHERE clauses of the revocations. */
  datatype Selector = OfId(id: nat) | OfUser(userId: nat) | OfFamily(familyId: FamilyId)

  predicate Selects(selector: Selector, id: nat, row: Session) {
    match selector
    case OfId(i) => id == i
    case OfUser(u) => row.userId == u
    case OfFamily(f) => row.familyId == f
  }

  function Revoke(t: Table, selector: Selector, now: Time): Table {
    t.(rows := map id | id in t.rows ::
      if Selects(selector, id, t.rows[id]) then t.rows[id].Revoke(now) else t.rows[id])
  }

  predicate HashTaken(t: Table, h: Hash) {
    exists id :: id in t.rows && t.rows[id].tokenHash == h
  }

  predicate FamilyKnown(t: Table, f: FamilyId) {
    exists id :: id in t.rows && t.rows[id].familyId == f
  }

  ghost function Lookup(t: Table, h: Hash): (r: Option<nat>)
    ensures r.Some? ==> r.value in t.rows && t.rows[r.value].tokenHash == h
    ensures r.None? <==> !HashTaken(t, h)
  {
    if HashTaken(t, h) then
      var id :| id in t.rows && t.rows[id].tokenHash == h;
      Some(id)
    else
      None
  }

  /** The row a login or a rotation inserts. */
  function NewRow(userId: nat, h: Hash, f: FamilyId, expiresAt: Time, now: Time): Session {
    Session(userId, h, f, expiresAt, now, None, None)
  }

  function Insert(t: Table, row: Session): Table {
    Table(t.rows[t.nextId := row], t.nextId + 1)
  }

  /** Creating a session fails on a duplicate digest or an unknown user, and then changes nothing. */
  function Create(t: Table, users: set<nat>, userId: nat, h: Hash, f: FamilyId, expiresAt: Time, now: Time)
    : (Table, bool)
  {
    if HashTaken(t, h) || userId !in users then (t, false)
    else (Insert(t, NewRow(userId, h, f, expiresAt, now)), true)
  }

  /** The new row and the spent old row that points at it. */
  function Rotate(t: Table, id: nat, replacement: Hash, expiresAt: Time, now: Time): Table
    requires id in t.rows
  {
    var row := t.rows[id];
    var inserted := Insert(t, NewRow(row.userId, replacement, row.familyId, expiresAt, now));
    inserted.(rows := inserted.rows[id :=
      row.(revokedAt := Some(now), lastUsedAt := now, replacedBy := Some(t.nextId))])
  }

  datatype Outcome =
    | NotFound
    | Reused(familyId: FamilyId)
    | Expired(familyId: FamilyId)
    | UserNotFound(familyId: FamilyId)
    | Rotated(familyId: FamilyId, userId: nat)
    | StoreFailed
    | Done

  ghost function Refresh(
    t: Table, users: set<nat>, current: Hash, replacement: Hash, expiresAt: Time, checkedAt: Time, now: Time)
    : (Table, Outcome)
  {
    match Lookup(t, current)
    case None => (t, NotFound)
    case Some(id) =>
      var row := t.rows[id];
      if row.Spent() then
        (Revoke(t, OfFamily(row.familyId), now), Reused(row.familyId))
      else if row.expiresAt <= checkedAt then
        (Revoke(t, OfId(id), now), Expired(row.familyId))
      else if row.userId !in users then
        (Revoke(t, OfId(id), now), UserNotFound(row.familyId))
      else if HashTaken(t, replacement) then
        (t, StoreFailed)
      else
        (Rotate(t, id, replacement, expiresAt, now), Rotated(row.familyId, row.userId))
  }

  /** One committed transaction on the table; `users` are the accounts that exist when it runs. */
  datatype Op =
    | OpCreate(userId: nat, hash: Hash, familyId: FamilyId, expiresAt: Time)
    | OpRefresh(current: Hash, replacement: Hash, newExpiry: Time, checkedAt: Time)
    | OpRevokeFamily(revokedFamily: FamilyId)
    | OpRevokeUser(revokedUser: nat)

  datatype Timed = Timed(op: Op, users: set<nat>, now: Time)

  ghost function Step(t: Table, o: Timed): (Table, Outcome) {
    match o.op
    case OpCreate(u, h, f, e) =>
      var (t', ok) := Create(t, o.users, u, h, f, e, o.now);
      (t', if ok then Done else StoreFailed)
    case OpRefresh(cur, repl, e, checkedAt) => Refresh(t, o.users, cur, repl, e, checkedAt, o.now)
    case OpRevokeFamily(f) => (Revoke(t, OfFamily(f), o.now), Done)
    case OpRevokeUser(u) => (Revoke(t, OfUser(u), o.now), Done)
  }

  ghost function Run(t: Table, ops: seq<Timed>): (r: (Table, seq<Outcome>))
    ensures |r.1| == |ops|
    decreases |ops|
  {
    if ops == [] then (t, [])
    else
      var (t', o) := Step(t, ops[0]);
      var (t'', os) := Run(t', ops[1..]);
      (t'', [o] + os)
  }

  /** Logins draw their family identifier with uuid4, so it names no family yet. */
  ghost predicate FreshFamilies(t: Table, ops: seq<Timed>)
    decreases |ops|
  {
    ops == [] ||
    ((ops[0].op.OpCreate? ==> !FamilyKnown(t, ops[0].op.familyId)) && FreshFamilies(Step(t, ops[0]).0, ops[1..]))
  }

  /** `j` follows `i` in the family, with no row between them. */
  predicate NextInFamily(t: Table, i: nat, j: nat)
    requires i in t.rows
  {
    && i < j && j in t.rows && t.rows[j].familyId == t.rows[i].familyId
    && forall k :: k in t.rows && t.rows[k].familyId == t.rows[i].familyId ==> k <= i || j <= k
  }

  predicate LastInFamily(t: Table, i: nat)
    requires i in t.rows
  {
    forall k :: k in t.rows && t.rows[k].familyId == t.rows[i].familyId ==> k <= i
  }

  predicate HashesUnique(t: Table) {
    forall i, j :: i in t.rows && j in t.rows && t.rows[i].tokenHash == t.rows[j].tokenHash ==> i == j
  }

  predicate FamiliesOwned(t: Table) {
    forall i, j :: i in t.rows && j in t.rows && t.rows[i].familyId == t.rows[j].familyId ==>
      t.rows[i].userId == t.rows[j].userId
  }

  predicate Linked(t: Table, i: nat)
    requires i in t.rows
  {
    match t.rows[i].replacedBy
    case None => LastInFamily(t, i)
    case Some(j) => NextInFamily(t, i, j) && t.rows[i].revokedAt.Some?
  }

  /**
   Each family is one chain: the rows in key order, each pointing at the next, all but the last revoked, all of one
   user.
   */
  predicate Chained(t: Table) {
    && 0 < t.nextId
    && (forall i :: i in t.rows ==> 0 < i < t.nextId)
    && HashesUnique(t)
    && FamiliesOwned(t)
    && (forall i {:trigger Linked(t, i)} :: i in t.rows ==> Linked(t, i))
  }

  /** A row keeps its place in the chain when rows only become revoked. */
  lemma LinkKept(t: Table, t': Table, i: nat)
    requires i in t.rows && Linked(t, i) && t'.rows.Keys == t.rows.Keys
    requires forall k :: k in t.rows ==> t'.rows[k].familyId == t.rows[k].familyId
    requires t'.rows[i].replacedBy == t.rows[i].replacedBy
    requires t.rows[i].revokedAt.Some? ==> t'.rows[i].revokedAt.Some?
    ensures Linked(t', i)
  {
  }

  lemma RevokeKeepsChained(t: Table, selector: Selector, now: Time)
    requires Chained(t)
    ensures Chained(Revoke(t, selector, now))
  {
    var t' := Revoke(t, selector, now);
    assert HashesUnique(t') && FamiliesOwned(t');
    forall i | i in t'.rows ensures Linked(t', i) {
      assert Linked(t, i);
      LinkKept(t, t', i);
    }
  }

  lemma CreateKeepsChained(t: Table, row: Session)
    requires Chained(t) && row.replacedBy.None?
    requires !HashTaken(t, row.tokenHash) && !FamilyKnown(t, row.familyId)
    ensures Chained(Insert(t, row))
  {
    var t' := Insert(t, row);
    forall i | i in t'.rows ensures Linked(t', i) {
      if i != t.nextId {
        assert Linked(t, i);
      }
    }
  }

  /** Rows of other families, and earlier rows of the family, keep their place when the last row gets a successor. */
  lemma LinkKeptByRotation(t: Table, t': Table, id: nat, i: nat)
    requires id in t.rows && t.nextId !in t.rows && (forall k :: k in t.rows ==> k < t.nextId)
    requires t'.rows.Keys == t.rows.Keys + {t.nextId}
    requires forall k :: k in t.rows ==> t'.rows[k].familyId == t.rows[k].familyId
    requires t'.rows[t.nextId].familyId == t.rows[id].familyId
    requires LastInFamily(t, id)
    requires i in t.rows && i != id && Linked(t, i) && t'.rows[i] == t.rows[i]
    ensures Linked(t', i)
  {
  }

  lemma ColumnsKeptByRotation(t: Table, t': Table, id: nat)
    requires HashesUnique(t) && FamiliesOwned(t) && id in t.rows && t.nextId !in t.rows
    requires t'.rows.Keys == t.rows.Keys + {t.nextId}
    requires forall k :: k in t.rows ==>
      && t'.rows[k].tokenHash == t.rows[k].tokenHash && t'.rows[k].familyId == t.rows[k].familyId
      && t'.rows[k].userId == t.rows[k].userId
    requires !HashTaken(t, t'.rows[t.nextId].tokenHash)
    requires t'.rows[t.nextId].familyId == t.rows[id].familyId && t'.rows[t.nextId].userId == t.rows[id].userId
    ensures HashesUnique(t') && FamiliesOwned(t')
  {
  }

  lemma RotateKeepsChained(t: Table, id: nat, replacement: Hash, expiresAt: Time, now: Time)
    requires Chained(t) && id in t.rows && !t.rows[id].Spent() && !HashTaken(t, replacement)
    ensures Chained(Rotate(t, id, replacement, expiresAt, now))
  {
    var t' := Rotate(t, id, replacement, expiresAt, now);
    assert Linked(t, id) && t.nextId !in t.rows;
    ColumnsKeptByRotation(t, t', id);
    forall i | i in t'.rows ensures Linked(t', i) {
      if i in t.rows && i != id {
        assert Linked(t, i);
        LinkKeptByRotation(t, t', id, i);
      }
    }
  }

  lemma StepKeepsChained(t: Table, o: Timed)
    requires Chained(t)
    requires o.op.OpCreate? ==> !FamilyKnown(t, o.op.familyId)
    ensures Chained(Step(t, o).0)
  {
    match o.op
    case OpCreate(u, h, f, e) =>
      if Create(t, o.users, u, h, f, e, o.now).1 {
        CreateKeepsChained(t, NewRow(u, h, f, e, o.now));
      }
    case OpRefresh(cur, repl, e, checkedAt) =>
      var found := Lookup(t, cur);
      if found.Some? {
        var row := t.rows[found.value];
        RevokeKeepsChained(t, OfFamily(row.familyId), o.now);
        RevokeKeepsChained(t, OfId(found.value), o.now);
        if !row.Spent() && !HashTaken(t, repl) {
          RotateKeepsChained(t, found.value, repl, e, o.now);
        }
      }
    case OpRevokeFamily(f) => RevokeKeepsChained(t, OfFamily(f), o.now);
    case OpRevokeUser(u) => RevokeKeepsChained(t, OfUser(u), o.now);
  }

  /** Every run from a chained table stays chained. */
  lemma {:induction false} RunKeepsChained(t: Table, ops: seq<Timed>)
    requires Chained(t) && FreshFamilies(t, ops)
    ensures Chained(Run(t, ops).0)
    decreases |ops|
  {
    if ops != [] {
      StepKeepsChained(t, ops[0]);
      RunKeepsChained(Step(t, ops[0]).0, ops[1..]);
    }
  }

  /** What a chain means: one live row at most, which is its last, and no row is the replacement of two others. */
  lemma ChainFacts(t: Table, i: nat, j: nat)
    requires Chained(t) && i in t.rows && j in t.rows && t.rows[i].familyId == t.rows[j].familyId
    ensures t.rows[i].revokedAt.None? ==> LastInFamily(t, i)
    ensures t.rows[i].revokedAt.None? && t.rows[j].revokedAt.None? ==> i == j
    ensures t.rows[i].replacedBy.Some? && t.rows[i].replacedBy == t.rows[j].replacedBy ==> i == j
  {
    assert Linked(t, i) && Linked(t, j);
  }

  /** Revoking the live row of a family is the same as revoking the family. */
  lemma RevokingTheLiveRow(t: Table, id: nat, now: Time)
    requires Chained(t) && id in t.rows && t.rows[id].revokedAt.None?
    ensures Revoke(t, OfId(id), now) == Revoke(t, OfFamily(t.rows[id].familyId), now)
  {
    forall j | j in t.rows && t.rows[j].familyId == t.rows[id].familyId && j != id
      ensures t.rows[j].revokedAt.Some?
    {
      ChainFacts(t, id, j);
    }
    assert Revoke(t, OfId(id), now).rows == Revoke(t, OfFamily(t.rows[id].familyId), now).rows;
  }
}

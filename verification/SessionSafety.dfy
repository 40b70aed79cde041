/** Safety of refresh tokens over whole runs of transactions. */
module SessionSafety {
  import opened Prelude
  import opened SessionTable

  /** Every row of the family is revoked. */
  predicate DeadFamily(t: Table, f: FamilyId) {
    FamilyKnown(t, f) && forall id :: id in t.rows && t.rows[id].familyId == f ==> t.rows[id].revokedAt.Some?
  }

  /** Row `id` belongs to the presented digest and is spent. */
  predicate SpentRow(t: Table, id: nat, h: Hash, f: FamilyId) {
    id in t.rows && t.rows[id].tokenHash == h && t.rows[id].familyId == f && t.rows[id].Spent()
  }

  /** Rows are never removed, never change digest, family or owner, and never become unspent again. */
  lemma StepIsMonotone(t: Table, o: Timed, id: nat)
    requires Chained(t) && id in t.rows
    ensures var t' := Step(t, o).0;
      && id in t'.rows
      && t'.rows[id].tokenHash == t.rows[id].tokenHash
      && t'.rows[id].familyId == t.rows[id].familyId
      && t'.rows[id].userId == t.rows[id].userId
      && (t.rows[id].revokedAt.Some? ==> t'.rows[id].revokedAt.Some?)
      && (t.rows[id].Spent() ==> t'.rows[id].Spent())
  {
    assert t.nextId !in t.rows;
  }

  lemma LookupIs(t: Table, id: nat)
    requires HashesUnique(t) && id in t.rows
    ensures Lookup(t, t.rows[id].tokenHash) == Some(id)
  {
  }

  /** Presenting a spent token is answered "reused" and leaves no live row in its family. */
  lemma SpentTokenKills(t: Table, o: Timed, id: nat, f: FamilyId)
    requires Chained(t) && o.op.OpRefresh? && SpentRow(t, id, o.op.current, f)
    ensures Step(t, o).1 == Reused(f)
    ensures DeadFamily(Step(t, o).0, f)
  {
    LookupIs(t, id);
    assert id in Step(t, o).0.rows;
  }

  lemma RevokedFamilyIsDead(t: Table, f: FamilyId, selector: Selector, now: Time)
    requires FamilyKnown(t, f)
    requires forall id :: id in t.rows && t.rows[id].familyId == f ==> Selects(selector, id, t.rows[id])
    ensures DeadFamily(Revoke(t, selector, now), f)
  {
    var id :| id in t.rows && t.rows[id].familyId == f;
    assert id in Revoke(t, selector, now).rows;
  }

  /** A refresh that is answered reused, expired or user-not-found revokes the token's whole family. */
  lemma EndingRefresh(t: Table, o: Timed, f: FamilyId)
    requires Chained(t) && o.op.OpRefresh? && Step(t, o).1 in {Reused(f), Expired(f), UserNotFound(f)}
    ensures Step(t, o).0 == Revoke(t, OfFamily(f), o.now)
  {
    var id := Lookup(t, o.op.current).value;
    if !t.rows[id].Spent() {
      RevokingTheLiveRow(t, id, o.now);
    }
  }

  /** Every way to end a family leaves it dead. */
  lemma RevocationKills(t: Table, o: Timed, f: FamilyId)
    requires Chained(t) && FamilyKnown(t, f)
    requires
      || o.op == OpRevokeFamily(f)
      || (o.op.OpRevokeUser? &&
          forall id :: id in t.rows && t.rows[id].familyId == f ==> t.rows[id].userId == o.op.revokedUser)
      || Step(t, o).1 in {Reused(f), Expired(f), UserNotFound(f)}
    ensures DeadFamily(Step(t, o).0, f)
  {
    if o.op.OpRevokeUser? {
      RevokedFamilyIsDead(t, f, OfUser(o.op.revokedUser), o.now);
    } else {
      RevokedFamilyIsDead(t, f, OfFamily(f), o.now);
      if o.op.OpRefresh? {
        EndingRefresh(t, o, f);
      }
    }
  }

  lemma DeadFamilyStep(t: Table, o: Timed, f: FamilyId)
    requires Chained(t) && DeadFamily(t, f)
    requires o.op.OpCreate? ==> !FamilyKnown(t, o.op.familyId)
    ensures DeadFamily(Step(t, o).0, f)
    ensures Step(t, o).1.Rotated? ==> Step(t, o).1.familyId != f
  {
    var t' := Step(t, o).0;
    var id :| id in t.rows && t.rows[id].familyId == f;
    StepIsMonotone(t, o, id);
    forall j | j in t'.rows && t'.rows[j].familyId == f ensures t'.rows[j].revokedAt.Some? {
      if j in t.rows { StepIsMonotone(t, o, j); }
    }
  }

  /** Once dead, always dead: no later transaction rotates any token of the family. */
  lemma {:induction false} DeadForEver(t: Table, ops: seq<Timed>, f: FamilyId)
    requires Chained(t) && DeadFamily(t, f) && FreshFamilies(t, ops)
    ensures DeadFamily(Run(t, ops).0, f)
    ensures forall i :: 0 <= i < |ops| && Run(t, ops).1[i].Rotated? ==> Run(t, ops).1[i].familyId != f
    decreases |ops|
  {
    if ops != [] {
      StepKeepsChained(t, ops[0]);
      DeadFamilyStep(t, ops[0], f);
      DeadForEver(Step(t, ops[0]).0, ops[1..], f);
    }
  }

  /** A spent token never rotates again: every later presentation is answered "reused". */
  lemma {:induction false} SpentForEver(t: Table, ops: seq<Timed>, id: nat, h: Hash, f: FamilyId)
    requires Chained(t) && SpentRow(t, id, h, f) && FreshFamilies(t, ops)
    ensures forall i :: 0 <= i < |ops| && ops[i].op.OpRefresh? && ops[i].op.current == h ==>
      Run(t, ops).1[i] == Reused(f)
    decreases |ops|
  {
    if ops != [] {
      if ops[0].op.OpRefresh? && ops[0].op.current == h {
        SpentTokenKills(t, ops[0], id, f);
      }
      StepKeepsChained(t, ops[0]);
      StepIsMonotone(t, ops[0], id);
      SpentForEver(Step(t, ops[0]).0, ops[1..], id, h, f);
    }
  }

  /** After a token is rotated, its second presentation kills the family for good. */
  lemma {:induction false} ReplayIsDetected(t: Table, ops: seq<Timed>, i: nat, j: nat)
    requires Chained(t) && FreshFamilies(t, ops) && i < j < |ops|
    requires ops[i].op.OpRefresh? && ops[j].op.OpRefresh? && ops[i].op.current == ops[j].op.current
    requires Run(t, ops).1[i].Rotated?
    ensures Run(t, ops).1[j] == Reused(Run(t, ops).1[i].familyId)
    ensures forall k :: j <= k < |ops| && Run(t, ops).1[k].Rotated? ==>
      Run(t, ops).1[k].familyId != Run(t, ops).1[i].familyId
    decreases |ops|
  {
    var t' := Step(t, ops[0]).0;
    StepKeepsChained(t, ops[0]);
    if i > 0 {
      ReplayIsDetected(t', ops[1..], i - 1, j - 1);
    } else {
      var id := Lookup(t, ops[0].op.current).value;
      var f := t.rows[id].familyId;
      SpentForEver(t', ops[1..], id, ops[0].op.current, f);
      DeadAfterReplay(t', ops[1..], j - 1, id, f);
    }
  }

  lemma {:induction false} DeadAfterReplay(t: Table, ops: seq<Timed>, j: nat, id: nat, f: FamilyId)
    requires Chained(t) && FreshFamilies(t, ops) && j < |ops|
    requires ops[j].op.OpRefresh? && SpentRow(t, id, ops[j].op.current, f)
    ensures forall k :: j <= k < |ops| && Run(t, ops).1[k].Rotated? ==> Run(t, ops).1[k].familyId != f
    decreases |ops|
  {
    var t' := Step(t, ops[0]).0;
    StepKeepsChained(t, ops[0]);
    if j == 0 {
      SpentTokenKills(t, ops[0], id, f);
      DeadForEver(t', ops[1..], f);
    } else {
      StepIsMonotone(t, ops[0], id);
      DeadAfterReplay(t', ops[1..], j - 1, id, f);
    }
  }
}

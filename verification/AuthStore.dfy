/** The transactional store of authentication, statement by statement. */
module AuthStore {
  import opened Prelude
  import opened SessionTable
  import opened AuthDb

  /** Taking the expired rows out is the purge. */
  lemma ExpiredAreGone(r: Resets, before: Time, expired: set<nat>)
    requires forall id :: id in expired <==> id in r.rows && r.rows[id].expiresAt <= before
    ensures r.(rows := r.rows - expired) == PurgeExpired(r, before)
    ensures r.rows.Keys - (r.rows - expired).Keys == expired
  {
    assert r.rows - expired == PurgeExpired(r, before).rows;
  }

  class Store {
    var users: Users
    var sessions: Table
    var resets: Resets

    /** The unique columns of the three tables. */
    predicate Valid()
      reads this
    {
      && UsersUnique(users)
      && HashesUnique(sessions) && (forall i :: i in sessions.rows ==> i < sessions.nextId)
      && (forall i :: i in resets.rows ==> i < resets.nextId)
      && (forall i, j :: i in resets.rows && j in resets.rows ==>
            resets.rows[i].tokenHash == resets.rows[j].tokenHash ==> i == j)
    }

    ghost function State(): Db
      reads this
    {
      Db(users, sessions, resets)
    }

    constructor ()
      ensures Valid() && State() == Db(Users(map[], 1), EMPTY, Resets(map[], 1))
    {
      users, sessions, resets := Users(map[], 1), EMPTY, Resets(map[], 1);
    }

    method GetUserByEmail(email: string) returns (r: Option<nat>)
      requires Valid()
      ensures r.None? <==> !EmailTaken(users, email)
      ensures r.Some? ==> r.value in users.rows && users.rows[r.value].email == email
    {
      if id :| id in users.rows && users.rows[id].email == email {
        return Some(id);
      }
      return None;
    }

    method GetUserByGoogleSub(sub: string) returns (r: Option<nat>)
      requires Valid()
      ensures r.None? <==> !SubTaken(users, sub)
      ensures r.Some? ==> r.value in users.rows && users.rows[r.value].googleSub == Some(sub)
    {
      if id :| id in users.rows && users.rows[id].googleSub == Some(sub) {
        return Some(id);
      }
      return None;
    }

    method GetSessionByTokenHash(h: Hash) returns (r: Option<nat>)
      requires Valid()
      ensures r == Lookup(sessions, h)
    {
      if id :| id in sessions.rows && sessions.rows[id].tokenHash == h {
        return Some(id);
      }
      return None;
    }

    /** One bulk UPDATE; the answer counts the rows it changed. */
    method RevokeMatching(selector: Selector, now: Time) returns (count: nat)
      requires Valid()
      modifies this`sessions
      ensures Valid()
      ensures sessions == Revoke(old(sessions), selector, now)
      ensures count == |set id | id in old(sessions).rows && Selects(selector, id, old(sessions).rows[id]) &&
                             old(sessions).rows[id].revokedAt.None?|
    {
      var matching := set id | id in sessions.rows && Selects(selector, id, sessions.rows[id]) &&
                               sessions.rows[id].revokedAt.None?;
      sessions := sessions.(rows := map id | id in sessions.rows ::
        if id in matching then sessions.rows[id].(revokedAt := Some(now)) else sessions.rows[id]);
      assert sessions.rows == Revoke(old(sessions), selector, now).rows;
      count := |matching|;
    }

    method CreateSession(userId: nat, h: Hash, f: FamilyId, expiresAt: Time, now: Time) returns (ok: bool)
      requires Valid()
      modifies this`sessions
      ensures Valid()
      ensures (sessions, ok) == Create(old(sessions), users.rows.Keys, userId, h, f, expiresAt, now)
    {
      var savepoint := sessions;
      sessions := Insert(sessions, NewRow(userId, h, f, expiresAt, now));
      ok := !HashTaken(savepoint, h) && userId in users.rows;
      if !ok {
        sessions := savepoint;
      }
    }

    /** Inserts the replacement, then spends the current row if it is still unspent, inside one savepoint. */
    method RotateSession(id: nat, replacement: Hash, expiresAt: Time, now: Time) returns (ok: bool)
      requires Valid()
      modifies this`sessions
      ensures Valid()
      ensures ok <==>
        id in old(sessions).rows && !old(sessions).rows[id].Spent() && !HashTaken(old(sessions), replacement)
      ensures sessions == if ok then Rotate(old(sessions), id, replacement, expiresAt, now) else old(sessions)
    {
      var savepoint := sessions;
      if id !in sessions.rows {
        return false;
      }
      var current := sessions.rows[id];
      if current.revokedAt.Some? || current.replacedBy.Some? {
        return false;
      }
      var replacementId := sessions.nextId;
      sessions := Insert(sessions, NewRow(current.userId, replacement, current.familyId, expiresAt, now));
      if HashTaken(savepoint, replacement) {
        sessions := savepoint;
        return false;
      }
      // The row lock keeps the current row as it was read, so the guarded UPDATE finds it.
      assert sessions.rows[id] == current;
      sessions := sessions.(rows := sessions.rows[id :=
        current.(revokedAt := Some(now), lastUsedAt := now, replacedBy := Some(replacementId))]);
      return true;
    }

    /** Looks the presented token up, decides, and writes, in one transaction. */
    method RotateSessionByTokenHash(current: Hash, replacement: Hash, expiresAt: Time, checkedAt: Time, now: Time)
      returns (r: Outcome)
      requires Valid()
      modifies this`sessions
      ensures Valid()
      ensures (sessions, r) == Refresh(old(sessions), users.rows.Keys, current, replacement, expiresAt, checkedAt, now)
    {
      var found := GetSessionByTokenHash(current);
      if found.None? {
        return NotFound;
      }
      var id := found.value;
      var row := sessions.rows[id];
      if row.revokedAt.Some? || row.replacedBy.Some? {
        var _ := RevokeMatching(OfFamily(row.familyId), now);
        return Reused(row.familyId);
      }
      if row.expiresAt <= checkedAt {
        var _ := RevokeMatching(OfId(id), now);
        return Expired(row.familyId);
      }
      if row.userId !in users.rows {
        var _ := RevokeMatching(OfId(id), now);
        return UserNotFound(row.familyId);
      }
      var ok := RotateSession(id, replacement, expiresAt, now);
      return if ok then Rotated(row.familyId, row.userId) else StoreFailed;
    }

    /** Inserts the user and its first session; a failure of either insert rolls both back. */
    method CreateUserWithSession(user: User, h: Hash, f: FamilyId, expiresAt: Time, now: Time) returns (r: Creation)
      requires Valid()
      modifies this`users, this`sessions
      ensures Valid()
      ensures (State(), r) == AuthDb.CreateUserWithSession(old(State()), user, h, f, expiresAt, now)
    {
      var before := users;
      if !Complete(user) {
        return Incomplete;
      }
      if Conflicts(users, user) {
        return UserConflict;
      }
      var id := users.nextId;
      users := InsertUser(users, user);
      InsertKeepsUsersUnique(before, user);
      var ok := CreateSession(id, h, f, expiresAt, now);
      if !ok {
        users := before;
        return SessionConflict;
      }
      return Created(id);
    }

    /** Revokes the user's pending reset tokens and inserts the new one, or neither. */
    method CreatePasswordResetToken(userId: nat, h: Hash, expiresAt: Time, requestedAt: Time) returns (ok: bool)
      requires Valid()
      modifies this`resets
      ensures Valid()
      ensures (State(), ok) == RequestReset(old(State()), userId, h, expiresAt, requestedAt)
    {
      if expiresAt <= requestedAt {
        return false;
      }
      var before := resets;
      resets := RevokePending(resets, userId, requestedAt);
      resets := InsertReset(resets, ResetToken(userId, h, expiresAt, None));
      ok := !ResetHashTaken(before, h) && userId in users.rows;
      if !ok {
        resets := before;
      }
    }

    /** The guarded UPDATE that consumes a token. */
    method ConsumeToken(h: Hash, at: Time) returns (r: Option<nat>)
      requires Valid()
      modifies this`resets
      ensures Valid()
      ensures r == FindConsumable(old(resets), h, at)
      ensures resets == if r.Some? then MarkUsed(old(resets), r.value, at) else old(resets)
    {
      if id :| id in resets.rows && Consumable(resets, id, h, at) {
        resets := resets.(rows := resets.rows[id := resets.rows[id].(usedAt := Some(at))]);
        return Some(id);
      }
      return None;
    }

    /** Consumes the token, replaces the password and revokes the sessions in one transaction. */
    method ResetPasswordWithToken(h: Hash, passwordHash: string, consumedAt: Time, now: Time) returns (r: ResetOutcome)
      requires Valid()
      modifies this
      ensures Valid()
      ensures (State(), r) == ResetPassword(old(State()), h, passwordHash, consumedAt, now)
    {
      var before := resets;
      var consumed := ConsumeToken(h, consumedAt);
      if consumed.None? {
        return Unavailable;
      }
      var userId := resets.rows[consumed.value].userId;
      if userId !in users.rows {
        resets := before;
        return ResetFailed;
      }
      users := SetPassword(users, userId, passwordHash);
      var _ := RevokeMatching(OfUser(userId), now);
      return PasswordReset(userId);
    }

    method DeleteExpiredPasswordResetTokens(before: Time) returns (count: nat)
      requires Valid()
      modifies this`resets
      ensures Valid()
      ensures resets == PurgeExpired(old(resets), before)
      ensures count == |old(resets).rows.Keys - resets.rows.Keys|
    {
      ghost var was := resets;
      var expired := set id | id in resets.rows && resets.rows[id].expiresAt <= before;
      resets := resets.(rows := resets.rows - expired);
      ExpiredAreGone(was, before, expired);
      count := |expired|;
    }
  }
}

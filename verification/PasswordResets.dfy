/** One-time password-reset tokens: single use, one pending token a user, atomic reset, invisible purge. */
module PasswordResets {
  import opened Prelude
  import opened SessionTable
  import opened SessionSafety
  import opened AuthDb

  /** A transaction with the clock reading it is given. */
  datatype ResetOp =
    | Request(userId: nat, hash: Hash, expiresAt: Time)
    | Reset(token: Hash, passwordHash: string)
    | Purge(before: Time)
    | OnSessions(op: Op)

  datatype At = At(op: ResetOp, time: Time)

  datatype Answer = Requested(ok: bool) | Answered(reset: ResetOutcome) | Purged | OfSession(outcome: Outcome)

  /** With `purging` false a purge does nothing: the run the purging one is compared with. */
  ghost function Step(db: Db, a: At, purging: bool): (Db, Answer) {
    match a.op
    case Request(u, h, e) =>
      var (db', ok) := RequestReset(db, u, h, e, a.time);
      (db', Requested(ok))
    case Reset(h, p) =>
      var (db', r) := ResetPassword(db, h, p, a.time, a.time);
      (db', Answered(r))
    case Purge(before) =>
      (if purging then db.(resets := PurgeExpired(db.resets, before)) else db, Purged)
    case OnSessions(op) =>
      var (t, o) := SessionTable.Step(db.sessions, Timed(op, db.users.rows.Keys, a.time));
      (db.(sessions := t), OfSession(o))
  }

  ghost function Run(db: Db, ops: seq<At>, purging: bool): (r: (Db, seq<Answer>))
    ensures |r.1| == |ops|
    decreases |ops|
  {
    if ops == [] then (db, [])
    else
      var (db', a) := Step(db, ops[0], purging);
      var (db'', as') := Run(db', ops[1..], purging);
      (db'', [a] + as')
  }

  // ---------------------------------------------------------------- invariant

  predicate ResetHashesUnique(r: Resets) {
    && (forall i :: i in r.rows ==> i < r.nextId)
    && (forall i, j :: i in r.rows && j in r.rows && r.rows[i].tokenHash == r.rows[j].tokenHash ==> i == j)
  }

  /** No user has two pending tokens. */
  predicate OnePending(r: Resets) {
    forall i, j ::
      i in r.rows && j in r.rows && r.rows[i].usedAt.None? && r.rows[j].usedAt.None? ==>
        r.rows[i].userId == r.rows[j].userId ==> i == j
  }

  predicate Sound(r: Resets) {
    ResetHashesUnique(r) && OnePending(r)
  }

  lemma RevocationKeepsSound(r: Resets, userId: nat, at: Time)
    requires Sound(r)
    ensures var r' := RevokePending(r, userId, at);
      && Sound(r') && r'.rows.Keys == r.rows.Keys
      && (forall i :: i in r.rows ==> r'.rows[i].tokenHash == r.rows[i].tokenHash)
      && (forall i :: i in r.rows && r'.rows[i].usedAt.None? ==> r'.rows[i].userId != userId)
  {
  }

  lemma InsertionKeepsSound(r: Resets, token: ResetToken)
    requires Sound(r) && !ResetHashTaken(r, token.tokenHash)
    requires forall i :: i in r.rows && r.rows[i].usedAt.None? ==> r.rows[i].userId != token.userId
    ensures Sound(InsertReset(r, token))
  {
  }

  lemma RequestKeepsSound(r: Resets, token: ResetToken, at: Time)
    requires Sound(r) && !ResetHashTaken(r, token.tokenHash)
    ensures Sound(InsertReset(RevokePending(r, token.userId, at), token))
  {
    RevocationKeepsSound(r, token.userId, at);
    InsertionKeepsSound(RevokePending(r, token.userId, at), token);
  }

  lemma StepKeepsSound(db: Db, a: At, purging: bool)
    requires Sound(db.resets)
    ensures Sound(Step(db, a, purging).0.resets)
  {
    if a.op.Request? && Step(db, a, purging).1.ok {
      RequestKeepsSound(db.resets, ResetToken(a.op.userId, a.op.hash, a.op.expiresAt, None), a.time);
    }
  }

  /** Over every run a user has at most one pending token, and digests stay unique. */
  lemma {:induction false} RunKeepsSound(db: Db, ops: seq<At>, purging: bool)
    requires Sound(db.resets)
    ensures Sound(Run(db, ops, purging).0.resets)
    decreases |ops|
  {
    if ops != [] {
      StepKeepsSound(db, ops[0], purging);
      RunKeepsSound(Step(db, ops[0], purging).0, ops[1..], purging);
    }
  }

  // ---------------------------------------------------------------- one request

  /**
   A request succeeds exactly before its expiry, for an existing user and a new digest. Then the new row holds what was
   asked for, unused, the user's pending tokens are used, and nothing else changes; a failed request changes nothing.
   */
  lemma RequestEffects(db: Db, u: nat, h: Hash, expiresAt: Time, at: Time)
    requires ResetHashesUnique(db.resets)
    ensures var (db', ok) := RequestReset(db, u, h, expiresAt, at);
      && (ok <==> at < expiresAt && u in db.users.rows && !ResetHashTaken(db.resets, h))
      && db'.users == db.users && db'.sessions == db.sessions
      && (!ok ==> db' == db)
      && (ok ==>
            && db'.resets.rows.Keys == db.resets.rows.Keys + {db.resets.nextId}
            && db'.resets.nextId == db.resets.nextId + 1
            && db'.resets.rows[db.resets.nextId] == ResetToken(u, h, expiresAt, None)
            && forall i :: i in db.resets.rows ==>
                 var token := db.resets.rows[i];
                 db'.resets.rows[i] ==
                 if token.userId == u && token.usedAt.None? then token.(usedAt := Some(at)) else token)
  {
  }

  /** The requested token resets the password at any time before its expiry, and not from then on. */
  lemma RequestThenReset(
    db: Db, u: nat, h: Hash, expiresAt: Time, at: Time, passwordHash: string, later: Time, now: Time)
    requires Sound(db.resets) && RequestReset(db, u, h, expiresAt, at).1
    ensures var (db', r) := ResetPassword(RequestReset(db, u, h, expiresAt, at).0, h, passwordHash, later, now);
      && r == (if later < expiresAt then PasswordReset(u) else Unavailable)
      && (later < expiresAt ==>
            db'.users.rows == db.users.rows[u := db.users.rows[u].(passwordHash := Some(passwordHash))])
  {
    var requested := RequestReset(db, u, h, expiresAt, at).0;
    RequestEffects(db, u, h, expiresAt, at);
    RequestKeepsSound(db.resets, ResetToken(u, h, expiresAt, None), at);
    ResetEffects(requested, db.resets.nextId, passwordHash, later, now);
    ResetRefused(requested, h, passwordHash, later, now);
  }

  lemma ResetRefused(db: Db, h: Hash, passwordHash: string, at: Time, now: Time)
    ensures ResetPassword(db, h, passwordHash, at, now).1 == Unavailable <==>
            forall i :: i in db.resets.rows && db.resets.rows[i].tokenHash == h ==>
              db.resets.rows[i].usedAt.Some? || db.resets.rows[i].expiresAt <= at
  {
    if i :| i in db.resets.rows && db.resets.rows[i].tokenHash == h && db.resets.rows[i].usedAt.None? &&
            at < db.resets.rows[i].expiresAt {
      assert Consumable(db.resets, i, h, at);
    }
  }

  // ---------------------------------------------------------------- one reset

  /**
   A reset succeeds exactly for a pending, unexpired token of an existing user. It then installs the hash for that
   user alone and leaves none of that user's sessions live, and no other session touched; otherwise nothing changes.
   */
  lemma ResetEffects(db: Db, id: nat, passwordHash: string, at: Time, now: Time)
    requires Sound(db.resets) && id in db.resets.rows
    ensures var token := db.resets.rows[id];
      var (db', r) := ResetPassword(db, token.tokenHash, passwordHash, at, now);
      && (r.PasswordReset? <==> token.usedAt.None? && at < token.expiresAt && token.userId in db.users.rows)
      && (!r.PasswordReset? ==> db' == db)
      && (r.PasswordReset? ==>
            && r.userId == token.userId
            && db'.users.rows ==
               db.users.rows[token.userId := db.users.rows[token.userId].(passwordHash := Some(passwordHash))]
            && db'.resets.rows == db.resets.rows[id := token.(usedAt := Some(at))]
            && db'.sessions.rows.Keys == db.sessions.rows.Keys
            && (forall s :: s in db.sessions.rows ==>
                  if db.sessions.rows[s].userId == token.userId then db'.sessions.rows[s].revokedAt.Some?
                  else db'.sessions.rows[s] == db.sessions.rows[s]))
  {
    var found := FindConsumable(db.resets, db.resets.rows[id].tokenHash, at);
    if found.None? {
      assert !Consumable(db.resets, id, db.resets.rows[id].tokenHash, at);
    }
  }

  /** After a successful reset no family the user had before ever rotates again, whatever runs later. */
  lemma ResetEndsOldFamilies(db: Db, h: Hash, passwordHash: string, at: Time, now: Time, id: nat, later: seq<Timed>)
    requires Chained(db.sessions) && id in db.sessions.rows
    requires ResetPassword(db, h, passwordHash, at, now).1 == PasswordReset(db.sessions.rows[id].userId)
    requires FreshFamilies(ResetPassword(db, h, passwordHash, at, now).0.sessions, later)
    ensures var answers := SessionTable.Run(ResetPassword(db, h, passwordHash, at, now).0.sessions, later).1;
      forall i :: 0 <= i < |later| && answers[i].Rotated? ==> answers[i].familyId != db.sessions.rows[id].familyId
  {
    var f := db.sessions.rows[id].familyId;
    var revocation := Timed(OpRevokeUser(db.sessions.rows[id].userId), {}, now);
    RevocationKills(db.sessions, revocation, f);
    StepKeepsChained(db.sessions, revocation);
    DeadForEver(SessionTable.Step(db.sessions, revocation).0, later, f);
  }

  // ---------------------------------------------------------------- single use

  predicate UsedToken(db: Db, id: nat, h: Hash) {
    id in db.resets.rows && db.resets.rows[id].tokenHash == h && db.resets.rows[id].usedAt.Some?
  }

  lemma UsedStaysUsed(db: Db, a: At, id: nat, h: Hash)
    requires Sound(db.resets) && UsedToken(db, id, h)
    ensures UsedToken(Step(db, a, false).0, id, h)
    ensures a.op.Reset? && a.op.token == h ==> Step(db, a, false).1 == Answered(Unavailable)
  {
  }

  lemma {:induction false} UsedForEver(db: Db, ops: seq<At>, id: nat, h: Hash)
    requires Sound(db.resets) && UsedToken(db, id, h)
    ensures forall i :: 0 <= i < |ops| && ops[i].op.Reset? && ops[i].op.token == h ==>
      Run(db, ops, false).1[i] == Answered(Unavailable)
    decreases |ops|
  {
    if ops != [] {
      UsedStaysUsed(db, ops[0], id, h);
      StepKeepsSound(db, ops[0], false);
      UsedForEver(Step(db, ops[0], false).0, ops[1..], id, h);
    }
  }

  predicate Succeeds(a: Answer) {
    a.Answered? && a.reset.PasswordReset?
  }

  lemma {:induction false} SingleUseWithoutPurge(db: Db, ops: seq<At>, i: nat, j: nat)
    requires Sound(db.resets) && i < j < |ops|
    requires ops[i].op.Reset? && ops[j].op.Reset? && ops[i].op.token == ops[j].op.token
    requires Succeeds(Run(db, ops, false).1[i])
    ensures Run(db, ops, false).1[j] == Answered(Unavailable)
    decreases |ops|
  {
    var db' := Step(db, ops[0], false).0;
    StepKeepsSound(db, ops[0], false);
    if i > 0 {
      SingleUseWithoutPurge(db', ops[1..], i - 1, j - 1);
    } else {
      var id := FindConsumable(db.resets, ops[0].op.token, ops[0].time).value;
      UsedForEver(db', ops[1..], id, ops[0].op.token);
    }
  }

  // ---------------------------------------------------------------- purge

  /** Clock readings do not go back, and a purge deletes only what has expired by its own reading. */
  predicate InOrder(ops: seq<At>, since: Time)
    decreases |ops|
  {
    ops == [] ||
    (since <= ops[0].time && (ops[0].op.Purge? ==> ops[0].op.before <= ops[0].time) && InOrder(ops[1..], ops[0].time))
  }

  /** Every requested token has a digest never used before, as 32 random bytes give. */
  ghost predicate FreshTokens(db: Db, ops: seq<At>)
    decreases |ops|
  {
    ops == [] ||
    ((ops[0].op.Request? ==> !ResetHashTaken(db.resets, ops[0].op.hash)) &&
     FreshTokens(Step(db, ops[0], false).0, ops[1..]))
  }

  /** `p` is `q` without some rows that have expired by `now`. */
  predicate PurgedUpTo(p: Resets, q: Resets, now: Time) {
    && p.nextId == q.nextId && p.rows.Keys <= q.rows.Keys
    && (forall i :: i in p.rows ==> p.rows[i] == q.rows[i])
    && (forall i :: i in q.rows && i !in p.rows ==> q.rows[i].expiresAt <= now)
  }

  lemma PurgedConsumable(p: Resets, q: Resets, h: Hash, at: Time)
    requires PurgedUpTo(p, q, at) && ResetHashesUnique(q)
    ensures FindConsumable(p, h, at) == FindConsumable(q, h, at)
  {
    var inQ := FindConsumable(q, h, at);
    if inQ.Some? {
      assert Consumable(p, inQ.value, h, at);
    }
    var inP := FindConsumable(p, h, at);
    if inP.Some? {
      assert Consumable(q, inP.value, h, at);
    }
  }

  lemma PurgedRequest(p: Resets, q: Resets, token: ResetToken, at: Time, since: Time)
    requires PurgedUpTo(p, q, since) && ResetHashesUnique(q) && since <= at && !ResetHashTaken(q, token.tokenHash)
    ensures !ResetHashTaken(p, token.tokenHash)
    ensures PurgedUpTo(InsertReset(RevokePending(p, token.userId, at), token),
                       InsertReset(RevokePending(q, token.userId, at), token), at)
  {
  }

  lemma PurgeStep(p: Db, q: Db, a: At, since: Time)
    requires p.users == q.users && p.sessions == q.sessions && PurgedUpTo(p.resets, q.resets, since)
    requires Sound(q.resets) && since <= a.time
    requires a.op.Purge? ==> a.op.before <= a.time
    requires a.op.Request? ==> !ResetHashTaken(q.resets, a.op.hash)
    ensures var p', q' := Step(p, a, true), Step(q, a, false);
      && p'.1 == q'.1
      && p'.0.users == q'.0.users && p'.0.sessions == q'.0.sessions
      && PurgedUpTo(p'.0.resets, q'.0.resets, a.time)
  {
    match a.op
    case Request(u, h, e) => PurgedRequest(p.resets, q.resets, ResetToken(u, h, e, None), a.time, since);
    case Reset(h, _) => PurgedConsumable(p.resets, q.resets, h, a.time);
    case Purge(_) =>
    case OnSessions(_) =>
  }

  /** Purging is invisible: every answer, the accounts and the sessions are the same with and without it. */
  lemma {:induction false} PurgeIsInvisible(p: Db, q: Db, ops: seq<At>, since: Time)
    requires p.users == q.users && p.sessions == q.sessions && PurgedUpTo(p.resets, q.resets, since)
    requires Sound(q.resets) && InOrder(ops, since) && FreshTokens(q, ops)
    ensures Run(p, ops, true).1 == Run(q, ops, false).1
    ensures Run(p, ops, true).0.users == Run(q, ops, false).0.users
    ensures Run(p, ops, true).0.sessions == Run(q, ops, false).0.sessions
    decreases |ops|
  {
    if ops != [] {
      PurgeStep(p, q, ops[0], since);
      StepKeepsSound(q, ops[0], false);
      PurgeIsInvisible(Step(p, ops[0], true).0, Step(q, ops[0], false).0, ops[1..], ops[0].time);
    }
  }

  // ---------------------------------------------------------------- single use, whatever is purged when

  /** `p` holds no digest that `q`, where nothing is ever purged, does not hold; the accounts are the same ones. */
  predicate HashesWithin(p: Db, q: Db) {
    && p.users.rows.Keys == q.users.rows.Keys
    && (forall i {:trigger p.resets.rows[i]} ::
          i in p.resets.rows ==> ResetHashTaken(q.resets, p.resets.rows[i].tokenHash))
  }

  /** The digest was issued, and no row that bears it is pending. */
  predicate SpentHash(p: Db, q: Db, h: Hash) {
    && ResetHashTaken(q.resets, h)
    && (forall i :: i in p.resets.rows && p.resets.rows[i].tokenHash == h ==> p.resets.rows[i].usedAt.Some?)
  }

  lemma HashStaysTaken(q: Db, a: At, h: Hash)
    requires ResetHashTaken(q.resets, h) && (forall i :: i in q.resets.rows ==> i < q.resets.nextId)
    ensures ResetHashTaken(Step(q, a, false).0.resets, h)
  {
    var i :| i in q.resets.rows && q.resets.rows[i].tokenHash == h;
    var q' := Step(q, a, false).0.resets;
    assert i in q'.rows && q'.rows[i].tokenHash == h;
  }

  lemma StepKeepsWithin(p: Db, q: Db, a: At)
    requires HashesWithin(p, q) && Sound(q.resets) && (a.op.Request? ==> !ResetHashTaken(q.resets, a.op.hash))
    ensures HashesWithin(Step(p, a, true).0, Step(q, a, false).0)
  {
    var p', q' := Step(p, a, true).0, Step(q, a, false).0;
    forall i | i in p'.resets.rows ensures ResetHashTaken(q'.resets, p'.resets.rows[i].tokenHash) {
      if i in p.resets.rows && p'.resets.rows[i].tokenHash == p.resets.rows[i].tokenHash {
        HashStaysTaken(q, a, p.resets.rows[i].tokenHash);
      } else {
        assert a.op.Request? && Step(p, a, true).1.ok && p'.resets.rows[i].tokenHash == a.op.hash;
        assert q'.resets.rows[q.resets.nextId].tokenHash == a.op.hash;
      }
    }
  }

  lemma StepKeepsSpent(p: Db, q: Db, a: At, h: Hash)
    requires HashesWithin(p, q) && SpentHash(p, q, h) && Sound(q.resets)
    requires a.op.Request? ==> !ResetHashTaken(q.resets, a.op.hash)
    ensures SpentHash(Step(p, a, true).0, Step(q, a, false).0, h)
    ensures a.op.Reset? && a.op.token == h ==> Step(p, a, true).1 == Answered(Unavailable)
  {
    HashStaysTaken(q, a, h);
  }

  lemma {:induction false} SpentHashForEver(p: Db, q: Db, ops: seq<At>, h: Hash)
    requires HashesWithin(p, q) && SpentHash(p, q, h) && Sound(q.resets) && FreshTokens(q, ops)
    ensures forall i :: 0 <= i < |ops| && ops[i].op.Reset? && ops[i].op.token == h ==>
      Run(p, ops, true).1[i] == Answered(Unavailable)
    decreases |ops|
  {
    if ops != [] {
      StepKeepsSpent(p, q, ops[0], h);
      StepKeepsWithin(p, q, ops[0]);
      StepKeepsSound(q, ops[0], false);
      SpentHashForEver(Step(p, ops[0], true).0, Step(q, ops[0], false).0, ops[1..], h);
    }
  }

  /** An accepted token is spent at once. */
  lemma AcceptanceSpends(p: Db, q: Db, a: At)
    requires HashesWithin(p, q) && Sound(p.resets) && Sound(q.resets) && a.op.Reset? && Succeeds(Step(p, a, true).1)
    ensures SpentHash(Step(p, a, true).0, Step(q, a, false).0, a.op.token)
  {
    var id := FindConsumable(p.resets, a.op.token, a.time).value;
    assert p.resets.rows[id].tokenHash == a.op.token;
    HashStaysTaken(q, a, a.op.token);
  }

  lemma {:induction false} AcceptedOnce(p: Db, q: Db, ops: seq<At>, i: nat, j: nat)
    requires HashesWithin(p, q) && Sound(p.resets) && Sound(q.resets) && FreshTokens(q, ops) && i < j < |ops|
    requires ops[i].op.Reset? && ops[j].op.Reset? && ops[i].op.token == ops[j].op.token
    requires Succeeds(Run(p, ops, true).1[i])
    ensures Run(p, ops, true).1[j] == Answered(Unavailable)
    decreases |ops|
  {
    var p', q' := Step(p, ops[0], true).0, Step(q, ops[0], false).0;
    StepKeepsWithin(p, q, ops[0]);
    StepKeepsSound(p, ops[0], true);
    StepKeepsSound(q, ops[0], false);
    if i > 0 {
      AcceptedOnce(p', q', ops[1..], i - 1, j - 1);
    } else {
      AcceptanceSpends(p, q, ops[0]);
      SpentHashForEver(p', q', ops[1..], ops[0].op.token);
    }
  }

  /** Over every run, with any purges and any clocks, a token is accepted at most once. */
  lemma SingleUse(db: Db, ops: seq<At>, i: nat, j: nat)
    requires Sound(db.resets) && FreshTokens(db, ops) && i < j < |ops|
    requires ops[i].op.Reset? && ops[j].op.Reset? && ops[i].op.token == ops[j].op.token
    requires Succeeds(Run(db, ops, true).1[i])
    ensures Run(db, ops, true).1[j] == Answered(Unavailable)
  {
    AcceptedOnce(db, db, ops, i, j);
  }

  /** No token has been requested yet. */
  lemma StartIsSound(users: Users, sessions: Table)
    ensures var db := Db(users, sessions, Resets(map[], 1));
      Sound(db.resets) && forall h :: !ResetHashTaken(db.resets, h)
  {
  }

  /**
   Why the clock must not go back: purging at `before` changes the answer to a reset at `at` exactly when the token is
   pending and expires after `at` but not after `before`.
   */
  lemma PurgeVisibleExactly(db: Db, id: nat, passwordHash: string, before: Time, at: Time)
    requires Sound(db.resets) && id in db.resets.rows
    ensures var token := db.resets.rows[id];
      var purged := db.(resets := PurgeExpired(db.resets, before));
      ResetPassword(purged, token.tokenHash, passwordHash, at, at).1 !=
      ResetPassword(db, token.tokenHash, passwordHash, at, at).1
      <==> token.usedAt.None? && at < token.expiresAt <= before
  {
    var purged := PurgeExpired(db.resets, before);
    var token := db.resets.rows[id];
    assert Consumable(db.resets, id, token.tokenHash, at) <==> token.usedAt.None? && at < token.expiresAt;
    assert Consumable(purged, id, token.tokenHash, at) <==>
      token.usedAt.None? && at < token.expiresAt && before < token.expiresAt;
    assert forall k ::
        Consumable(db.resets, k, token.tokenHash, at) || Consumable(purged, k, token.tokenHash, at) ==> k == id;
  }
}

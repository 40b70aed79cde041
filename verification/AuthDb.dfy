/**
 The authentication tables together, and the transactions AuthStore runs over them. A transaction either applies all
 of its writes or leaves every table as it was.
 */
module AuthDb {
  import opened Prelude
  import opened SessionTable

  datatype Provider = PasswordProvider | GoogleProvider

  datatype User = User(
    email: string,
    passwordHash: Option<string>,
    provider: Provider,
    googleSub: Option<string>,
    emailVerifiedAt: Option<Time>,
    disabledAt: Option<Time>)

  datatype Users = Users(rows: map<nat, User>, nextId: nat)

  datatype ResetToken = ResetToken(userId: nat, tokenHash: Hash, expiresAt: Time, usedAt: Option<Time>)

  datatype Resets = Resets(rows: map<nat, ResetToken>, nextId: nat)

  datatype Db = Db(users: Users, sessions: Table, resets: Resets)

  // ---------------------------------------------------------------- users

  predicate EmailTaken(users: Users, email: string) {
    exists id :: id in users.rows && users.rows[id].email == email
  }

  predicate SubTaken(users: Users, sub: string) {
    exists id :: id in users.rows && users.rows[id].googleSub == Some(sub)
  }

  /** A null google_sub never conflicts. */
  predicate Conflicts(users: Users, user: User) {
    EmailTaken(users, user.email) || (user.googleSub.Some? && SubTaken(users, user.googleSub.value))
  }

  /** The credentials create_user asks of each provider. */
  predicate Complete(user: User) {
    match user.provider
    case PasswordProvider => user.passwordHash.Some?
    case GoogleProvider => user.googleSub.Some?
  }

  function InsertUser(users: Users, user: User): Users {
    Users(users.rows[users.nextId := user], users.nextId + 1)
  }

  predicate UsersUnique(users: Users) {
    && (forall i :: i in users.rows ==> i < users.nextId)
    && (forall i, j :: i in users.rows && j in users.rows && users.rows[i].email == users.rows[j].email ==> i == j)
    && (forall i, j ::
          i in users.rows && j in users.rows && users.rows[i].googleSub.Some? &&
          users.rows[i].googleSub == users.rows[j].googleSub
          ==> i == j)
  }

  lemma InsertKeepsUsersUnique(users: Users, user: User)
    requires UsersUnique(users) && !Conflicts(users, user)
    ensures UsersUnique(InsertUser(users, user))
  {
  }

  // ---------------------------------------------------------------- a user with its first session

  datatype Creation = Created(userId: nat) | UserConflict | SessionConflict | Incomplete

  function CreateUserWithSession(db: Db, user: User, h: Hash, f: FamilyId, expiresAt: Time, now: Time)
    : (Db, Creation)
  {
    if !Complete(user) then (db, Incomplete)
    else if Conflicts(db.users, user) then (db, UserConflict)
    else if HashTaken(db.sessions, h) then (db, SessionConflict)
    else
      var id := db.users.nextId;
      (db.(users := InsertUser(db.users, user), sessions := Insert(db.sessions, NewRow(id, h, f, expiresAt, now))),
       Created(id))
  }

  // ---------------------------------------------------------------- password reset

  predicate ResetHashTaken(resets: Resets, h: Hash) {
    exists id :: id in resets.rows && resets.rows[id].tokenHash == h
  }

  /** The row the guarded UPDATE of consume_token matches. */
  predicate Consumable(resets: Resets, id: nat, h: Hash, at: Time) {
    && id in resets.rows
    && resets.rows[id].tokenHash == h && resets.rows[id].usedAt.None? && resets.rows[id].expiresAt > at
  }

  ghost function FindConsumable(resets: Resets, h: Hash, at: Time): (r: Option<nat>)
    ensures r.Some? ==> Consumable(resets, r.value, h, at)
    ensures r.None? ==> forall id :: !Consumable(resets, id, h, at)
  {
    if exists id :: Consumable(resets, id, h, at) then
      var id :| Consumable(resets, id, h, at);
      Some(id)
    else
      None
  }

  function RevokePending(resets: Resets, userId: nat, at: Time): Resets {
    resets.(rows := map id | id in resets.rows ::
      if resets.rows[id].userId == userId && resets.rows[id].usedAt.None?
      then resets.rows[id].(usedAt := Some(at)) else resets.rows[id])
  }

  function InsertReset(resets: Resets, token: ResetToken): Resets {
    Resets(resets.rows[resets.nextId := token], resets.nextId + 1)
  }

  function MarkUsed(resets: Resets, id: nat, at: Time): Resets
    requires id in resets.rows
  {
    resets.(rows := resets.rows[id := resets.rows[id].(usedAt := Some(at))])
  }

  function PurgeExpired(resets: Resets, before: Time): Resets {
    resets.(rows := map id | id in resets.rows && resets.rows[id].expiresAt > before :: resets.rows[id])
  }

  function SetPassword(users: Users, userId: nat, passwordHash: string): Users
    requires userId in users.rows
  {
    users.(rows := users.rows[userId := users.rows[userId].(passwordHash := Some(passwordHash))])
  }

  /** Replaces the pending tokens of a user by one new token. */
  function RequestReset(db: Db, userId: nat, h: Hash, expiresAt: Time, at: Time): (Db, bool) {
    if expiresAt <= at || userId !in db.users.rows || ResetHashTaken(db.resets, h) then (db, false)
    else
      (db.(resets := InsertReset(RevokePending(db.resets, userId, at), ResetToken(userId, h, expiresAt, None))), true)
  }

  datatype ResetOutcome = PasswordReset(userId: nat) | Unavailable | ResetFailed

  /** Consumes the token, installs the new password hash and revokes the user's sessions, or changes nothing. */
  ghost function ResetPassword(db: Db, h: Hash, passwordHash: string, at: Time, now: Time): (Db, ResetOutcome) {
    match FindConsumable(db.resets, h, at)
    case None => (db, Unavailable)
    case Some(id) =>
      var userId := db.resets.rows[id].userId;
      if userId !in db.users.rows then (db, ResetFailed)
      else
        (Db(SetPassword(db.users, userId, passwordHash), Revoke(db.sessions, OfUser(userId), now),
            MarkUsed(db.resets, id, at)),
         PasswordReset(userId))
  }
}

/**
 Any number of Google logins at once, each advancing by one store call at a time, while other transactions change the
 tables in between. Only the unique google_sub column and the transaction around the two inserts keep them apart.
 */
module GoogleLogin {
  import opened Prelude
  import opened SessionTable
  import opened AuthDb

  /** A login with a verified identity and the fresh token it drew. */
  datatype Login = Login(sub: string, email: string, token: Hash, familyId: FamilyId, pc: Pc)

  datatype Pc =
    | LookingUpSub
    | LookingUpEmail
    | CreatingUser
    | ResolvingBySub
    | ResolvingByEmail
    | OpeningSession(userId: nat)
    | Finished(result: Result)

  datatype Result = LoggedIn(userId: nat) | Disabled | LinkRequired | Failed

  /** `created` counts, per subject, the users the logins have inserted. */
  datatype State = State(db: Db, logins: map<nat, Login>, created: multiset<string>)

  /**
   How a call can go wrong: the user insert fails, the transaction fails, or it commits and then reports failure. A
   lookup that goes wrong raises.
   */
  datatype Fault = NoFault | InsertFails | FailsBeforeCommit | FailsAfterCommit

  function GoogleUser(login: Login, now: Time): User {
    User(login.email, None, GoogleProvider, Some(login.sub), Some(now), None)
  }

  ghost function FindBySub(users: Users, sub: string): (r: Option<nat>)
    ensures r.Some? ==> r.value in users.rows && users.rows[r.value].googleSub == Some(sub)
    ensures r.None? <==> !SubTaken(users, sub)
  {
    if SubTaken(users, sub) then
      var id :| id in users.rows && users.rows[id].googleSub == Some(sub);
      Some(id)
    else
      None
  }

  /** Where a login goes once it has found a user of its subject. */
  function Accepted(users: Users, userId: nat): Pc
    requires userId in users.rows
  {
    if users.rows[userId].disabledAt.Some? then Finished(Disabled) else OpeningSession(userId)
  }

  /** One store call of one login: the new tables, where the login goes, and whether it inserted a user. */
  ghost function Advance(db: Db, login: Login, fault: Fault, expiresAt: Time, now: Time): (Db, Pc, bool) {
    match login.pc
    case LookingUpSub =>
      var found := FindBySub(db.users, login.sub);
      if !fault.NoFault? then (db, Finished(Failed), false)
      else (db, if found.Some? then Accepted(db.users, found.value) else LookingUpEmail, false)
    case LookingUpEmail =>
      if !fault.NoFault? then (db, Finished(Failed), false)
      else (db, if EmailTaken(db.users, login.email) then Finished(LinkRequired) else CreatingUser, false)
    case CreatingUser =>
      var (db', r) := CreateUserWithSession(db, GoogleUser(login, now), login.token, login.familyId, expiresAt, now);
      if fault.InsertFails? then (db, ResolvingBySub, false)
      else if fault.FailsBeforeCommit? then (db, Finished(Failed), false)
      else if r.UserConflict? || r.Incomplete? then (db, ResolvingBySub, false)
      else if r.SessionConflict? then (db, Finished(Failed), false)
      else if fault.FailsAfterCommit? then (db', Finished(Failed), true)
      else (db', Finished(LoggedIn(r.userId)), true)
    case ResolvingBySub =>
      var found := FindBySub(db.users, login.sub);
      if !fault.NoFault? then (db, Finished(Failed), false)
      else (db, if found.Some? then Accepted(db.users, found.value) else ResolvingByEmail, false)
    case ResolvingByEmail =>
      var taken := EmailTaken(db.users, login.email);
      (db, Finished(if fault.NoFault? && taken then LinkRequired else Failed), false)
    case OpeningSession(u) =>
      var (t, ok) := Create(db.sessions, db.users.rows.Keys, u, login.token, login.familyId, expiresAt, now);
      if fault.NoFault? then (db.(sessions := t), Finished(if ok then LoggedIn(u) else Failed), false)
      else if fault.FailsAfterCommit? then (db.(sessions := t), Finished(Failed), false)
      else (db, Finished(Failed), false)
    case Finished(_) => (db, login.pc, false)
  }

  /**
   Any transaction of the rest of the system: it removes nothing, never touches an email, a google_sub or the owner and
   digest of a session, and creates no Google user.
   */
  predicate Elsewhere(db: Db, db': Db) {
    && UsersUnique(db'.users)
    && (forall id :: id in db.users.rows ==>
          && id in db'.users.rows
          && db'.users.rows[id].googleSub == db.users.rows[id].googleSub
          && db'.users.rows[id].email == db.users.rows[id].email)
    && (forall id :: id in db'.users.rows && id !in db.users.rows ==> db'.users.rows[id].googleSub.None?)
    && (forall s :: s in db.sessions.rows ==>
          && s in db'.sessions.rows
          && db'.sessions.rows[s].userId == db.sessions.rows[s].userId
          && db'.sessions.rows[s].tokenHash == db.sessions.rows[s].tokenHash)
    && (forall s :: s in db'.sessions.rows ==> s < db'.sessions.nextId)
  }

  datatype Move =
    | Arrive(who: nat, sub: string, email: string, token: Hash, familyId: FamilyId)
    | Go(who: nat, fault: Fault, expiresAt: Time, now: Time)
    | Other(db: Db)

  predicate Enabled(s: State, move: Move) {
    match move
    case Arrive(who, _, _, _, _) => who !in s.logins
    case Go(who, _, _, _) => who in s.logins
    case Other(db') => Elsewhere(s.db, db')
  }

  ghost function Apply(s: State, move: Move): State
    requires Enabled(s, move)
  {
    match move
    case Arrive(who, sub, email, token, f) => s.(logins := s.logins[who := Login(sub, email, token, f, LookingUpSub)])
    case Go(who, fault, expiresAt, now) =>
      var login := s.logins[who];
      var (db', pc, inserted) := Advance(s.db, login, fault, expiresAt, now);
      State(db', s.logins[who := login.(pc := pc)], if inserted then s.created + multiset{login.sub} else s.created)
    case Other(db') => s.(db := db')
  }

  ghost predicate Feasible(s: State, moves: seq<Move>)
    decreases |moves|
  {
    moves == [] || (Enabled(s, moves[0]) && Feasible(Apply(s, moves[0]), moves[1..]))
  }

  ghost function Run(s: State, moves: seq<Move>): State
    requires Feasible(s, moves)
    decreases |moves|
  {
    if moves == [] then s else Run(Apply(s, moves[0]), moves[1..])
  }

  // ---------------------------------------------------------------- invariant

  predicate HasSession(db: Db, userId: nat) {
    exists s :: s in db.sessions.rows && db.sessions.rows[s].userId == userId
  }

  /** A session of this user with this token. */
  predicate Opened(db: Db, userId: nat, token: Hash) {
    exists s :: s in db.sessions.rows && db.sessions.rows[s].userId == userId && db.sessions.rows[s].tokenHash == token
  }

  predicate OfSubject(users: Users, userId: nat, sub: string) {
    userId in users.rows && users.rows[userId].googleSub == Some(sub)
  }

  /** The user a login has settled on carries its subject; a finished one has its own session. */
  predicate Faithful(db: Db, login: Login) {
    match login.pc
    case OpeningSession(u) => OfSubject(db.users, u, login.sub)
    case Finished(LoggedIn(u)) => OfSubject(db.users, u, login.sub) && Opened(db, u, login.token)
    case _ => true
  }

  predicate Consistent(db: Db) {
    && UsersUnique(db.users)
    && (forall s :: s in db.sessions.rows ==> s < db.sessions.nextId)
    && (forall id {:trigger HasSession(db, id)} ::
          id in db.users.rows && db.users.rows[id].googleSub.Some? ==> HasSession(db, id))
  }

  ghost predicate Invariant(s: State) {
    && Consistent(s.db)
    && (forall who {:trigger Faithful(s.db, s.logins[who])} :: who in s.logins ==> Faithful(s.db, s.logins[who]))
    && (forall sub :: s.created[sub] <= 1)
    && (forall sub :: sub in s.created ==> SubTaken(s.db.users, sub))
  }

  /** Tables only grow as far as the logins can see. */
  predicate Grows(db: Db, db': Db) {
    && (forall id :: id in db.users.rows ==>
          id in db'.users.rows && db'.users.rows[id].googleSub == db.users.rows[id].googleSub)
    && (forall s :: s in db.sessions.rows ==>
          && s in db'.sessions.rows
          && db'.sessions.rows[s].userId == db.sessions.rows[s].userId
          && db'.sessions.rows[s].tokenHash == db.sessions.rows[s].tokenHash)
  }

  lemma GrowthKeepsSession(db: Db, db': Db, userId: nat)
    requires Grows(db, db') && HasSession(db, userId)
    ensures HasSession(db', userId)
  {
  }

  lemma GrowthKeepsFaithful(db: Db, db': Db, login: Login)
    requires Grows(db, db') && Faithful(db, login)
    ensures Faithful(db', login)
  {
  }

  lemma GrowthKeepsSubTaken(db: Db, db': Db, sub: string)
    requires Grows(db, db') && SubTaken(db.users, sub)
    ensures SubTaken(db'.users, sub)
  {
  }

  lemma CreationIsFaithful(db: Db, login: Login, expiresAt: Time, now: Time)
    requires Consistent(db)
    requires CreateUserWithSession(db, GoogleUser(login, now), login.token, login.familyId, expiresAt, now).1.Created?
    ensures var (db', r) :=
              CreateUserWithSession(db, GoogleUser(login, now), login.token, login.familyId, expiresAt, now);
      && Consistent(db') && Grows(db, db')
      && OfSubject(db'.users, r.userId, login.sub) && Opened(db', r.userId, login.token)
      && !SubTaken(db.users, login.sub) && SubTaken(db'.users, login.sub)
  {
    var (db', r) := CreateUserWithSession(db, GoogleUser(login, now), login.token, login.familyId, expiresAt, now);
    InsertKeepsUsersUnique(db.users, GoogleUser(login, now));
    var s := db.sessions.nextId;
    assert s in db'.sessions.rows;
    assert db'.sessions.rows[s].userId == r.userId && db'.sessions.rows[s].tokenHash == login.token;
    forall id | id in db'.users.rows && db'.users.rows[id].googleSub.Some? ensures HasSession(db', id) {
      if id != r.userId {
        assert HasSession(db, id);
        GrowthKeepsSession(db, db', id);
      }
    }
  }

  lemma OpeningIsFaithful(db: Db, u: nat, login: Login, expiresAt: Time, now: Time)
    requires Consistent(db)
    ensures var (t, ok) := Create(db.sessions, db.users.rows.Keys, u, login.token, login.familyId, expiresAt, now);
      var db' := db.(sessions := t);
      Consistent(db') && Grows(db, db') && (ok ==> Opened(db', u, login.token))
  {
    var (t, ok) := Create(db.sessions, db.users.rows.Keys, u, login.token, login.familyId, expiresAt, now);
    var db' := db.(sessions := t);
    if ok {
      assert db.sessions.nextId in t.rows && t.rows[db.sessions.nextId].userId == u;
    }
    forall id | id in db'.users.rows && db'.users.rows[id].googleSub.Some? ensures HasSession(db', id) {
      assert HasSession(db, id);
      GrowthKeepsSession(db, db', id);
    }
  }

  lemma LookupsAreFaithful(db: Db, login: Login, fault: Fault, expiresAt: Time, now: Time)
    requires Consistent(db) && Faithful(db, login) && !login.pc.CreatingUser? && !login.pc.OpeningSession?
    ensures var (db', pc, inserted) := Advance(db, login, fault, expiresAt, now);
      db' == db && !inserted && Faithful(db, login.(pc := pc))
  {
  }

  /** One call keeps users and sessions consistent, and settles only on a user of the verified subject. */
  lemma AdvanceIsFaithful(db: Db, login: Login, fault: Fault, expiresAt: Time, now: Time)
    requires Consistent(db) && Faithful(db, login)
    ensures var (db', pc, inserted) := Advance(db, login, fault, expiresAt, now);
      && Consistent(db') && Grows(db, db') && Faithful(db', login.(pc := pc))
      && (inserted ==> !SubTaken(db.users, login.sub) && SubTaken(db'.users, login.sub))
  {
    if login.pc.CreatingUser? {
      if CreateUserWithSession(db, GoogleUser(login, now), login.token, login.familyId, expiresAt, now).1.Created? {
        CreationIsFaithful(db, login, expiresAt, now);
      }
    } else if login.pc.OpeningSession? {
      OpeningIsFaithful(db, login.pc.userId, login, expiresAt, now);
    } else {
      LookupsAreFaithful(db, login, fault, expiresAt, now);
    }
  }

  lemma GrowthKeepsInvariant(s: State, db': Db)
    requires Invariant(s) && Consistent(db') && Grows(s.db, db')
    ensures Invariant(s.(db := db'))
  {
    forall who | who in s.logins ensures Faithful(db', s.logins[who]) {
      assert Faithful(s.db, s.logins[who]);
      GrowthKeepsFaithful(s.db, db', s.logins[who]);
    }
    forall sub | sub in s.created ensures SubTaken(db'.users, sub) {
      GrowthKeepsSubTaken(s.db, db', sub);
    }
  }

  lemma ElsewhereKeepsConsistent(db: Db, db': Db)
    requires Consistent(db) && Elsewhere(db, db')
    ensures Consistent(db') && Grows(db, db')
  {
    forall id | id in db'.users.rows && db'.users.rows[id].googleSub.Some? ensures HasSession(db', id) {
      assert HasSession(db, id);
      GrowthKeepsSession(db, db', id);
    }
  }

  lemma MoveKeepsInvariant(s: State, move: Move)
    requires Invariant(s) && Enabled(s, move)
    ensures Invariant(Apply(s, move))
  {
    var s' := Apply(s, move);
    match move
    case Arrive(who, _, _, _, _) =>
      forall w | w in s'.logins ensures Faithful(s'.db, s'.logins[w]) {
        if w != who { assert Faithful(s.db, s.logins[w]); }
      }
    case Other(db') =>
      ElsewhereKeepsConsistent(s.db, db');
      GrowthKeepsInvariant(s, db');
    case Go(who, fault, expiresAt, now) =>
      var login := s.logins[who];
      assert Faithful(s.db, login);
      AdvanceIsFaithful(s.db, login, fault, expiresAt, now);
      GrowthKeepsInvariant(s, s'.db);
      forall w | w in s'.logins ensures Faithful(s'.db, s'.logins[w]) {
        if w != who { assert Faithful(s.(db := s'.db).db, s.logins[w]); }
      }
  }

  /** Every reachable state is consistent. */
  lemma {:induction false} RunKeepsInvariant(s: State, moves: seq<Move>)
    requires Invariant(s) && Feasible(s, moves)
    ensures Invariant(Run(s, moves))
    decreases |moves|
  {
    if moves != [] {
      MoveKeepsInvariant(s, moves[0]);
      RunKeepsInvariant(Apply(s, moves[0]), moves[1..]);
    }
  }

  predicate Succeeded(s: State, who: nat) {
    who in s.logins && s.logins[who].pc.Finished? && s.logins[who].pc.result.LoggedIn?
  }

  /**
   Whatever the interleaving: at most one user is ever inserted for a subject; every login that succeeds returns a user
   with its own subject and holds a session of that user; two successes for one subject return the same user; and no
   Google user exists without a session.
   */
  lemma LoginsAgree(s: State, moves: seq<Move>, a: nat, b: nat)
    requires Invariant(s) && Feasible(s, moves)
    ensures var s' := Run(s, moves);
      && (forall sub :: s'.created[sub] <= 1)
      && (forall id :: id in s'.db.users.rows && s'.db.users.rows[id].googleSub.Some? ==> HasSession(s'.db, id))
      && (Succeeded(s', a) ==>
            var u := s'.logins[a].pc.result.userId;
            && OfSubject(s'.db.users, u, s'.logins[a].sub)
            && Opened(s'.db, u, s'.logins[a].token)
            && (Succeeded(s', b) && s'.logins[b].sub == s'.logins[a].sub ==> s'.logins[b].pc.result.userId == u))
  {
    RunKeepsInvariant(s, moves);
    var s' := Run(s, moves);
    if a in s'.logins { assert Faithful(s'.db, s'.logins[a]); }
    if b in s'.logins { assert Faithful(s'.db, s'.logins[b]); }
  }

  /** Tables without Google users and without logins are a consistent start. */
  lemma CleanStart(db: Db)
    requires UsersUnique(db.users) && (forall s :: s in db.sessions.rows ==> s < db.sessions.nextId)
    requires forall id :: id in db.users.rows ==> db.users.rows[id].googleSub.None?
    ensures Invariant(State(db, map[], multiset{}))
  {
  }
}

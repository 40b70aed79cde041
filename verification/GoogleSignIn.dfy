/**
 The Google login as the sequential code it is, on the store; what it does is what its login does in the machine when
 left alone.
 */
module GoogleSignIn {
  import opened Prelude
  import opened AuthDb
  import opened GoogleLogin
  import SessionTable
  import AuthStore

  /** A login left alone for the calls from `i` on. */
  ghost function Alone(db: Db, login: Login, faults: seq<Fault>, expiresAt: Time, now: Time, i: nat): (Db, Pc)
    requires i <= |faults|
    decreases |faults| - i
  {
    if i == |faults| then (db, login.pc)
    else
      var (db', pc, _) := Advance(db, login, faults[i], expiresAt, now);
      Alone(db', login.(pc := pc), faults, expiresAt, now, i + 1)
  }

  lemma {:induction false} FinishedStays(db: Db, login: Login, faults: seq<Fault>, expiresAt: Time, now: Time, i: nat)
    requires login.pc.Finished? && i <= |faults|
    ensures Alone(db, login, faults, expiresAt, now, i) == (db, login.pc)
    decreases |faults| - i
  {
    if i < |faults| {
      FinishedStays(db, login, faults, expiresAt, now, i + 1);
    }
  }

  // ---------------------------------------------------------------- what a login comes to

  /** The user of a subject, whatever else there is. */
  lemma SubjectIs(users: Users, u: nat, sub: string)
    requires UsersUnique(users) && OfSubject(users, u, sub)
    ensures FindBySub(users, sub) == Some(u)
  {
  }

  /** A lookup that finds its user disabled ends the login and changes nothing; an enabled one gets its session. */
  lemma DisabledIsRefused(db: Db, login: Login, u: nat, fault: Fault, expiresAt: Time, now: Time)
    requires UsersUnique(db.users) && OfSubject(db.users, u, login.sub)
    requires login.pc == LookingUpSub || login.pc == ResolvingBySub
    ensures Advance(db, login, fault, expiresAt, now) ==
      (db,
       if !fault.NoFault? then Finished(Failed)
       else if db.users.rows[u].disabledAt.Some? then Finished(Disabled)
       else OpeningSession(u),
       false)
  {
    SubjectIs(db.users, u, login.sub);
  }

  /** The session a login opens. */
  function Session(login: Login, u: nat, expiresAt: Time, now: Time): SessionTable.Session {
    SessionTable.Session(u, login.token, login.familyId, expiresAt, now, None, None)
  }

  /** A call that took effect, whether or not its caller was told. */
  predicate TookEffect(fault: Fault) {
    fault.NoFault? || fault.FailsAfterCommit?
  }

  /** `db'` has this session on top of `db`. */
  predicate WithSession(db: Db, db': Db, session: SessionTable.Session) {
    && db'.sessions.rows == db.sessions.rows[db.sessions.nextId := session]
    && db'.sessions.nextId == db.sessions.nextId + 1
  }

  lemma {:induction false} SessionOutcome(
    db: Db, login: Login, u: nat, faults: seq<Fault>, expiresAt: Time, now: Time, i: nat)
    requires u in db.users.rows && i < |faults|
    ensures var (db', pc) := Alone(db, login.(pc := OpeningSession(u)), faults, expiresAt, now, i);
      var free := !SessionTable.HashTaken(db.sessions, login.token);
      && pc == Finished(if faults[i].NoFault? && free then LoggedIn(u) else Failed)
      && db'.users == db.users && db'.resets == db.resets
      && (if TookEffect(faults[i]) && free then WithSession(db, db', Session(login, u, expiresAt, now)) else db' == db)
  {
    var opening := login.(pc := OpeningSession(u));
    var (db1, pc1, inserted) := Advance(db, opening, faults[i], expiresAt, now);
    FinishedStays(db1, opening.(pc := pc1), faults, expiresAt, now, i + 1);
  }

  /**
   A login whose subject has a user already, from either lookup: a disabled user is refused with nothing changed, an
   enabled one gets a session exactly when nothing fails and the token is new.
   */
  lemma {:induction false} ReturningLogin(
    db: Db, login: Login, u: nat, faults: seq<Fault>, expiresAt: Time, now: Time, i: nat)
    requires UsersUnique(db.users) && OfSubject(db.users, u, login.sub) && i + 1 < |faults|
    requires login.pc == LookingUpSub || login.pc == ResolvingBySub
    ensures var (db', pc) := Alone(db, login, faults, expiresAt, now, i);
      var disabled := db.users.rows[u].disabledAt.Some?;
      var free := !SessionTable.HashTaken(db.sessions, login.token);
      && (pc == Finished(Disabled) <==> faults[i].NoFault? && disabled)
      && (pc == Finished(LoggedIn(u)) <==> faults[i].NoFault? && !disabled && faults[i + 1].NoFault? && free)
      && pc in {Finished(Disabled), Finished(LoggedIn(u)), Finished(Failed)}
      && db'.users == db.users && db'.resets == db.resets
      && (if faults[i].NoFault? && !disabled && TookEffect(faults[i + 1]) && free
          then WithSession(db, db', Session(login, u, expiresAt, now)) else db' == db)
  {
    DisabledIsRefused(db, login, u, faults[i], expiresAt, now);
    var pc1 := Advance(db, login, faults[i], expiresAt, now).1;
    if pc1.Finished? {
      FinishedStays(db, login.(pc := pc1), faults, expiresAt, now, i + 1);
    } else {
      SessionOutcome(db, login, u, faults, expiresAt, now, i + 1);
    }
  }

  /** A conflict over a subject without a user: never linked by email, and nothing changed. */
  lemma {:induction false} ConflictOutcome(
    db: Db, login: Login, faults: seq<Fault>, expiresAt: Time, now: Time, i: nat)
    requires !SubTaken(db.users, login.sub) && i + 1 < |faults| && login.pc == ResolvingBySub
    ensures Alone(db, login, faults, expiresAt, now, i) ==
      (db, Finished(if faults[i].NoFault? && faults[i + 1].NoFault? && EmailTaken(db.users, login.email)
                    then LinkRequired else Failed))
  {
    var (db1, pc1, _) := Advance(db, login, faults[i], expiresAt, now);
    if pc1.Finished? {
      FinishedStays(db, login.(pc := pc1), faults, expiresAt, now, i + 1);
    } else {
      var (db2, pc2, _) := Advance(db, login.(pc := pc1), faults[i + 1], expiresAt, now);
      assert Alone(db, login.(pc := pc1), faults, expiresAt, now, i + 1) ==
             Alone(db2, login.(pc := pc2), faults, expiresAt, now, i + 2);
      FinishedStays(db2, login.(pc := pc2), faults, expiresAt, now, i + 2);
    }
  }

  /** The user and the session a first login leaves, column by column. */
  predicate Registered(db: Db, db': Db, login: Login, expiresAt: Time, now: Time) {
    var u := db.users.nextId;
    && db'.users.rows ==
       db.users.rows[u := User(login.email, None, GoogleProvider, Some(login.sub), Some(now), None)]
    && db'.users.nextId == u + 1 && db'.resets == db.resets
    && WithSession(db, db', Session(login, u, expiresAt, now))
  }

  lemma {:induction false} CreationOutcome(
    db: Db, login: Login, faults: seq<Fault>, expiresAt: Time, now: Time)
    requires login.pc == CreatingUser && |faults| == 5
    requires !SubTaken(db.users, login.sub) && !EmailTaken(db.users, login.email)
    ensures var (db', pc) := Alone(db, login, faults, expiresAt, now, 2);
      var free := !SessionTable.HashTaken(db.sessions, login.token);
      && pc == Finished(if faults[2].NoFault? && free then LoggedIn(db.users.nextId) else Failed)
      && (if TookEffect(faults[2]) && free then Registered(db, db', login, expiresAt, now) else db' == db)
  {
    var (db1, pc1, _) := Advance(db, login, faults[2], expiresAt, now);
    if pc1.Finished? {
      FinishedStays(db1, login.(pc := pc1), faults, expiresAt, now, 3);
    } else {
      ConflictOutcome(db, login.(pc := pc1), faults, expiresAt, now, 3);
    }
  }

  /**
   The first login of a subject: it must be linked by hand exactly when somebody has its email; otherwise the user and a
   session are created, and it succeeds exactly when nothing fails and the token is new.
   */
  lemma {:induction false} FirstLogin(db: Db, login: Login, faults: seq<Fault>, expiresAt: Time, now: Time)
    requires !SubTaken(db.users, login.sub) && |faults| == 5 && login.pc == LookingUpSub
    ensures var (db', pc) := Alone(db, login, faults, expiresAt, now, 0);
      var looked, linked := faults[0].NoFault? && faults[1].NoFault?, EmailTaken(db.users, login.email);
      var free := !SessionTable.HashTaken(db.sessions, login.token);
      && (pc == Finished(LinkRequired) <==> looked && linked)
      && (pc == Finished(LoggedIn(db.users.nextId)) <==> looked && !linked && faults[2].NoFault? && free)
      && pc in {Finished(LinkRequired), Finished(LoggedIn(db.users.nextId)), Finished(Failed)}
      && (if looked && !linked && TookEffect(faults[2]) && free then Registered(db, db', login, expiresAt, now)
          else db' == db)
  {
    var pc1 := Advance(db, login, faults[0], expiresAt, now).1;
    if pc1.Finished? {
      FinishedStays(db, login.(pc := pc1), faults, expiresAt, now, 1);
    } else {
      var pc2 := Advance(db, login.(pc := pc1), faults[1], expiresAt, now).1;
      assert Alone(db, login.(pc := pc1), faults, expiresAt, now, 1) ==
             Alone(db, login.(pc := pc2), faults, expiresAt, now, 2);
      if pc2.Finished? {
        FinishedStays(db, login.(pc := pc2), faults, expiresAt, now, 2);
      } else {
        CreationOutcome(db, login.(pc := pc2), faults, expiresAt, now);
      }
    }
  }

  // ---------------------------------------------------------------- disabled users, over every interleaving

  predicate IsDisabled(s: State, u: nat) {
    u in s.db.users.rows && s.db.users.rows[u].disabledAt.Some?
  }

  ghost predicate StaysDisabled(s: State, moves: seq<Move>, u: nat)
    requires Feasible(s, moves)
    decreases |moves|
  {
    IsDisabled(s, u) && (moves != [] ==> StaysDisabled(Apply(s, moves[0]), moves[1..], u))
  }

  predicate Enters(pc: Pc, u: nat) {
    pc == OpeningSession(u) || pc == Finished(LoggedIn(u))
  }

  /** No login has settled on this user. */
  predicate NobodyEnters(s: State, u: nat) {
    forall who :: who in s.logins ==> !Enters(s.logins[who].pc, u)
  }

  lemma {:induction false} OnlyEnabledEnter(db: Db, login: Login, fault: Fault, expiresAt: Time, now: Time, u: nat)
    requires UsersUnique(db.users) && u in db.users.rows && db.users.rows[u].disabledAt.Some?
    requires Enters(Advance(db, login, fault, expiresAt, now).1, u)
    ensures Enters(login.pc, u)
  {
  }

  lemma {:induction false} DisabledAdvance(s: State, move: Move, u: nat)
    requires UsersUnique(s.db.users) && Enabled(s, move) && IsDisabled(s, u) && NobodyEnters(s, u)
    ensures NobodyEnters(Apply(s, move), u)
  {
    if move.Go? && Enters(Apply(s, move).logins[move.who].pc, u) {
      OnlyEnabledEnter(s.db, s.logins[move.who], move.fault, move.expiresAt, move.now, u);
    }
  }

  /** While a user is disabled nobody who logs in with its subject gets in, whatever happens in between. */
  lemma {:induction false} DisabledStaysOut(s: State, moves: seq<Move>, u: nat)
    requires GoogleLogin.Invariant(s) && Feasible(s, moves) && StaysDisabled(s, moves, u) && NobodyEnters(s, u)
    ensures NobodyEnters(Run(s, moves), u)
    decreases |moves|
  {
    if moves != [] {
      MoveKeepsInvariant(s, moves[0]);
      DisabledAdvance(s, moves[0], u);
      DisabledStaysOut(Apply(s, moves[0]), moves[1..], u);
    }
  }

  /** One call of `login_with_google`, with how each of its store calls goes. */
  class SignIn {
    const store: AuthStore.Store
    const login: Login
    const faults: seq<Fault>
    const expiresAt: Time
    const now: Time

    constructor (store: AuthStore.Store, login: Login, faults: seq<Fault>, expiresAt: Time, now: Time)
      ensures this.store == store && this.login == login && this.faults == faults
      ensures this.expiresAt == expiresAt && this.now == now
    {
      this.store, this.login, this.faults, this.expiresAt, this.now := store, login, faults, expiresAt, now;
    }

    /** From `pc`, with the calls from `i` on, the login comes to this result. */
    ghost predicate ComesTo(db: Db, pc: Pc, i: nat, db': Db, result: Result) {
      i <= |faults| && Alone(db, login.(pc := pc), faults, expiresAt, now, i) == (db', Finished(result))
    }

    lemma OneCall(db: Db, pc: Pc, i: nat, db1: Db, pc1: Pc, inserted: bool, db': Db, result: Result)
      requires i < |faults| && Advance(db, login.(pc := pc), faults[i], expiresAt, now) == (db1, pc1, inserted)
      requires ComesTo(db1, pc1, i + 1, db', result)
      ensures ComesTo(db, pc, i, db', result)
    {
    }

    lemma LastCall(db: Db, pc: Pc, i: nat, db': Db, inserted: bool, result: Result)
      requires i < |faults|
      requires Advance(db, login.(pc := pc), faults[i], expiresAt, now) == (db', Finished(result), inserted)
      ensures ComesTo(db, pc, i, db', result)
    {
      FinishedStays(db', login.(pc := Finished(result)), faults, expiresAt, now, i + 1);
    }

    lemma FoundBySub(found: Option<nat>)
      requires store.Valid()
      requires found.None? <==> !SubTaken(store.users, login.sub)
      requires found.Some? ==>
                 found.value in store.users.rows && store.users.rows[found.value].googleSub == Some(login.sub)
      ensures found == FindBySub(store.users, login.sub)
    {
    }

    /** `_create_session_and_authentication_result`. */
    method OpenSession(userId: nat, i: nat) returns (result: Result)
      requires store.Valid() && i < |faults|
      modifies store
      ensures store.Valid()
      ensures ComesTo(old(store.State()), OpeningSession(userId), i, store.State(), result)
    {
      ghost var db := store.State();
      if faults[i].InsertFails? || faults[i].FailsBeforeCommit? {
        LastCall(db, OpeningSession(userId), i, db, false, Failed);
        return Failed;
      }
      var ok := store.CreateSession(userId, login.token, login.familyId, expiresAt, now);
      result := if ok && faults[i].NoFault? then LoggedIn(userId) else Failed;
      LastCall(db, OpeningSession(userId), i, store.State(), false, result);
    }

    /** A user of the verified subject was found. */
    method Accept(userId: nat, i: nat, ghost from: Pc) returns (result: Result)
      requires store.Valid() && i + 1 < |faults| && faults[i].NoFault? && userId in store.users.rows
      requires from == LookingUpSub || from == ResolvingBySub
      requires FindBySub(store.users, login.sub) == Some(userId)
      modifies store
      ensures store.Valid()
      ensures ComesTo(old(store.State()), from, i, store.State(), result)
    {
      ghost var db := store.State();
      if store.users.rows[userId].disabledAt.Some? {
        LastCall(db, from, i, db, false, Disabled);
        return Disabled;
      }
      result := OpenSession(userId, i + 1);
      OneCall(db, from, i, db, OpeningSession(userId), false, store.State(), result);
    }

    /** `_resolve_google_creation_conflict`. */
    method ResolveCreationConflict() returns (result: Result)
      requires store.Valid() && |faults| == 5
      modifies store
      ensures store.Valid()
      ensures ComesTo(old(store.State()), ResolvingBySub, 3, store.State(), result)
    {
      ghost var db := store.State();
      if !faults[3].NoFault? {
        LastCall(db, ResolvingBySub, 3, db, false, Failed);
        return Failed;
      }
      var found := store.GetUserByGoogleSub(login.sub);
      FoundBySub(found);
      if found.Some? {
        result := Accept(found.value, 3, ResolvingBySub);
        return;
      }
      var sameEmail := store.GetUserByEmail(login.email);
      result := if faults[4].NoFault? && sameEmail.Some? then LinkRequired else Failed;
      LastCall(db, ResolvingByEmail, 4, db, false, result);
      OneCall(db, ResolvingBySub, 3, db, ResolvingByEmail, false, db, result);
    }

    /** Creating the user with its first session; a UserStoreError may mean that another login was faster. */
    method CreateUser() returns (result: Result)
      requires store.Valid() && |faults| == 5
      modifies store
      ensures store.Valid()
      ensures ComesTo(old(store.State()), CreatingUser, 2, store.State(), result)
    {
      ghost var db := store.State();
      if faults[2].FailsBeforeCommit? {
        LastCall(db, CreatingUser, 2, db, false, Failed);
        return Failed;
      }
      var created := AuthDb.UserConflict;
      if !faults[2].InsertFails? {
        created := store.CreateUserWithSession(GoogleUser(login, now), login.token, login.familyId, expiresAt, now);
      }
      if created.UserConflict? || created.Incomplete? {
        result := ResolveCreationConflict();
        OneCall(db, CreatingUser, 2, db, ResolvingBySub, false, store.State(), result);
        return;
      }
      if created.SessionConflict? {
        LastCall(db, CreatingUser, 2, db, false, Failed);
        return Failed;
      }
      result := if faults[2].FailsAfterCommit? then Failed else LoggedIn(created.userId);
      LastCall(db, CreatingUser, 2, store.State(), true, result);
    }

    /** `login_with_google`, for a verified identity. */
    method LoginWithGoogle() returns (result: Result)
      requires store.Valid() && |faults| == 5
      modifies store
      ensures store.Valid()
      ensures ComesTo(old(store.State()), LookingUpSub, 0, store.State(), result)
    {
      ghost var db := store.State();
      if !faults[0].NoFault? {
        LastCall(db, LookingUpSub, 0, db, false, Failed);
        return Failed;
      }
      var found := store.GetUserByGoogleSub(login.sub);
      FoundBySub(found);
      if found.Some? {
        result := Accept(found.value, 0, LookingUpSub);
        return;
      }
      result := LoginByEmail();
      OneCall(db, LookingUpSub, 0, db, LookingUpEmail, false, store.State(), result);
    }

    method LoginByEmail() returns (result: Result)
      requires store.Valid() && |faults| == 5
      modifies store
      ensures store.Valid()
      ensures ComesTo(old(store.State()), LookingUpEmail, 1, store.State(), result)
    {
      ghost var db := store.State();
      if !faults[1].NoFault? {
        LastCall(db, LookingUpEmail, 1, db, false, Failed);
        return Failed;
      }
      var sameEmail := store.GetUserByEmail(login.email);
      if sameEmail.Some? {
        LastCall(db, LookingUpEmail, 1, db, false, LinkRequired);
        return LinkRequired;
      }
      result := CreateUser();
      OneCall(db, LookingUpEmail, 1, db, CreatingUser, false, store.State(), result);
    }
  }
}

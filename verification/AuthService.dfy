/** Refresh and logout as the authentication service performs them on the store. */
module AuthService {
  import opened Prelude
  import opened SessionTable
  import opened SessionSafety
  import opened AuthDb
  import opened AuthStore
  import AccessTokens

  datatype RefreshReply =
    | Tokens(userId: nat, refreshToken: Hash)
    | RefreshTokenInvalid
    | AccountDisabled
    | StoreError
    | TokensNotIssued

  /** What a rotation becomes for the caller: every refusal looks the same. */
  function ReplyTo(outcome: Outcome, users: Users, replacement: Hash): RefreshReply {
    match outcome
    case Rotated(_, u) =>
      if u in users.rows && users.rows[u].disabledAt.Some? then AccountDisabled else Tokens(u, replacement)
    case StoreFailed => StoreError
    case _ => RefreshTokenInvalid
  }

  /** A disabled account loses all its sessions in a second transaction. */
  function Settled(rotation: (Table, Outcome), users: Users, replacement: Hash, now: Time): Table {
    if ReplyTo(rotation.1, users, replacement).AccountDisabled? then Revoke(rotation.0, OfUser(rotation.1.userId), now)
    else rotation.0
  }

  /** The table a refresh leaves committed. */
  ghost function CommittedBy(
    t: Table, users: Users, current: Hash, replacement: Hash, expiresAt: Time, checkedAt: Time, now: Time): Table
  {
    Settled(Refresh(t, users.rows.Keys, current, replacement, expiresAt, checkedAt, now), users, replacement, now)
  }

  lemma RotatedUserExists(
    t: Table, users: set<nat>, current: Hash, replacement: Hash, expiresAt: Time, checkedAt: Time, now: Time)
    ensures var outcome := Refresh(t, users, current, replacement, expiresAt, checkedAt, now).1;
      outcome.Rotated? ==> outcome.userId in users
  {
  }

  /** When the access token of a refresh is signed, and when it is decoded again. */
  datatype Signing = Signing(jti: string, issued: Time, decoded: Time)

  /** The reply to a committed refresh that read the clock at `start`: the pair of tokens may still fail to be built. */
  function Completed(
    reply: RefreshReply, config: AccessTokens.Config, refreshTtl: int, start: Time, signing: Signing): RefreshReply
  {
    if !reply.Tokens? then reply
    else
      var pair :=
        AccessTokens.IssuePair(config, refreshTtl, reply.userId, signing.jti, start, signing.issued, signing.decoded);
      if pair.None? then TokensNotIssued else reply
  }

  function NewExpiry(start: Time, refreshTtl: int): Time {
    start + refreshTtl * AccessTokens.SECOND
  }

  class Service {
    const store: Store
    const config: AccessTokens.Config
    const refreshTtl: int

    constructor (store: Store, config: AccessTokens.Config, refreshTtl: int)
      ensures this.store == store && this.config == config && this.refreshTtl == refreshTtl
    {
      this.store, this.config, this.refreshTtl := store, config, refreshTtl;
    }

    /** Rotates the presented token; whatever is raised is raised after the transaction has committed. */
    method Refresh(presented: Hash, replacement: Hash, clock: Time, now: Time, signing: Signing)
      returns (reply: RefreshReply)
      requires store.Valid()
      modifies store`sessions
      ensures store.Valid()
      ensures store.sessions ==
        CommittedBy(old(store.sessions), store.users, presented, replacement, NewExpiry(clock, refreshTtl), clock, now)
      ensures reply ==
        Completed(
          ReplyTo(SessionTable.Refresh(old(store.sessions), store.users.rows.Keys, presented, replacement,
                                       NewExpiry(clock, refreshTtl), clock, now).1, store.users, replacement),
          config, refreshTtl, clock, signing)
    {
      var expiry := NewExpiry(clock, refreshTtl);
      ghost var rotation :=
        SessionTable.Refresh(store.sessions, store.users.rows.Keys, presented, replacement, expiry, clock, now);
      RotatedUserExists(store.sessions, store.users.rows.Keys, presented, replacement, expiry, clock, now);
      var outcome := store.RotateSessionByTokenHash(presented, replacement, expiry, clock, now);
      assert (store.sessions, outcome) == rotation;
      reply := Answer(outcome, replacement, now);
      assert store.sessions == Settled(rotation, store.users, replacement, now);
      if reply.Tokens? {
        var pair := AccessTokens.IssuePair(config, refreshTtl, reply.userId, signing.jti, clock, signing.issued,
                                           signing.decoded);
        if pair.None? {
          reply := TokensNotIssued;
        }
      }
    }

    /** The answer to a rotation outcome, with the second transaction of a disabled account. */
    method Answer(outcome: Outcome, replacement: Hash, now: Time) returns (reply: RefreshReply)
      requires store.Valid() && (outcome.Rotated? ==> outcome.userId in store.users.rows)
      modifies store`sessions
      ensures store.Valid()
      ensures store.sessions == Settled((old(store.sessions), outcome), store.users, replacement, now)
      ensures reply == ReplyTo(outcome, store.users, replacement)
    {
      if outcome.StoreFailed? {
        return StoreError;
      }
      if !outcome.Rotated? {
        return RefreshTokenInvalid;
      }
      if store.users.rows[outcome.userId].disabledAt.Some? {
        var _ := store.RevokeMatching(OfUser(outcome.userId), now);
        return AccountDisabled;
      }
      return Tokens(outcome.userId, replacement);
    }

    /** Revokes the family of the presented token, and says nothing about whether it was valid. */
    method Logout(presented: Hash, now: Time)
      requires store.Valid()
      modifies store`sessions
      ensures store.Valid()
      ensures store.sessions ==
        match Lookup(old(store.sessions), presented)
        case None => old(store.sessions)
        case Some(id) => Revoke(old(store.sessions), OfFamily(old(store.sessions).rows[id].familyId), now)
    {
      var found := store.GetSessionByTokenHash(presented);
      if found.Some? {
        var _ := store.RevokeMatching(OfFamily(store.sessions.rows[found.value].familyId), now);
      }
    }
  }

  /**
   The caller of a refused refresh sees only an error, yet the revocation it caused is committed: whatever runs later,
   the family of a reused token never rotates.
   */
  lemma RefusalStaysCommitted(
    t: Table, users: Users, current: Hash, replacement: Hash, expiresAt: Time, checkedAt: Time, now: Time,
    id: nat, later: seq<Timed>)
    requires Chained(t) && id in t.rows && SpentRow(t, id, current, t.rows[id].familyId)
    requires FreshFamilies(CommittedBy(t, users, current, replacement, expiresAt, checkedAt, now), later)
    ensures ReplyTo(Refresh(t, users.rows.Keys, current, replacement, expiresAt, checkedAt, now).1, users, replacement)
      == RefreshTokenInvalid
    ensures var answers := Run(CommittedBy(t, users, current, replacement, expiresAt, checkedAt, now), later).1;
      forall i :: 0 <= i < |later| && answers[i].Rotated? ==> answers[i].familyId != t.rows[id].familyId
  {
    var o := Timed(OpRefresh(current, replacement, expiresAt, checkedAt), users.rows.Keys, now);
    SpentTokenKills(t, o, id, t.rows[id].familyId);
    StepKeepsChained(t, o);
    DeadForEver(Step(t, o).0, later, t.rows[id].familyId);
  }

  /** A refresh that fails to issue its pair has rotated all the same: the presented token is spent. */
  lemma UnissuedRefreshSpends(
    t: Table, users: Users, current: Hash, replacement: Hash, checkedAt: Time, now: Time,
    config: AccessTokens.Config, refreshTtl: int, signing: Signing)
    requires Chained(t)
    requires
      Completed(ReplyTo(Refresh(t, users.rows.Keys, current, replacement, NewExpiry(checkedAt, refreshTtl), checkedAt,
                                now).1, users, replacement), config, refreshTtl, checkedAt, signing) == TokensNotIssued
    ensures var t' := CommittedBy(t, users, current, replacement, NewExpiry(checkedAt, refreshTtl), checkedAt, now);
      exists id :: id in t.rows && SpentRow(t', id, current, t.rows[id].familyId)
  {
    var id := Lookup(t, current).value;
    var t' := CommittedBy(t, users, current, replacement, NewExpiry(checkedAt, refreshTtl), checkedAt, now);
    assert t.nextId !in t.rows;
    assert SpentRow(t', id, current, t.rows[id].familyId);
  }

  /** The token has not expired, its user exists and is enabled, and the new token was not issued before. */
  predicate Timely(t: Table, users: Users, id: nat, replacement: Hash, checkedAt: Time)
    requires id in t.rows
  {
    && checkedAt < t.rows[id].expiresAt
    && t.rows[id].userId in users.rows && users.rows[t.rows[id].userId].disabledAt.None?
    && !HashTaken(t, replacement)
  }

  /**
   The access token is signed early enough after the first reading of the clock for the refresh token to outlive it, and
   decoded before it expires.
   */
  predicate Prompt(config: AccessTokens.Config, refreshTtl: int, checkedAt: Time, signing: Signing) {
    var second := AccessTokens.NumericDate(signing.issued) * AccessTokens.SECOND;
    && second - checkedAt < (refreshTtl - config.ttl) * AccessTokens.SECOND
    && signing.decoded < second + (config.ttl + config.skew) * AccessTokens.SECOND
  }

  predicate UsableId(jti: string) {
    !Blank(jti) && Stripped(jti)
  }

  /** What a refresh does when row `id` bears the presented token: the committed table, and the reply. */
  ghost function Refreshed(
    t: Table, users: Users, id: nat, replacement: Hash, checkedAt: Time, now: Time,
    config: AccessTokens.Config, refreshTtl: int, signing: Signing): (Table, RefreshReply)
    requires id in t.rows
  {
    var current, expiry := t.rows[id].tokenHash, NewExpiry(checkedAt, refreshTtl);
    (CommittedBy(t, users, current, replacement, expiry, checkedAt, now),
     Completed(ReplyTo(Refresh(t, users.rows.Keys, current, replacement, expiry, checkedAt, now).1, users, replacement),
               config, refreshTtl, checkedAt, signing))
  }

  /**
   A refresh with an unspent token gets its tokens exactly when it is timely and prompt. A timely one that is not prompt
   fails after its commit. The token can be used again exactly when the rotation hit a digest that exists already.
   */
  lemma RefreshAnsweredExactly(
    t: Table, users: Users, id: nat, replacement: Hash, checkedAt: Time, now: Time,
    config: AccessTokens.Config, refreshTtl: int, signing: Signing)
    requires Chained(t) && id in t.rows && !t.rows[id].Spent() && t.rows[id].userId > 0
    requires AccessTokens.ValidConfig(config) && UsableId(signing.jti) && signing.issued <= signing.decoded
    ensures var (t', reply) := Refreshed(t, users, id, replacement, checkedAt, now, config, refreshTtl, signing);
      var timely := Timely(t, users, id, replacement, checkedAt);
      var prompt := Prompt(config, refreshTtl, checkedAt, signing);
      && (reply == Tokens(t.rows[id].userId, replacement) <==> timely && prompt)
      && (reply.Tokens? <==> timely && prompt)
      && (reply.TokensNotIssued? <==> timely && !prompt)
      && id in t'.rows
      && (!t'.rows[id].Spent() <==>
            checkedAt < t.rows[id].expiresAt && t.rows[id].userId in users.rows && HashTaken(t, replacement))
  {
    LookupIs(t, id);
    assert t.nextId !in t.rows;
    AccessTokens.PairIssuedExactly(config, refreshTtl, t.rows[id].userId, signing.jti, checkedAt, signing.issued,
                                   signing.decoded);
  }

  /**
   An instance: with a refresh TTL one second above the access TTL, which the constructor accepts, signing one second
   after the clock was read loses the session.
   */
  lemma SlowSigningLosesTheToken(user: User, jti: string)
    requires user.disabledAt.None? && UsableId(jti)
    ensures var t := Insert(EMPTY, NewRow(1, "old", "family", 10 * AccessTokens.SECOND, 0));
      var config, signing := AccessTokens.Config("i", "a", 900, 0), Signing(jti, 1_000_000, 1_000_000);
      var (t', reply) := Refreshed(t, Users(map[1 := user], 2), 1, "new", 0, 0, config, 901, signing);
      Chained(t) && !t.rows[1].Spent() && AccessTokens.ValidConfig(config) && 901 > config.ttl
      && reply == TokensNotIssued && t'.rows[1].Spent()
  {
    var t := Insert(EMPTY, NewRow(1, "old", "family", 10 * AccessTokens.SECOND, 0));
    CreateKeepsChained(EMPTY, t.rows[1]);
    assert t.rows[1].tokenHash == "old";
    var config, signing := AccessTokens.Config("i", "a", 900, 0), Signing(jti, 1_000_000, 1_000_000);
    RefreshAnsweredExactly(t, Users(map[1 := user], 2), 1, "new", 0, 0, config, 901, signing);
  }

  /** After a logout no token of the family ever rotates again. */
  lemma LogoutIsFinal(t: Table, id: nat, now: Time, later: seq<Timed>)
    requires Chained(t) && id in t.rows
    requires FreshFamilies(Revoke(t, OfFamily(t.rows[id].familyId), now), later)
    ensures var answers := Run(Revoke(t, OfFamily(t.rows[id].familyId), now), later).1;
      forall i :: 0 <= i < |later| && answers[i].Rotated? ==> answers[i].familyId != t.rows[id].familyId
  {
    var o := Timed(OpRevokeFamily(t.rows[id].familyId), {}, now);
    RevocationKills(t, o, t.rows[id].familyId);
    StepKeepsChained(t, o);
    DeadForEver(Step(t, o).0, later, t.rows[id].familyId);
  }

  /** The presented token may be rotated: it is unspent and unexpired, and its user exists. */
  predicate Rotatable(t: Table, users: Users, id: nat, checkedAt: Time)
    requires id in t.rows
  {
    !t.rows[id].Spent() && checkedAt < t.rows[id].expiresAt && t.rows[id].userId in users.rows
  }

  /** A digest that no row bears is refused and changes nothing. */
  lemma UnknownTokenIsInvalid(
    t: Table, users: Users, current: Hash, replacement: Hash, expiresAt: Time, checkedAt: Time, now: Time)
    requires !HashTaken(t, current)
    ensures ReplyTo(Refresh(t, users.rows.Keys, current, replacement, expiresAt, checkedAt, now).1, users, replacement)
      == RefreshTokenInvalid
    ensures CommittedBy(t, users, current, replacement, expiresAt, checkedAt, now) == t
  {
  }

  /**
   What a refresh with the token of row `id` answers, in terms of the columns: spent, expired and orphaned tokens are
   invalid, and end their family; a token that may be rotated fails in the store exactly when the new digest exists
   already, and otherwise gets its tokens, or learns that the account is disabled.
   */
  lemma RepliesExactly(
    t: Table, users: Users, id: nat, replacement: Hash, expiresAt: Time, checkedAt: Time, now: Time)
    requires Chained(t) && id in t.rows
    ensures var row := t.rows[id];
      var reply := ReplyTo(Refresh(t, users.rows.Keys, row.tokenHash, replacement, expiresAt, checkedAt, now).1, users,
                           replacement);
      var rotatable, taken := Rotatable(t, users, id, checkedAt), HashTaken(t, replacement);
      && (reply == RefreshTokenInvalid <==> !rotatable)
      && (reply == StoreError <==> rotatable && taken)
      && (reply == AccountDisabled <==> rotatable && !taken && users.rows[row.userId].disabledAt.Some?)
      && (reply == Tokens(row.userId, replacement) <==>
            rotatable && !taken && users.rows[row.userId].disabledAt.None?)
  {
    LookupIs(t, id);
  }

  /** The table such a refresh leaves, row by row. */
  lemma RefreshLeaves(
    t: Table, users: Users, id: nat, replacement: Hash, expiresAt: Time, checkedAt: Time, now: Time)
    requires Chained(t) && id in t.rows
    ensures var row := t.rows[id];
      var t' := CommittedBy(t, users, row.tokenHash, replacement, expiresAt, checkedAt, now);
      var rotatable, taken := Rotatable(t, users, id, checkedAt), HashTaken(t, replacement);
      && (rotatable && taken ==> t' == t)
      && (!rotatable ==> t' == Revoke(t, OfFamily(row.familyId), now))
      && (rotatable && !taken ==>
            && t'.rows.Keys == t.rows.Keys + {t.nextId} && t'.nextId == t.nextId + 1
            && t'.rows[id] == row.(revokedAt := Some(now), lastUsedAt := now, replacedBy := Some(t.nextId))
            && var disabled := users.rows[row.userId].disabledAt.Some?;
            && t'.rows[t.nextId] == Session(row.userId, replacement, row.familyId, expiresAt, now,
                                            if disabled then Some(now) else None, None)
            && forall j :: j in t.rows && j != id ==>
                 t'.rows[j] ==
                 if disabled && t.rows[j].userId == row.userId then t.rows[j].Revoke(now) else t.rows[j])
  {
    LookupIs(t, id);
    assert t.nextId !in t.rows;
    if !t.rows[id].Spent() {
      RevokingTheLiveRow(t, id, now);
    }
  }

  /** A disabled account that refreshes keeps no live session. */
  lemma DisabledAccountIsCutOff(
    t: Table, users: Users, current: Hash, replacement: Hash, expiresAt: Time, checkedAt: Time, now: Time, id: nat)
    requires ReplyTo(Refresh(t, users.rows.Keys, current, replacement, expiresAt, checkedAt, now).1, users, replacement)
      == AccountDisabled
    ensures var t' := CommittedBy(t, users, current, replacement, expiresAt, checkedAt, now);
      var owner := Refresh(t, users.rows.Keys, current, replacement, expiresAt, checkedAt, now).1.userId;
      id in t'.rows && t'.rows[id].userId == owner ==> t'.rows[id].revokedAt.Some?
  {
  }
}

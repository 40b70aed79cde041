/** The command-line client and the server together: what the client must do to keep holding the live token. */
module CliSessionSafety {
  import opened Prelude
  import opened SessionTable
  import opened SessionSafety
  import opened AuthDb
  import opened AuthService
  import opened CliClient

  /** The API's reply to a refresh: a success always carries both cookies. */
  function ReplyMessage(reply: RefreshReply, accessToken: string, csrfToken: string): Response {
    match reply
    case Tokens(_, refreshToken) => Response(200, true, Some(accessToken), Some(refreshToken), Some(csrfToken))
    case RefreshTokenInvalid => Response(401, true, None, None, None)
    case AccountDisabled => Response(403, true, None, None, None)
    case StoreError => Response(500, true, None, None, None)
    case TokensNotIssued => Response(500, true, None, None, None)
  }

  /**
   What reaches the client: the reply, an error because the new tokens could not be issued after the rotation, nothing,
   or a reply whose refresh cookie cannot be read.
   */
  datatype Delivery = Delivered | NotIssued | Lost | CookieDropped

  function Received(delivery: Delivery, reply: RefreshReply, accessToken: string, csrfToken: string): Response {
    match delivery
    case Delivered => ReplyMessage(reply, accessToken, csrfToken)
    case NotIssued => ReplyMessage(if reply.Tokens? then TokensNotIssued else reply, accessToken, csrfToken)
    case Lost => NoResponse
    case CookieDropped =>
      var message := ReplyMessage(reply, accessToken, csrfToken);
      if message.Response? then message.(refreshCookie := None) else message
  }

  /** One refresh of the client; `users` are the accounts when the server handles it. */
  datatype Exchange = Exchange(
    users: Users,
    replacement: Hash,
    newExpiry: Time,
    checkedAt: Time,
    now: Time,
    accessToken: string,
    csrfToken: string)

  ghost function Rotation(t: Table, token: Hash, x: Exchange): (Table, Outcome) {
    Refresh(t, x.users.rows.Keys, token, x.replacement, x.newExpiry, x.checkedAt, x.now)
  }

  ghost function Reply(t: Table, token: Hash, x: Exchange): RefreshReply {
    ReplyTo(Rotation(t, token, x).1, x.users, x.replacement)
  }

  ghost function TableAfter(t: Table, token: Hash, x: Exchange): Table {
    Settled(Rotation(t, token, x), x.users, x.replacement, x.now)
  }

  ghost function Answer(t: Table, held: CliSession, x: Exchange, delivery: Delivery): Response {
    Received(delivery, Reply(t, held.refreshToken, x), x.accessToken, x.csrfToken)
  }

  ghost function SessionAfter(t: Table, held: CliSession, x: Exchange, delivery: Delivery): Option<CliSession> {
    Renewed(Some(held), Answer(t, held, x, delivery))
  }

  /** Row `id` is the live row of family `f` and the client holds its token. */
  predicate HoldsLive(t: Table, held: Option<CliSession>, f: FamilyId, id: nat) {
    && held.Some? && id in t.rows && t.rows[id].familyId == f
    && t.rows[id].revokedAt.None? && t.rows[id].tokenHash == held.value.refreshToken
  }

  /** The refresh comes before the expiry, for an enabled account, with a new token not issued before. */
  predicate Timely(t: Table, id: nat, x: Exchange)
    requires id in t.rows
  {
    AuthService.Timely(t, x.users, id, x.replacement, x.checkedAt)
  }

  lemma TimelyRotates(t: Table, held: CliSession, x: Exchange, f: FamilyId, id: nat)
    requires Chained(t) && HoldsLive(t, Some(held), f, id) && Timely(t, id, x)
    ensures Rotation(t, held.refreshToken, x) ==
      (Rotate(t, id, x.replacement, x.newExpiry, x.now), Rotated(f, t.rows[id].userId))
    ensures Reply(t, held.refreshToken, x) == Tokens(t.rows[id].userId, x.replacement)
    ensures Chained(TableAfter(t, held.refreshToken, x))
  {
    LookupIs(t, id);
    assert Linked(t, id);
    RotateKeepsChained(t, id, x.replacement, x.newExpiry, x.now);
  }

  /** After a rotation the client holds the live token exactly when the reply came with its cookie. */
  lemma HoldsLiveIffDelivered(t: Table, held: CliSession, x: Exchange, f: FamilyId, id: nat, delivery: Delivery)
    requires Chained(t) && HoldsLive(t, Some(held), f, id) && Timely(t, id, x)
    ensures var t', held' := TableAfter(t, held.refreshToken, x), SessionAfter(t, held, x, delivery);
      && held'.Some?
      && ((exists live :: HoldsLive(t', held', f, live)) <==> delivery.Delivered?)
      && (delivery.Delivered? ==> HoldsLive(t', held', f, t.nextId))
      && (!delivery.Delivered? ==> SpentRow(t', id, held'.value.refreshToken, f))
  {
    TimelyRotates(t, held, x, f, id);
    var t', held' := TableAfter(t, held.refreshToken, x), SessionAfter(t, held, x, delivery);
    assert t.nextId !in t.rows;
    if delivery.Delivered? {
      assert HoldsLive(t', held', f, t.nextId);
    }
  }

  /** A client whose reply was lost, or came without its cookie, presents a spent token ever after. */
  lemma LostReplyEndsInReuse(
    t: Table, held: CliSession, x: Exchange, f: FamilyId, id: nat, delivery: Delivery, later: seq<Timed>)
    requires Chained(t) && HoldsLive(t, Some(held), f, id) && Timely(t, id, x) && !delivery.Delivered?
    requires FreshFamilies(TableAfter(t, held.refreshToken, x), later)
    ensures var held' := SessionAfter(t, held, x, delivery);
      forall i ::
        0 <= i < |later| && later[i].op.OpRefresh? && held'.Some? && later[i].op.current == held'.value.refreshToken ==>
        Run(TableAfter(t, held.refreshToken, x), later).1[i] == Reused(f)
  {
    HoldsLiveIffDelivered(t, held, x, f, id, delivery);
    TimelyRotates(t, held, x, f, id);
    var kept := SessionAfter(t, held, x, delivery).value.refreshToken;
    SpentForEver(TableAfter(t, held.refreshToken, x), later, id, kept, f);
  }

  // ---------------------------------------------------------------- runs of the client, with restarts

  /** The session a client process works with, and the one in its file. */
  datatype Client = Client(memory: Option<CliSession>, file: Option<CliSession>)

  /** A transaction of somebody else, a refresh of this client, or the start of its next process. */
  datatype Event = Other(o: Timed) | Own(x: Exchange, delivery: Delivery, disk: Disk) | Restart

  /** The table, the client, and the reply to a refresh that was sent. */
  ghost function StepOf(t: Table, c: Client, e: Event): (Table, Client, Option<RefreshReply>) {
    match e
    case Other(o) => (Step(t, o).0, c, None)
    case Restart => (t, c.(memory := c.file), None)
    case Own(x, delivery, disk) =>
      if c.memory.None? then (t, c, None)
      else
        var held := c.memory.value;
        (TableAfter(t, held.refreshToken, x),
         Client(SessionAfter(t, held, x, delivery), Filed(c.file, c.memory, Answer(t, held, x, delivery), disk)),
         Some(Reply(t, held.refreshToken, x)))
  }

  ghost function Play(t: Table, c: Client, events: seq<Event>): (Table, Client, seq<RefreshReply>)
    decreases |events|
  {
    if events == [] then (t, c, [])
    else
      var (t', c', reply) := StepOf(t, c, events[0]);
      var (t'', c'', replies) := Play(t', c', events[1..]);
      (t'', c'', (if reply.Some? then [reply.value] else []) + replies)
  }

  /**
   What a refresh leaves a client with. New tokens are adopted in memory, and in the file unless it cannot be written,
   without their cookie under the refresh token held before; an invalid token, and a disabled account, log it out; lost
   replies and errors of the server leave it as it was.
   */
  lemma {:induction false} RefreshLeavesClient(t: Table, c: Client, x: Exchange, delivery: Delivery, disk: Disk)
    requires c.memory.Some?
    ensures var held := c.memory.value;
      var reply := Reply(t, held.refreshToken, x);
      var c' := StepOf(t, c, Own(x, delivery, disk)).1;
      if delivery.Lost? || reply.StoreError? || (reply.Tokens? && delivery.NotIssued?) then c' == c
      else if reply.Tokens? then
        var adopted := Some(CliSession(x.accessToken, if delivery.CookieDropped? then held.refreshToken
                                                      else reply.refreshToken, x.csrfToken));
        c' == Client(adopted, if disk.saving.SaveFails? then c.file else adopted)
      else
        reply in {RefreshTokenInvalid, AccountDisabled} &&
        c' == Client(None, if disk.clears then None else c.file)
  {
    var reply := Reply(t, c.memory.value.refreshToken, x);
    assert !reply.TokensNotIssued?;
    assert reply.Tokens? || reply.RefreshTokenInvalid? || reply.AccountDisabled? || reply.StoreError?;
  }

  /** Somebody else's transaction does not present a token of the family or revoke it. */
  ghost predicate Spares(t: Table, f: FamilyId, o: Timed) {
    match o.op
    case OpCreate(_, _, g, _) => !FamilyKnown(t, g)
    case OpRefresh(current, _, _, _) =>
      forall id :: id in t.rows && t.rows[id].tokenHash == current ==> t.rows[id].familyId != f
    case OpRevokeFamily(g) => g != f
    case OpRevokeUser(u) => forall id :: id in t.rows && t.rows[id].familyId == f ==> t.rows[id].userId != u
  }

  /** The others spare the family, and the client refreshes a live token in time. */
  ghost predicate Calm(t: Table, c: Client, f: FamilyId, e: Event) {
    match e
    case Other(o) => Spares(t, f, o)
    case Own(x, _, _) => forall id :: HoldsLive(t, c.memory, f, id) ==> Timely(t, id, x)
    case Restart => true
  }

  ghost predicate Undisturbed(t: Table, c: Client, f: FamilyId, events: seq<Event>)
    decreases |events|
  {
    events == [] ||
    (Calm(t, c, f, events[0]) &&
     var (t', c', _) := StepOf(t, c, events[0]);
     Undisturbed(t', c', f, events[1..]))
  }

  lemma OthersLeaveItLive(t: Table, held: CliSession, f: FamilyId, id: nat, o: Timed)
    requires Chained(t) && HoldsLive(t, Some(held), f, id) && Spares(t, f, o)
    ensures HoldsLive(Step(t, o).0, Some(held), f, id) && Chained(Step(t, o).0)
  {
    StepKeepsChained(t, o);
    assert t.nextId !in t.rows;
  }

  /** A copy of the session that can only ever be answered "reused". */
  ghost predicate Stale(t: Table, copy: Option<CliSession>, f: FamilyId) {
    copy.Some? ==> exists id :: SpentRow(t, id, copy.value.refreshToken, f)
  }

  ghost predicate BothStale(t: Table, c: Client, f: FamilyId) {
    Stale(t, c.memory, f) && Stale(t, c.file, f)
  }

  lemma StaleIsNotLive(t: Table, copy: Option<CliSession>, f: FamilyId, id: nat)
    requires Chained(t) && Stale(t, copy, f)
    ensures !HoldsLive(t, copy, f, id)
  {
    assert id in t.rows ==> Linked(t, id);
  }

  lemma {:induction false} TableStaysChained(t: Table, token: Hash, x: Exchange)
    requires Chained(t)
    ensures Chained(TableAfter(t, token, x))
  {
    var first := Timed(OpRefresh(token, x.replacement, x.newExpiry, x.checkedAt), x.users.rows.Keys, x.now);
    StepKeepsChained(t, first);
    if Reply(t, token, x).AccountDisabled? {
      RevokeKeepsChained(Step(t, first).0, OfUser(Rotation(t, token, x).1.userId), x.now);
    }
  }

  /** What a refresh with token `token` does to the session table, as transactions of that table. */
  lemma ExchangeIsMonotone(t: Table, token: Hash, x: Exchange, id: nat)
    requires Chained(t) && id in t.rows
    ensures var t' := TableAfter(t, token, x);
      && id in t'.rows
      && t'.rows[id].tokenHash == t.rows[id].tokenHash && t'.rows[id].familyId == t.rows[id].familyId
      && (t.rows[id].Spent() ==> t'.rows[id].Spent())
  {
    var first := Timed(OpRefresh(token, x.replacement, x.newExpiry, x.checkedAt), x.users.rows.Keys, x.now);
    StepKeepsChained(t, first);
    StepIsMonotone(t, first, id);
    if Reply(t, token, x).AccountDisabled? {
      StepIsMonotone(Step(t, first).0, Timed(OpRevokeUser(Rotation(t, token, x).1.userId), {}, x.now), id);
    }
  }

  lemma StaleStays(t: Table, t': Table, copy: Option<CliSession>, f: FamilyId)
    requires Stale(t, copy, f)
    requires forall id :: id in t.rows && t.rows[id].Spent() ==>
      id in t'.rows && t'.rows[id].Spent()
      && t'.rows[id].tokenHash == t.rows[id].tokenHash && t'.rows[id].familyId == t.rows[id].familyId
    ensures Stale(t', copy, f)
  {
    if copy.Some? {
      var id :| SpentRow(t, id, copy.value.refreshToken, f);
      assert SpentRow(t', id, copy.value.refreshToken, f);
    }
  }

  lemma {:induction false} StaleStaysThrough(t: Table, token: Hash, x: Exchange, copy: Option<CliSession>, f: FamilyId)
    requires Chained(t) && Stale(t, copy, f)
    ensures Chained(TableAfter(t, token, x)) && Stale(TableAfter(t, token, x), copy, f)
  {
    forall id | id in t.rows { ExchangeIsMonotone(t, token, x, id); }
    StaleStays(t, TableAfter(t, token, x), copy, f);
    TableStaysChained(t, token, x);
  }

  /** A refusal makes the client forget its session or changes nothing. */
  lemma {:induction false} RefusedClient(t: Table, c: Client, x: Exchange, delivery: Delivery, disk: Disk)
    requires c.memory.Some? && Reply(t, c.memory.value.refreshToken, x).RefreshTokenInvalid?
    ensures var c' := StepOf(t, c, Own(x, delivery, disk)).1;
      c'.memory in {None, c.memory} && c'.file in {None, c.file}
  {
  }

  /** The refresh of a stale client is refused and kills the family. */
  lemma {:induction false} StaleRefresh(
    t: Table, c: Client, f: FamilyId, x: Exchange, delivery: Delivery, disk: Disk)
    requires Chained(t) && BothStale(t, c, f) && c.memory.Some?
    ensures var (t', c', reply) := StepOf(t, c, Own(x, delivery, disk));
      Chained(t') && BothStale(t', c', f) && DeadFamily(t', f) && reply == Some(RefreshTokenInvalid)
  {
    var token := c.memory.value.refreshToken;
    var t' := TableAfter(t, token, x);
    var id :| SpentRow(t, id, token, f);
    var o := Timed(OpRefresh(token, x.replacement, x.newExpiry, x.checkedAt), x.users.rows.Keys, x.now);
    SpentTokenKills(t, o, id, f);
    StaleStaysThrough(t, token, x, c.memory, f);
    StaleStaysThrough(t, token, x, c.file, f);
    RefusedClient(t, c, x, delivery, disk);
  }

  /** A stale client stays stale. */
  lemma {:induction false} StaleStep(t: Table, c: Client, f: FamilyId, e: Event)
    requires Chained(t) && BothStale(t, c, f) && (e.Other? ==> Spares(t, f, e.o))
    ensures var (t', c', reply) := StepOf(t, c, e);
      Chained(t') && BothStale(t', c', f) && (reply.Some? ==> reply.value == RefreshTokenInvalid)
  {
    match e
    case Other(o) =>
      StepKeepsChained(t, o);
      forall id | id in t.rows { StepIsMonotone(t, o, id); }
      StaleStays(t, Step(t, o).0, c.memory, f);
      StaleStays(t, Step(t, o).0, c.file, f);
    case Restart =>
    case Own(x, delivery, disk) =>
      if c.memory.Some? { StaleRefresh(t, c, f, x, delivery, disk); }
  }

  /** From then on every refresh is refused, in this process and in all later ones. */
  lemma {:induction false} StaleForEver(t: Table, c: Client, f: FamilyId, events: seq<Event>)
    requires Chained(t) && BothStale(t, c, f) && Undisturbed(t, c, f, events)
    ensures var (t', c', replies) := Play(t, c, events);
      && Chained(t') && BothStale(t', c', f)
      && forall i :: 0 <= i < |replies| ==> replies[i] == RefreshTokenInvalid
    decreases |events|
  {
    if events != [] {
      StaleStep(t, c, f, events[0]);
      var (t', c', _) := StepOf(t, c, events[0]);
      StaleForEver(t', c', f, events[1..]);
    }
  }

  /** The file holds the session in memory, if it is up to date, and a spent token otherwise. */
  ghost predicate FileFollows(t: Table, c: Client, f: FamilyId, upToDate: bool) {
    if upToDate then c.file == c.memory else Stale(t, c.file, f)
  }

  /**
   Every reply arrived with its tokens, and no process started while the last of them was not in the file; `upToDate`
   says whether the file holds the session in memory.
   */
  predicate NothingLost(events: seq<Event>, upToDate: bool)
    decreases |events|
  {
    events == [] ||
    match events[0]
    case Other(_) => NothingLost(events[1..], upToDate)
    case Own(_, delivery, disk) => delivery.Delivered? && NothingLost(events[1..], !disk.saving.SaveFails?)
    case Restart => upToDate && NothingLost(events[1..], upToDate)
  }

  /** One timely refresh of a client that holds the live token. */
  lemma OwnRefresh(
    t: Table, c: Client, f: FamilyId, id: nat, upToDate: bool, x: Exchange, delivery: Delivery, disk: Disk)
    requires Chained(t) && HoldsLive(t, c.memory, f, id) && Timely(t, id, x) && FileFollows(t, c, f, upToDate)
    ensures var (t', c', reply) := StepOf(t, c, Own(x, delivery, disk));
      && Chained(t') && reply.Some? && reply.value.Tokens?
      && (delivery.Delivered? ==>
            HoldsLive(t', c'.memory, f, t.nextId) && FileFollows(t', c', f, !disk.saving.SaveFails?))
      && (!delivery.Delivered? ==> BothStale(t', c', f))
  {
    var held := c.memory.value;
    var (t', c', _) := StepOf(t, c, Own(x, delivery, disk));
    TimelyRotates(t, held, x, f, id);
    HoldsLiveIffDelivered(t, held, x, f, id, delivery);
    assert t.nextId !in t.rows;
    assert SpentRow(t', id, held.refreshToken, f);
    if !upToDate {
      StaleStaysThrough(t, held.refreshToken, x, c.file, f);
    }
  }

  lemma OthersLeaveTheFile(t: Table, c: Client, f: FamilyId, upToDate: bool, o: Timed)
    requires Chained(t) && FileFollows(t, c, f, upToDate)
    ensures FileFollows(Step(t, o).0, c, f, upToDate)
  {
    if !upToDate {
      forall id | id in t.rows { StepIsMonotone(t, o, id); }
      StaleStays(t, Step(t, o).0, c.file, f);
    }
  }

  /**
   What a run leaves: the client holds the live token exactly when nothing was lost, and then every refresh was answered
   with new tokens; otherwise it only has spent tokens, in memory and in its file.
   */
  ghost predicate LiveIffNothingLost(t: Table, c: Client, f: FamilyId, upToDate: bool, events: seq<Event>) {
    var (t', c', replies) := Play(t, c, events);
    && Chained(t')
    && ((exists live :: HoldsLive(t', c'.memory, f, live)) <==> NothingLost(events, upToDate))
    && (NothingLost(events, upToDate) ==>
          |replies| == |OwnEvents(events)| && forall i :: 0 <= i < |replies| ==> replies[i].Tokens?)
    && (!NothingLost(events, upToDate) ==> BothStale(t', c', f))
  }

  /** A run that begins with a refresh of the client goes on as what follows it. */
  lemma {:induction false} OwnRefreshFirst(
    t: Table, c: Client, f: FamilyId, id: nat, upToDate: bool, x: Exchange, delivery: Delivery, disk: Disk,
    rest: seq<Event>)
    requires Chained(t) && HoldsLive(t, c.memory, f, id) && FileFollows(t, c, f, upToDate)
    requires Undisturbed(t, c, f, [Own(x, delivery, disk)] + rest)
    requires var (t', c', _) := StepOf(t, c, Own(x, delivery, disk));
      delivery.Delivered? ==> LiveIffNothingLost(t', c', f, !disk.saving.SaveFails?, rest)
    ensures LiveIffNothingLost(t, c, f, upToDate, [Own(x, delivery, disk)] + rest)
  {
    var events := [Own(x, delivery, disk)] + rest;
    assert events[1..] == rest;
    var (t', c', _) := StepOf(t, c, events[0]);
    OwnRefresh(t, c, f, id, upToDate, x, delivery, disk);
    if !delivery.Delivered? {
      StaleHasLost(t', c', f, rest);
    }
  }

  /**
   A client that refreshes in time, among others that spare its family, holds the server's live token at the end exactly
   when nothing was lost on the way; every refresh until then is answered with new tokens. Once something is lost, the
   client only has spent tokens, in memory and in its file.
   */
  lemma {:induction false} HoldsLiveIffNothingLost(
    t: Table, c: Client, f: FamilyId, id: nat, upToDate: bool, events: seq<Event>)
    requires Chained(t) && HoldsLive(t, c.memory, f, id) && FileFollows(t, c, f, upToDate)
    requires Undisturbed(t, c, f, events)
    ensures LiveIffNothingLost(t, c, f, upToDate, events)
    decreases |events|
  {
    if events == [] {
      assert HoldsLive(t, c.memory, f, id);
    } else {
      var (t', c', _) := StepOf(t, c, events[0]);
      match events[0]
      case Other(o) =>
        OthersLeaveItLive(t, c.memory.value, f, id, o);
        OthersLeaveTheFile(t, c, f, upToDate, o);
        HoldsLiveIffNothingLost(t', c', f, id, upToDate, events[1..]);
      case Restart =>
        if upToDate {
          HoldsLiveIffNothingLost(t', c', f, id, upToDate, events[1..]);
        } else {
          StaleHasLost(t', c', f, events[1..]);
        }
      case Own(x, delivery, disk) =>
        if delivery.Delivered? {
          OwnRefresh(t, c, f, id, upToDate, x, delivery, disk);
          HoldsLiveIffNothingLost(t', c', f, t.nextId, !disk.saving.SaveFails?, events[1..]);
        }
        assert events == [events[0]] + events[1..];
        OwnRefreshFirst(t, c, f, id, upToDate, x, delivery, disk, events[1..]);
    }
  }

  lemma StaleHasLost(t: Table, c: Client, f: FamilyId, events: seq<Event>)
    requires Chained(t) && BothStale(t, c, f) && Undisturbed(t, c, f, events)
    ensures var (t', c', _) := Play(t, c, events);
      Chained(t') && BothStale(t', c', f) && forall live :: !HoldsLive(t', c'.memory, f, live)
  {
    StaleForEver(t, c, f, events);
    var (t', c', _) := Play(t, c, events);
    forall live ensures !HoldsLive(t', c'.memory, f, live) { StaleIsNotLive(t', c'.memory, f, live); }
  }

  /**
   Whether saved or not, the tokens of a delivered reply serve the process that got them: all its timely refreshes are
   answered with new tokens.
   */
  lemma {:induction false} SuccessiveRefreshesRotate(
    t: Table, c: Client, f: FamilyId, id: nat, upToDate: bool, events: seq<Event>)
    requires Chained(t) && HoldsLive(t, c.memory, f, id) && FileFollows(t, c, f, upToDate)
    requires Undisturbed(t, c, f, events)
    requires forall i :: 0 <= i < |events| ==> !events[i].Restart? && (events[i].Own? ==> events[i].delivery.Delivered?)
    ensures var (t', c', replies) := Play(t, c, events);
      && Chained(t') && (exists live :: HoldsLive(t', c'.memory, f, live))
      && |replies| == |OwnEvents(events)| && forall i :: 0 <= i < |replies| ==> replies[i].Tokens?
  {
    NoRestartLosesNothing(events, upToDate);
    HoldsLiveIffNothingLost(t, c, f, id, upToDate, events);
  }

  lemma {:induction false} NoRestartLosesNothing(events: seq<Event>, upToDate: bool)
    requires forall i :: 0 <= i < |events| ==> !events[i].Restart? && (events[i].Own? ==> events[i].delivery.Delivered?)
    ensures NothingLost(events, upToDate)
    decreases |events|
  {
    if events != [] {
      NoRestartLosesNothing(events[1..], if events[0].Own? then !events[0].disk.saving.SaveFails? else upToDate);
    }
  }

  /**
   After a timely refresh the next process starts with the live token exactly when the reply arrived and was saved.
   Otherwise its first refresh kills the family.
   */
  lemma {:induction false} RestartHoldsLiveIffSaved(
    t: Table, held: CliSession, x: Exchange, f: FamilyId, id: nat, delivery: Delivery, disk: Disk, next: Exchange)
    requires Chained(t) && HoldsLive(t, Some(held), f, id) && Timely(t, id, x)
    ensures var (t1, c1, _) := StepOf(t, Client(Some(held), Some(held)), Own(x, delivery, disk));
      var (t2, c2, _) := StepOf(t1, c1, Restart);
      var (t3, _, reply) := StepOf(t2, c2, Own(next, Delivered, disk));
      var saved := delivery.Delivered? && !disk.saving.SaveFails?;
      && ((exists live :: HoldsLive(t2, c2.memory, f, live)) <==> saved)
      && (!saved ==> reply == Some(RefreshTokenInvalid) && DeadFamily(t3, f))
  {
    var c := Client(Some(held), Some(held));
    OwnRefresh(t, c, f, id, true, x, delivery, disk);
    var (t1, c1, _) := StepOf(t, c, Own(x, delivery, disk));
    var (t2, c2, _) := StepOf(t1, c1, Restart);
    if delivery.Delivered? && !disk.saving.SaveFails? {
      assert HoldsLive(t2, c2.memory, f, t.nextId);
    } else {
      assert BothStale(t2, c2, f);
      forall live ensures !HoldsLive(t2, c2.memory, f, live) { StaleIsNotLive(t2, c2.memory, f, live); }
      StaleRefresh(t2, c2, f, next, Delivered, disk);
    }
  }

  function OwnEvents(events: seq<Event>): seq<Event>
    decreases |events|
  {
    if events == [] then [] else (if events[0].Own? then [events[0]] else []) + OwnEvents(events[1..])
  }
}

/**
 Email verification links. Looking a token up, marking it used and verifying the account are three transactions, and
 sending a link is two and a message, so any number of them interleave; only the guarded UPDATE that marks a token keeps
 it single use. Every call may fail before or after it took effect.
 */
module EmailVerification {
  import opened Prelude

  datatype Token = Token(userId: nat, hash: Hash, expiresAt: Time, usedAt: Option<Time>)

  datatype Tokens = Tokens(rows: map<nat, Token>, nextId: nat)

  datatype Actor =
    | Verifier(presented: Hash, stage: Stage)
    | Sender(userId: nat, drawn: Hash, expiresAt: Time, sending: Sending)

  datatype Stage = Looking | Marking(id: nat) | Verifying(id: nat) | Verified(id: nat) | Rejected

  datatype Sending = Revoking | Creating | Mailing | Sent(ok: bool)

  /** How a transaction, or the sending of a message, goes wrong: without effect, or after it took effect. */
  datatype Fault = NoFault | FailsBefore | FailsAfter

  /** `verified` are the accounts whose email is verified. */
  datatype State = State(tokens: Tokens, verified: set<nat>, actors: map<nat, Actor>)

  predicate HashTaken(t: Tokens, h: Hash) {
    exists id :: id in t.rows && t.rows[id].hash == h
  }

  ghost function Find(t: Tokens, h: Hash): (r: Option<nat>)
    ensures r.Some? ==> r.value in t.rows && t.rows[r.value].hash == h
    ensures r.None? <==> !HashTaken(t, h)
  {
    if HashTaken(t, h) then
      var id :| id in t.rows && t.rows[id].hash == h;
      Some(id)
    else
      None
  }

  function RevokePending(t: Tokens, userId: nat, now: Time): Tokens {
    t.(rows := map id | id in t.rows ::
      if t.rows[id].userId == userId && t.rows[id].usedAt.None? then t.rows[id].(usedAt := Some(now)) else t.rows[id])
  }

  function Insert(t: Tokens, token: Token): Tokens {
    Tokens(t.rows[t.nextId := token], t.nextId + 1)
  }

  function Mark(t: Tokens, id: nat, now: Time): Tokens
    requires id in t.rows
  {
    t.(rows := t.rows[id := t.rows[id].(usedAt := Some(now))])
  }

  /** One call of one actor. */
  ghost function Advance(s: State, actor: Actor, now: Time, fault: Fault): (State, Actor) {
    match actor
    case Verifier(h, Looking) =>
      var found := Find(s.tokens, h);
      if !fault.NoFault? || found.None? || s.tokens.rows[found.value].usedAt.Some? ||
         s.tokens.rows[found.value].expiresAt <= now
      then (s, actor.(stage := Rejected))
      else (s, actor.(stage := Marking(found.value)))
    case Verifier(_, Marking(id)) =>
      if fault.FailsBefore? || id !in s.tokens.rows || s.tokens.rows[id].usedAt.Some? then
        (s, actor.(stage := Rejected))
      else (s.(tokens := Mark(s.tokens, id, now)), actor.(stage := if fault.NoFault? then Verifying(id) else Rejected))
    case Verifier(_, Verifying(id)) =>
      if fault.FailsBefore? || id !in s.tokens.rows then (s, actor.(stage := Rejected))
      else (s.(verified := s.verified + {s.tokens.rows[id].userId}),
            actor.(stage := if fault.NoFault? then Verified(id) else Rejected))
    case Sender(u, _, _, Revoking) =>
      if fault.FailsBefore? then (s, actor.(sending := Sent(false)))
      else (s.(tokens := RevokePending(s.tokens, u, now)),
            actor.(sending := if fault.NoFault? then Creating else Sent(false)))
    case Sender(u, h, e, Creating) =>
      if fault.FailsBefore? || HashTaken(s.tokens, h) then (s, actor.(sending := Sent(false)))
      else (s.(tokens := Insert(s.tokens, Token(u, h, e, None))),
            actor.(sending := if fault.NoFault? then Mailing else Sent(false)))
    case Sender(_, _, _, Mailing) => (s, actor.(sending := Sent(fault.NoFault?)))
    case _ => (s, actor)
  }

  datatype Move = Arrive(who: nat, actor: Actor) | Go(who: nat, now: Time, fault: Fault)

  predicate Enabled(s: State, move: Move) {
    match move
    case Arrive(who, actor) =>
      who !in s.actors && (if actor.Verifier? then actor.stage == Looking else actor.sending == Revoking)
    case Go(who, _, _) => who in s.actors
  }

  ghost function Apply(s: State, move: Move): State
    requires Enabled(s, move)
  {
    match move
    case Arrive(who, actor) => s.(actors := s.actors[who := actor])
    case Go(who, now, fault) =>
      var (s', actor) := Advance(s, s.actors[who], now, fault);
      s'.(actors := s.actors[who := actor])
  }

  ghost predicate Feasible(s: State, moves: seq<Move>)
    decreases |moves|
  {
    moves == [] || (Enabled(s, moves[0]) && Feasible(Apply(s, moves[0]), moves[1..]))
  }

  ghost function Run(s: State, moves: seq<Move>): State
    requires Feasible(s, moves)
    decreases |moves|
  {
    if moves == [] then s else Run(Apply(s, moves[0]), moves[1..])
  }

  /** The verifier's guarded UPDATE matched this token. */
  predicate Won(actor: Actor, id: nat) {
    actor.Verifier? && (actor.stage == Verifying(id) || actor.stage == Verified(id))
  }

  predicate WonIsUsed(s: State, who: nat, id: nat)
    requires who in s.actors
  {
    Won(s.actors[who], id) ==> id in s.tokens.rows && s.tokens.rows[id].usedAt.Some? &&
                               s.tokens.rows[id].hash == s.actors[who].presented
  }

  predicate MarksItsOwn(s: State, who: nat)
    requires who in s.actors
  {
    s.actors[who].Verifier? && s.actors[who].stage.Marking? ==>
      s.actors[who].stage.id in s.tokens.rows && s.tokens.rows[s.actors[who].stage.id].hash == s.actors[who].presented
  }

  ghost predicate Invariant(s: State) {
    && (forall id :: id in s.tokens.rows ==> id < s.tokens.nextId)
    && (forall who {:trigger MarksItsOwn(s, who)} :: who in s.actors ==> MarksItsOwn(s, who))
    && (forall who, id {:trigger WonIsUsed(s, who, id)} :: who in s.actors ==> WonIsUsed(s, who, id))
    && (forall a, b, id :: a in s.actors && b in s.actors && Won(s.actors[a], id) && Won(s.actors[b], id) ==> a == b)
  }

  /** Tokens are never removed, never change hands and are never pending again. */
  lemma AdvanceIsMonotone(s: State, actor: Actor, now: Time, fault: Fault, id: nat)
    requires (forall i :: i in s.tokens.rows ==> i < s.tokens.nextId) && id in s.tokens.rows
    ensures var s' := Advance(s, actor, now, fault).0;
      && id in s'.tokens.rows
      && s'.tokens.rows[id].hash == s.tokens.rows[id].hash
      && s'.tokens.rows[id].userId == s.tokens.rows[id].userId
      && s'.tokens.rows[id].expiresAt == s.tokens.rows[id].expiresAt
      && (s.tokens.rows[id].usedAt.Some? ==> s'.tokens.rows[id].usedAt.Some?)
  {
  }

  lemma MoveKeepsInvariant(s: State, move: Move)
    requires Invariant(s) && Enabled(s, move)
    ensures Invariant(Apply(s, move))
  {
    var s' := Apply(s, move);
    var mover := move.who;
    forall who | who in s'.actors ensures MarksItsOwn(s', who) {
      if who in s.actors {
        assert MarksItsOwn(s, who);
        if move.Go? && s.actors[who].Verifier? && s.actors[who].stage.Marking? {
          AdvanceIsMonotone(s, s.actors[mover], move.now, move.fault, s.actors[who].stage.id);
        }
      }
    }
    forall who, id | who in s'.actors ensures WonIsUsed(s', who, id) {
      if who in s.actors {
        assert WonIsUsed(s, who, id) && MarksItsOwn(s, who);
        if move.Go? && id in s.tokens.rows {
          AdvanceIsMonotone(s, s.actors[mover], move.now, move.fault, id);
        }
      }
    }
    forall a, b, id | a in s'.actors && b in s'.actors && Won(s'.actors[a], id) && Won(s'.actors[b], id)
      ensures a == b
    {
      if a in s.actors { assert WonIsUsed(s, a, id); }
      if b in s.actors { assert WonIsUsed(s, b, id); }
    }
  }

  /** Whatever the interleaving, at most one verifier gets past the guarded UPDATE of a token. */
  lemma {:induction false} VerifiedAtMostOnce(s: State, moves: seq<Move>, a: nat, b: nat, id: nat)
    requires Invariant(s) && Feasible(s, moves)
    ensures var s' := Run(s, moves);
      && Invariant(s')
      && (a in s'.actors && Won(s'.actors[a], id) ==>
            && id in s'.tokens.rows && s'.tokens.rows[id].hash == s'.actors[a].presented
            && (b in s'.actors && Won(s'.actors[b], id) ==> a == b))
    decreases |moves|
  {
    if moves != [] {
      MoveKeepsInvariant(s, moves[0]);
      VerifiedAtMostOnce(Apply(s, moves[0]), moves[1..], a, b, id);
    } else if a in s.actors {
      assert WonIsUsed(s, a, id);
    }
  }

  // ---------------------------------------------------------------- which accounts become verified

  /** A look-up that found a token, and a guarded UPDATE that matched. */
  datatype Event = Found(verifier: nat, token: nat, at: Time) | Marked(verifier: nat, token: nat)

  /** What a move adds to the history. */
  ghost function Noted(s: State, move: Move): set<Event>
    requires Enabled(s, move)
  {
    if !move.Go? || !s.actors[move.who].Verifier? then {}
    else
      var before, after := s.actors[move.who].stage, Apply(s, move).actors[move.who].stage;
      if before.Looking? && after.Marking? then {Found(move.who, after.id, move.now)}
      else if before.Marking? && Apply(s, move).tokens != s.tokens then {Marked(move.who, before.id)}
      else {}
  }

  ghost function History(s: State, moves: seq<Move>): set<Event>
    requires Feasible(s, moves)
    decreases |moves|
  {
    if moves == [] then {} else Noted(s, moves[0]) + History(Apply(s, moves[0]), moves[1..])
  }

  /** Verifier `who` found token `id`, before its expiry. */
  predicate FoundInTime(t: Tokens, history: set<Event>, who: nat, id: nat, at: Time) {
    Found(who, id, at) in history && id in t.rows && at < t.rows[id].expiresAt
  }

  /** A verifier found a token of this account before its expiry, and then won the token. */
  predicate Earned(t: Tokens, history: set<Event>, who: nat, id: nat, at: Time, u: nat) {
    FoundInTime(t, history, who, id, at) && Marked(who, id) in history && t.rows[id].userId == u
  }

  /** What the history says of a verifier, by how far it has come. */
  ghost predicate Accounted(s: State, history: set<Event>, who: nat)
    requires who in s.actors
  {
    s.actors[who].Verifier? ==>
      match s.actors[who].stage
      case Marking(id) => exists at :: FoundInTime(s.tokens, history, who, id, at)
      case Verifying(id) => exists at :: FoundInTime(s.tokens, history, who, id, at) && Marked(who, id) in history
      case _ => true
  }

  /** `already` are the accounts that were verified to begin with. */
  ghost predicate Explained(s: State, history: set<Event>, already: set<nat>) {
    && (forall i :: i in s.tokens.rows ==> i < s.tokens.nextId)
    && (forall who {:trigger Accounted(s, history, who)} :: who in s.actors ==> Accounted(s, history, who))
    && (forall u :: u in s.verified && u !in already ==>
          exists who, id, at :: Earned(s.tokens, history, who, id, at, u))
  }

  /** Tokens that keep their rows keep what was found. */
  predicate TokensKept(t: Tokens, t': Tokens) {
    forall id :: id in t.rows ==>
      id in t'.rows && t'.rows[id].userId == t.rows[id].userId && t'.rows[id].expiresAt == t.rows[id].expiresAt
  }

  lemma MoveKeepsTokens(s: State, move: Move)
    requires Enabled(s, move) && forall i :: i in s.tokens.rows ==> i < s.tokens.nextId
    ensures TokensKept(s.tokens, Apply(s, move).tokens)
    ensures forall i :: i in Apply(s, move).tokens.rows ==> i < Apply(s, move).tokens.nextId
  {
    forall id | id in s.tokens.rows && move.Go? {
      AdvanceIsMonotone(s, s.actors[move.who], move.now, move.fault, id);
    }
  }

  lemma MoveKeepsAccounted(s: State, move: Move, history: set<Event>, who: nat)
    requires Enabled(s, move) && TokensKept(s.tokens, Apply(s, move).tokens)
    requires who in Apply(s, move).actors && (who in s.actors ==> Accounted(s, history, who))
    ensures Accounted(Apply(s, move), history + Noted(s, move), who)
  {
    var s', h' := Apply(s, move), history + Noted(s, move);
    if who in s.actors && s.actors[who].Verifier? && s'.actors[who].Verifier? {
      var before, after := s.actors[who].stage, s'.actors[who].stage;
      if before.Looking? && after.Marking? {
        assert FoundInTime(s'.tokens, h', who, after.id, move.now);
      } else if after.Marking? || after.Verifying? {
        var at :| FoundInTime(s.tokens, history, who, before.id, at) &&
                  (before.Verifying? ==> Marked(who, before.id) in history);
        assert FoundInTime(s'.tokens, h', who, after.id, at);
      }
    }
  }

  lemma MoveKeepsExplained(s: State, move: Move, history: set<Event>, already: set<nat>)
    requires Enabled(s, move) && Explained(s, history, already)
    ensures Explained(Apply(s, move), history + Noted(s, move), already)
  {
    var s', h' := Apply(s, move), history + Noted(s, move);
    MoveKeepsTokens(s, move);
    forall who | who in s'.actors ensures Accounted(s', h', who) {
      assert who in s.actors ==> Accounted(s, history, who);
      MoveKeepsAccounted(s, move, history, who);
    }
    forall u | u in s'.verified && u !in already ensures exists who, id, at :: Earned(s'.tokens, h', who, id, at, u) {
      if u in s.verified {
        var who, id, at :| Earned(s.tokens, history, who, id, at, u);
        assert Earned(s'.tokens, h', who, id, at, u);
      } else {
        assert Accounted(s, history, move.who);
        var id := s.actors[move.who].stage.id;
        var at :| FoundInTime(s.tokens, history, move.who, id, at);
        assert Earned(s'.tokens, h', move.who, id, at, u);
      }
    }
  }

  lemma {:induction false} RunKeepsExplained(s: State, moves: seq<Move>, history: set<Event>, already: set<nat>)
    requires Feasible(s, moves) && Explained(s, history, already)
    ensures Explained(Run(s, moves), history + History(s, moves), already)
    decreases |moves|
  {
    if moves != [] {
      var s1 := Apply(s, moves[0]);
      MoveKeepsExplained(s, moves[0], history, already);
      RunKeepsExplained(s1, moves[1..], history + Noted(s, moves[0]), already);
      assert history + History(s, moves) == history + Noted(s, moves[0]) + History(s1, moves[1..]);
    } else {
      assert history + History(s, moves) == history;
    }
  }

  /**
   Over every interleaving, an account becomes verified only when some verifier found a token of that account before it
   expired, and won that token.
   */
  lemma VerifiedOnlyByWinners(s: State, moves: seq<Move>, u: nat)
    requires Feasible(s, moves) && forall i :: i in s.tokens.rows ==> i < s.tokens.nextId
    requires forall who :: who in s.actors && s.actors[who].Verifier? ==> s.actors[who].stage.Looking?
    requires u in Run(s, moves).verified && u !in s.verified
    ensures exists who, id, at :: Earned(Run(s, moves).tokens, History(s, moves), who, id, at, u)
  {
    RunKeepsExplained(s, moves, {}, s.verified);
    assert {} + History(s, moves) == History(s, moves);
  }

  // ---------------------------------------------------------------- one actor left alone

  /** Three calls of one actor, one after the other. */
  ghost function Alone(s: State, actor: Actor, times: (Time, Time, Time), faults: (Fault, Fault, Fault))
    : (State, Actor)
  {
    var (s1, a1) := Advance(s, actor, times.0, faults.0);
    var (s2, a2) := Advance(s1, a1, times.1, faults.1);
    Advance(s2, a2, times.2, faults.2)
  }

  predicate HashesUnique(t: Tokens) {
    forall i, j :: i in t.rows && j in t.rows && t.rows[i].hash == t.rows[j].hash ==> i == j
  }

  /**
   An undisturbed verification with the digest of token `id`: it succeeds exactly when nothing fails and the token was
   pending and unexpired when looked up. The token is used from when its marking took effect, and the account of the
   token is verified from when that took effect; nothing else changes.
   */
  lemma {:induction false} VerifyOutcome(
    s: State, id: nat, times: (Time, Time, Time), faults: (Fault, Fault, Fault))
    requires HashesUnique(s.tokens) && id in s.tokens.rows
    ensures var token := s.tokens.rows[id];
      var (s', a) := Alone(s, Verifier(token.hash, Looking), times, faults);
      var found := token.usedAt.None? && times.0 < token.expiresAt && faults.0.NoFault?;
      var marked := found && !faults.1.FailsBefore?;
      var told := found && faults.1.NoFault?;
      && (a == Verifier(token.hash, Verified(id)) <==> told && faults.2.NoFault?)
      && (a != Verifier(token.hash, Verified(id)) ==> a == Verifier(token.hash, Rejected))
      && s'.tokens.nextId == s.tokens.nextId && s'.actors == s.actors
      && s'.tokens.rows ==
         (if marked then s.tokens.rows[id := Token(token.userId, token.hash, token.expiresAt, Some(times.1))]
          else s.tokens.rows)
      && s'.verified == (if told && !faults.2.FailsBefore? then s.verified + {token.userId} else s.verified)
  {
    assert Find(s.tokens, s.tokens.rows[id].hash) == Some(id);
  }

  /** A digest that no token has is refused, and nothing changes. */
  lemma {:induction false} UnknownDigestRefused(
    s: State, h: Hash, times: (Time, Time, Time), faults: (Fault, Fault, Fault))
    requires !HashTaken(s.tokens, h)
    ensures Alone(s, Verifier(h, Looking), times, faults) == (s, Verifier(h, Rejected))
  {
  }

  /**
   An undisturbed send: the user's pending tokens are used once the revocation took effect, and the new token, with its
   digest and expiry, is there once its creation took effect; it succeeds exactly when the message was sent too.
   */
  lemma {:induction false} SendOutcome(
    s: State, u: nat, h: Hash, e: Time, times: (Time, Time, Time), faults: (Fault, Fault, Fault))
    requires forall i :: i in s.tokens.rows ==> i < s.tokens.nextId
    ensures var (s', a) := Alone(s, Sender(u, h, e, Revoking), times, faults);
      var revokes := !faults.0.FailsBefore?;
      var reaches := faults.0.NoFault? && !HashTaken(s.tokens, h);
      var creates := reaches && !faults.1.FailsBefore?;
      && a == Sender(u, h, e, Sent(reaches && faults.1.NoFault? && faults.2.NoFault?))
      && s'.verified == s.verified && s'.actors == s.actors
      && s'.tokens.rows.Keys == s.tokens.rows.Keys + (if creates then {s.tokens.nextId} else {})
      && (creates ==> s'.tokens.rows[s.tokens.nextId] == Token(u, h, e, None))
      && forall i :: i in s.tokens.rows ==>
           var token := s.tokens.rows[i];
           s'.tokens.rows[i] ==
           if revokes && token.userId == u && token.usedAt.None?
           then Token(u, token.hash, token.expiresAt, Some(times.0)) else token
  {
    var t := RevokePending(s.tokens, u, times.0);
    assert t.rows.Keys == s.tokens.rows.Keys && forall i :: i in t.rows ==> t.rows[i].hash == s.tokens.rows[i].hash;
    assert HashTaken(t, h) <==> HashTaken(s.tokens, h);
  }

  // ---------------------------------------------------------------- how many tokens are pending

  predicate Pending(t: Tokens, userId: nat, id: nat) {
    id in t.rows && t.rows[id].userId == userId && t.rows[id].usedAt.None?
  }

  /** A call makes no token pending but the one it inserts. */
  lemma PendingBefore(s: State, actor: Actor, now: Time, fault: Fault, u: nat, id: nat)
    requires Pending(Advance(s, actor, now, fault).0.tokens, u, id) && id != s.tokens.nextId
    ensures Pending(s.tokens, u, id)
  {
  }

  /** Between a state and a later one, only tokens inserted in between can have become pending. */
  lemma {:induction false} PendingOnlyFrom(s: State, moves: seq<Move>, u: nat, id: nat)
    requires Feasible(s, moves) && id < s.tokens.nextId && !Pending(s.tokens, u, id)
    ensures !Pending(Run(s, moves).tokens, u, id)
    decreases |moves|
  {
    if moves != [] {
      var s1 := Apply(s, moves[0]);
      if moves[0].Go? && Pending(s1.tokens, u, id) {
        PendingBefore(s, s.actors[moves[0].who], moves[0].now, moves[0].fault, u, id);
      }
      PendingOnlyFrom(s1, moves[1..], u, id);
    }
  }

  lemma {:induction false} RunGrows(s: State, moves: seq<Move>)
    requires Feasible(s, moves)
    ensures s.tokens.nextId <= Run(s, moves).tokens.nextId
    decreases |moves|
  {
    if moves != [] {
      RunGrows(Apply(s, moves[0]), moves[1..]);
    }
  }

  lemma {:induction false} RunKeepsIds(s: State, moves: seq<Move>)
    requires Feasible(s, moves) && forall i :: i in s.tokens.rows ==> i < s.tokens.nextId
    ensures forall i :: i in Run(s, moves).tokens.rows ==> i < Run(s, moves).tokens.nextId
    decreases |moves|
  {
    if moves != [] {
      RunKeepsIds(Apply(s, moves[0]), moves[1..]);
    }
  }

  /** Whoever else moves, an actor stays where it is. */
  lemma {:induction false} OthersLeaveIt(s: State, moves: seq<Move>, who: nat)
    requires Feasible(s, moves) && who in s.actors && forall i :: 0 <= i < |moves| ==> moves[i].who != who
    ensures who in Run(s, moves).actors && Run(s, moves).actors[who] == s.actors[who]
    decreases |moves|
  {
    if moves != [] {
      OthersLeaveIt(Apply(s, moves[0]), moves[1..], who);
    }
  }

  /** No token created since the next id was `low` is pending. */
  predicate NonePendingSince(t: Tokens, u: nat, low: nat) {
    forall id :: low <= id < t.nextId ==> !Pending(t, u, id)
  }

  predicate OnlyPending(t: Tokens, u: nat, id: nat) {
    Pending(t, u, id) && forall i :: i in t.rows && Pending(t, u, i) ==> i == id
  }

  /** A new token is the only pending one of its user exactly when none from `low` on was pending. */
  lemma InsertionDecides(t: Tokens, token: Token, low: nat)
    requires (forall i :: i in t.rows ==> i < t.nextId) && low <= t.nextId && token.usedAt.None?
    requires forall id: nat :: id < low ==> !Pending(t, token.userId, id)
    ensures var t' := Insert(t, token);
      && Pending(t', token.userId, t.nextId)
      && (OnlyPending(t', token.userId, t.nextId) <==> NonePendingSince(t, token.userId, low))
  {
    var t' := Insert(t, token);
    forall id: nat | id != t.nextId ensures Pending(t', token.userId, id) <==> Pending(t, token.userId, id) {
    }
  }

  /**
   When a send revokes in `s`, any number of other calls follow, and then it creates its token: that token is pending,
   and it is the user's only pending one exactly when no token created in between is still pending by then.
   */
  lemma OnlyPendingExactly(s: State, who: nat, u: nat, h: Hash, e: Time, now: Time, between: seq<Move>, later: Time)
    requires (forall i :: i in s.tokens.rows ==> i < s.tokens.nextId)
    requires who in s.actors && s.actors[who] == Sender(u, h, e, Revoking)
    requires Feasible(Apply(s, Go(who, now, NoFault)), between)
    requires forall i :: 0 <= i < |between| ==> between[i].who != who
    requires !HashTaken(Run(Apply(s, Go(who, now, NoFault)), between).tokens, h)
    ensures var s1 := Run(Apply(s, Go(who, now, NoFault)), between);
      && who in s1.actors
      && var t := Apply(s1, Go(who, later, NoFault)).tokens;
      (OnlyPending(t, u, s1.tokens.nextId) <==> NonePendingSince(s1.tokens, u, s.tokens.nextId))
      && Pending(t, u, s1.tokens.nextId)
  {
    var s0 := Apply(s, Go(who, now, NoFault));
    var s1 := Run(s0, between);
    OthersLeaveIt(s0, between, who);
    RunKeepsIds(s0, between);
    RunGrows(s0, between);
    forall id: nat | id < s.tokens.nextId ensures !Pending(s1.tokens, u, id) {
      PendingOnlyFrom(s0, between, u, id);
    }
    InsertionDecides(s1.tokens, Token(u, h, e, None), s.tokens.nextId);
  }

  /** In particular, a send whose two transactions run back to back leaves its new token as the only pending one. */
  lemma UninterruptedSend(s: State, who: nat, u: nat, h: Hash, e: Time, now: Time, afterwards: Time)
    requires (forall i :: i in s.tokens.rows ==> i < s.tokens.nextId) && !HashTaken(s.tokens, h)
    requires who in s.actors && s.actors[who] == Sender(u, h, e, Revoking)
    ensures var s2 := Apply(Apply(s, Go(who, now, NoFault)), Go(who, afterwards, NoFault));
      s2.actors[who] == Sender(u, h, e, Mailing) && OnlyPending(s2.tokens, u, s.tokens.nextId)
  {
    OnlyPendingExactly(s, who, u, h, e, now, [], afterwards);
  }

  /** Two interleaved sends to one user leave two pending tokens. */
  lemma InterleavedSendsLeaveTwoPending(u: nat, h1: Hash, h2: Hash, e: Time)
    requires h1 != h2
    ensures var s := State(Tokens(map[], 1), {}, map[]);
      var moves := [Arrive(1, Sender(u, h1, e, Revoking)), Arrive(2, Sender(u, h2, e, Revoking)),
                    Go(1, 0, NoFault), Go(2, 0, NoFault), Go(1, 0, NoFault), Go(2, 0, NoFault)];
      && Invariant(s) && Feasible(s, moves)
      && Pending(Run(s, moves).tokens, u, 1) && Pending(Run(s, moves).tokens, u, 2)
  {
    var s0 := State(Tokens(map[], 1), {}, map[]);
    var moves := [Arrive(1, Sender(u, h1, e, Revoking)), Arrive(2, Sender(u, h2, e, Revoking)),
                  Go(1, 0, NoFault), Go(2, 0, NoFault), Go(1, 0, NoFault), Go(2, 0, NoFault)];
    var s1 := Apply(s0, moves[0]);
    var s2 := Apply(s1, moves[1]);
    var s3 := Apply(s2, moves[2]);
    var s4 := Apply(s3, moves[3]);
    var s5 := Apply(s4, moves[4]);
    var s6 := Apply(s5, moves[5]);
    assert s6.tokens.rows.Keys == {1, 2};
    assert moves[5..][1..] == [];
    assert Feasible(s6, []) && Run(s6, []) == s6;
    assert moves[4..][1..] == moves[5..] && moves[3..][1..] == moves[4..] && moves[2..][1..] == moves[3..];
    assert moves[1..][1..] == moves[2..];
    assert Feasible(s5, moves[5..]) && Run(s5, moves[5..]) == s6;
    assert Feasible(s4, moves[4..]) && Run(s4, moves[4..]) == s6;
    assert Feasible(s3, moves[3..]) && Run(s3, moves[3..]) == s6;
    assert Feasible(s2, moves[2..]) && Run(s2, moves[2..]) == s6;
    assert Feasible(s1, moves[1..]) && Run(s1, moves[1..]) == s6;
  }
}

/**
 Rotations of refresh tokens, statement by statement. Each is a transaction that selects its row FOR UPDATE, decides,
 inserts the replacement, runs its guarded UPDATE and commits; any number of them interleave with each other and with
 all other transactions. A locked row keeps others waiting, and what a transaction wrote shows when it commits.
 */
module RotationRace {
  import opened Prelude
  import opened SessionTable

  /** How far a transaction has come; `row` is what it read of the row it locked, `newId` the key its insert drew. */
  datatype Stage =
    | Selecting
    | Deciding(id: nat, row: Session)
    | Refusing(id: nat, row: Session, revoked: Selector)
    | Inserting(id: nat, row: Session)
    | Updating(id: nat, row: Session, newId: nat)
    | Committing(id: nat, row: Session, newId: nat)
    | Over(rotated: bool)

  datatype Rotation = Rotation(current: Hash, replacement: Hash, newExpiry: Time, checkedAt: Time, stage: Stage)

  /** `table` is what is committed, except that keys are drawn at once; `rotated` counts the commits by row. */
  datatype State = State(table: Table, rotations: map<nat, Rotation>, rotated: multiset<nat>)

  /** The lock of `SELECT ... FOR UPDATE`, held until the transaction ends. */
  predicate Holds(x: Rotation, id: nat) {
    !x.stage.Selecting? && !x.stage.Over? && x.stage.id == id
  }

  /** Its insert is in the unique index already, though nobody else sees the row. */
  predicate HasInserted(x: Rotation) {
    x.stage.Updating? || x.stage.Committing?
  }

  predicate LockedByOthers(s: State, who: nat, id: nat) {
    exists other :: other in s.rotations && other != who && Holds(s.rotations[other], id)
  }

  predicate Locked(s: State, id: nat) {
    exists who :: who in s.rotations && Holds(s.rotations[who], id)
  }

  predicate Pending(s: State, h: Hash) {
    exists who :: who in s.rotations && HasInserted(s.rotations[who]) && s.rotations[who].replacement == h
  }

  predicate KeyDrawn(s: State, id: nat) {
    exists who :: who in s.rotations && HasInserted(s.rotations[who]) && s.rotations[who].stage.newId == id
  }

  datatype Move =
    | Begin(who: nat, rotation: Rotation)
    | Select(who: nat)
    | Decide(who: nat, userExists: bool)
    | Refuse(who: nat, now: Time)
    | Insertion(who: nat)
    | Update(who: nat)
    | Commit(who: nat, now: Time)
    | Abort(who: nat)
    | Elsewhere(table: Table)

  /** Other transactions wait for locked rows and for the unique index, and never remove or unspend a row. */
  predicate Permitted(s: State, t: Table) {
    && s.table.nextId <= t.nextId && HashesUnique(t)
    && (forall id :: id in t.rows ==> id < t.nextId)
    && (forall id :: id in s.table.rows ==>
          && id in t.rows && t.rows[id].tokenHash == s.table.rows[id].tokenHash
          && (s.table.rows[id].Spent() ==> t.rows[id].Spent()))
    && (forall id :: id in s.table.rows && Locked(s, id) ==> t.rows[id] == s.table.rows[id])
    && (forall id :: id in t.rows && id !in s.table.rows ==> !KeyDrawn(s, id) && !Pending(s, t.rows[id].tokenHash))
  }

  ghost predicate Enabled(s: State, move: Move) {
    match move
    case Begin(who, rotation) => who !in s.rotations && rotation.stage.Selecting?
    case Select(who) =>
      && who in s.rotations && s.rotations[who].stage.Selecting?
      && var found := Lookup(s.table, s.rotations[who].current);
      found.Some? ==> !LockedByOthers(s, who, found.value)
    case Decide(who, _) => who in s.rotations && s.rotations[who].stage.Deciding?
    case Refuse(who, _) =>
      && who in s.rotations && s.rotations[who].stage.Refusing?
      && forall id :: id in s.table.rows && Selects(s.rotations[who].stage.revoked, id, s.table.rows[id]) ==>
           s.table.rows[id].revokedAt.Some? || !LockedByOthers(s, who, id)
    case Insertion(who) => who in s.rotations && s.rotations[who].stage.Inserting?
    case Update(who) => who in s.rotations && s.rotations[who].stage.Updating?
    case Commit(who, _) => who in s.rotations && s.rotations[who].stage.Committing?
    case Abort(who) => who in s.rotations && !s.rotations[who].stage.Over?
    case Elsewhere(t) => Permitted(s, t)
  }

  function Enter(s: State, who: nat, stage: Stage): State
    requires who in s.rotations
  {
    s.(rotations := s.rotations[who := s.rotations[who].(stage := stage)])
  }

  /** The row of this key is unspent: the check after the lock, and the guard of the UPDATE. */
  predicate Unspent(t: Table, id: nat) {
    id in t.rows && !t.rows[id].Spent()
  }

  /** What a rotation commits: its inserted row, and the old row spent and pointing at it. */
  function Rotated(t: Table, x: Rotation, now: Time): Table
    requires x.stage.Committing?
  {
    var row := x.stage.row;
    t.(rows := t.rows[x.stage.newId := NewRow(row.userId, x.replacement, row.familyId, x.newExpiry, now)]
                     [x.stage.id := row.(revokedAt := Some(now), lastUsedAt := now, replacedBy := Some(x.stage.newId))])
  }

  ghost function Apply(s: State, move: Move): State
    requires Enabled(s, move)
  {
    match move
    case Begin(who, rotation) => s.(rotations := s.rotations[who := rotation])
    case Select(who) =>
      var found := Lookup(s.table, s.rotations[who].current);
      Enter(s, who, if found.None? then Over(false) else Deciding(found.value, s.table.rows[found.value]))
    case Decide(who, userExists) =>
      var x := s.rotations[who];
      var id, row := x.stage.id, x.stage.row;
      Enter(s, who,
            if row.Spent() then Refusing(id, row, OfFamily(row.familyId))
            else if row.expiresAt <= x.checkedAt || !userExists then Refusing(id, row, OfId(id))
            else Inserting(id, row))
    case Refuse(who, now) =>
      Enter(s, who, Over(false)).(table := SessionTable.Revoke(s.table, s.rotations[who].stage.revoked, now))
    case Insertion(who) =>
      var x := s.rotations[who];
      if !Unspent(s.table, x.stage.id) || HashTaken(s.table, x.replacement) || Pending(s, x.replacement) then
        Enter(s, who, Over(false))
      else
        Enter(s, who, Updating(x.stage.id, x.stage.row, s.table.nextId)).(
          table := s.table.(nextId := s.table.nextId + 1))
    case Update(who) =>
      var x := s.rotations[who];
      Enter(s, who,
            if Unspent(s.table, x.stage.id) then Committing(x.stage.id, x.stage.row, x.stage.newId) else Over(false))
    case Commit(who, now) =>
      var x := s.rotations[who];
      Enter(s, who, Over(true)).(table := Rotated(s.table, x, now), rotated := s.rotated + multiset{x.stage.id})
    case Abort(who) => Enter(s, who, Over(false))
    case Elsewhere(t) => s.(table := t)
  }

  ghost predicate Feasible(s: State, moves: seq<Move>)
    decreases |moves|
  {
    moves == [] || (Enabled(s, moves[0]) && Feasible(Apply(s, moves[0]), moves[1..]))
  }

  ghost function Run(s: State, moves: seq<Move>): State
    requires Feasible(s, moves)
    decreases |moves|
  {
    if moves == [] then s else Run(Apply(s, moves[0]), moves[1..])
  }

  // ---------------------------------------------------------------- what locks keep

  /** What a transaction relies on: the row it locked is as it read it, and its insert is still unique. */
  predicate Relies(t: Table, x: Rotation) {
    match x.stage
    case Selecting => true
    case Over(_) => true
    case _ =>
      && x.stage.id in t.rows && t.rows[x.stage.id] == x.stage.row && x.stage.row.tokenHash == x.current
      && (x.stage.Inserting? || HasInserted(x) ==> !x.stage.row.Spent() && x.checkedAt < x.stage.row.expiresAt)
      && (HasInserted(x) ==> x.stage.newId !in t.rows && x.stage.newId < t.nextId && !HashTaken(t, x.replacement))
  }

  /** Two transactions never hold the same row, key or digest. */
  ghost predicate Apart(x: Rotation, y: Rotation) {
    && (forall id :: Holds(x, id) ==> !Holds(y, id))
    && (HasInserted(x) && HasInserted(y) ==> x.stage.newId != y.stage.newId && x.replacement != y.replacement)
  }

  predicate Counted(s: State, id: nat) {
    s.rotated[id] == 0 || (s.rotated[id] == 1 && id in s.table.rows && s.table.rows[id].Spent())
  }

  ghost predicate Invariant(s: State) {
    && HashesUnique(s.table) && (forall id :: id in s.table.rows ==> id < s.table.nextId)
    && (forall who {:trigger Relies(s.table, s.rotations[who])} ::
          who in s.rotations ==> Relies(s.table, s.rotations[who]))
    && (forall a, b {:trigger Apart(s.rotations[a], s.rotations[b])} ::
          a in s.rotations && b in s.rotations && a != b ==> Apart(s.rotations[a], s.rotations[b]))
    && (forall id {:trigger Counted(s, id)} :: Counted(s, id))
  }

  /** Other transactions keep what a rotation relies on: they wait for its row, its key and its digest. */
  lemma {:induction false} ElsewhereKeepsRelied(s: State, t: Table, other: nat)
    requires Permitted(s, t) && other in s.rotations && Relies(s.table, s.rotations[other])
    ensures Relies(t, s.rotations[other])
  {
    var x := s.rotations[other];
    if !x.stage.Selecting? && !x.stage.Over? {
      assert Holds(x, x.stage.id) && Locked(s, x.stage.id);
      if HasInserted(x) {
        assert Pending(s, x.replacement) && KeyDrawn(s, x.stage.newId);
      }
    }
  }

  /** So does the step of another rotation. */
  lemma {:induction false} OthersStillRely(s: State, move: Move, other: nat)
    requires Invariant(s) && Enabled(s, move) && other in s.rotations && !move.Elsewhere? && move.who != other
    ensures Relies(Apply(s, move).table, s.rotations[other])
  {
    var x := s.rotations[other];
    assert Relies(s.table, x);
    if !x.stage.Selecting? && !x.stage.Over? && (move.Refuse? || move.Commit?) {
      var y := s.rotations[move.who];
      assert Apart(y, x) && Relies(s.table, y) && Holds(x, x.stage.id) && Holds(y, y.stage.id);
      assert LockedByOthers(s, move.who, x.stage.id);
    }
  }

  lemma {:induction false} MoverRelies(s: State, move: Move)
    requires Invariant(s) && Enabled(s, move) && !move.Elsewhere?
    ensures Relies(Apply(s, move).table, Apply(s, move).rotations[move.who])
  {
    if move.who in s.rotations {
      assert Relies(s.table, s.rotations[move.who]);
    }
  }

  lemma {:induction false} MoverStaysApart(s: State, move: Move, other: nat)
    requires Invariant(s) && Enabled(s, move) && !move.Elsewhere? && other in s.rotations && other != move.who
    ensures Apart(Apply(s, move).rotations[move.who], s.rotations[other])
    ensures Apart(s.rotations[other], Apply(s, move).rotations[move.who])
  {
    var y := s.rotations[other];
    assert Relies(s.table, y);
    if move.who in s.rotations {
      assert Apart(s.rotations[move.who], y) && Apart(y, s.rotations[move.who]);
    }
    if move.Select? {
      var found := Lookup(s.table, s.rotations[move.who].current);
      if found.Some? { assert !LockedByOthers(s, move.who, found.value); }
    }
    if move.Insertion? && HasInserted(y) {
      assert Pending(s, y.replacement);
    }
  }

  lemma {:induction false} MoveKeepsCounted(s: State, move: Move, id: nat)
    requires Invariant(s) && Enabled(s, move)
    ensures Counted(Apply(s, move), id)
  {
    assert Counted(s, id);
    if !move.Elsewhere? && move.who in s.rotations {
      assert Relies(s.table, s.rotations[move.who]);
    }
  }

  lemma {:induction false} MoveKeepsUnique(s: State, move: Move)
    requires Invariant(s) && Enabled(s, move)
    ensures HashesUnique(Apply(s, move).table)
    ensures forall id :: id in Apply(s, move).table.rows ==> id < Apply(s, move).table.nextId
  {
    if !move.Elsewhere? && move.who in s.rotations {
      assert Relies(s.table, s.rotations[move.who]);
    }
  }

  lemma {:induction false} MoveKeepsInvariant(s: State, move: Move)
    requires Invariant(s) && Enabled(s, move)
    ensures Invariant(Apply(s, move))
  {
    var s' := Apply(s, move);
    MoveKeepsUnique(s, move);
    forall who | who in s'.rotations ensures Relies(s'.table, s'.rotations[who]) {
      if move.Elsewhere? {
        assert Relies(s.table, s.rotations[who]);
        ElsewhereKeepsRelied(s, move.table, who);
      } else if who != move.who {
        OthersStillRely(s, move, who);
      } else {
        MoverRelies(s, move);
      }
    }
    forall a, b | a in s'.rotations && b in s'.rotations && a != b ensures Apart(s'.rotations[a], s'.rotations[b]) {
      if move.Elsewhere? || (a != move.who && b != move.who) {
        assert Apart(s.rotations[a], s.rotations[b]);
      } else if a == move.who {
        MoverStaysApart(s, move, b);
      } else {
        MoverStaysApart(s, move, a);
      }
    }
    forall id ensures Counted(s', id) { MoveKeepsCounted(s, move, id); }
  }

  lemma {:induction false} RunKeepsInvariant(s: State, moves: seq<Move>)
    requires Invariant(s) && Feasible(s, moves)
    ensures Invariant(Run(s, moves))
    decreases |moves|
  {
    if moves != [] {
      MoveKeepsInvariant(s, moves[0]);
      RunKeepsInvariant(Apply(s, moves[0]), moves[1..]);
    }
  }

  // ---------------------------------------------------------------- one row, one rotation

  /** No rotation is under way yet. */
  predicate Quiet(s: State) {
    s.rotations == map[] && s.rotated == multiset{} && HashesUnique(s.table) &&
    forall id :: id in s.table.rows ==> id < s.table.nextId
  }

  /** Of any number of concurrent rotations of one row at most one commits, and then the row is spent. */
  lemma AtMostOneCommits(s: State, moves: seq<Move>, id: nat)
    requires Quiet(s) && Feasible(s, moves)
    ensures var s' := Run(s, moves);
      s'.rotated[id] <= 1 && (s'.rotated[id] == 1 ==> id in s'.table.rows && s'.table.rows[id].Spent())
  {
    RunKeepsInvariant(s, moves);
    assert Counted(Run(s, moves), id);
  }

  /** With the lock held, neither the check after it nor the guard of the UPDATE ever fails. */
  lemma GuardsNeverFail(s: State, moves: seq<Move>, who: nat)
    requires Quiet(s) && Feasible(s, moves) && who in Run(s, moves).rotations
    ensures var s' := Run(s, moves); var x := s'.rotations[who];
      && (x.stage.Inserting? || HasInserted(x) ==> Unspent(s'.table, x.stage.id))
      && (x.stage.Updating? ==> Apply(s', Update(who)).rotations[who].stage.Committing?)
  {
    RunKeepsInvariant(s, moves);
    assert Relies(Run(s, moves).table, Run(s, moves).rotations[who]);
  }

  /**
   A rotation that commits is the refresh transaction done at once, at the moment of its commit, with the key it drew:
   same table, same outcome.
   */
  lemma CommitsAreAtomic(s: State, moves: seq<Move>, who: nat, users: set<nat>, now: Time)
    requires Quiet(s) && Feasible(s, moves) && who in Run(s, moves).rotations
    requires Run(s, moves).rotations[who].stage.Committing?
    requires Run(s, moves).rotations[who].stage.row.userId in users
    ensures var s' := Run(s, moves); var x := s'.rotations[who]; var row := x.stage.row;
      var (t, outcome) :=
        Refresh(s'.table.(nextId := x.stage.newId), users, x.current, x.replacement, x.newExpiry, x.checkedAt, now);
      Apply(s', Commit(who, now)).table.rows == t.rows && outcome == Outcome.Rotated(row.familyId, row.userId)
  {
    RunKeepsInvariant(s, moves);
    var s' := Run(s, moves);
    assert Relies(s'.table, s'.rotations[who]);
    var t := s'.table.(nextId := s'.rotations[who].stage.newId);
    assert HashTaken(t, s'.rotations[who].replacement) ==> HashTaken(s'.table, s'.rotations[who].replacement);
  }
}

/** The job protocol's promises, over every interleaving. */
module JobTheorems {
  import opened Prelude
  import opened JobTable
  import opened StoragePaths
  import opened JobProtocol
  import opened JobSafety

  lemma InitiallyOk(stored: map<string, Metadata>)
    ensures JobSafety.Invariant(Initially(stored))
  {
  }

  lemma GoFollows(s: State, users: set<nat>, move: Move, id: nat)
    requires JobSafety.Invariant(s) && Enabled(s, move) && id in s.world.jobs.rows
    ensures var s' := Apply(s, users, move);
      id in s'.world.jobs.rows && Follows(s.world.jobs.rows[id], s'.world.jobs.rows[id])
  {
    if move.Go? {
      assert Grounded(s.world, s.actors[move.who].pc, id) && LogAgrees(s.world, id);
      AdvanceMoves(s.world, users, s.actors[move.who], move.call, id);
    }
  }

  lemma {:induction false} RunKeepsInvariant(s: State, users: set<nat>, moves: seq<Move>, id: nat)
    requires JobSafety.Invariant(s) && Feasible(s, users, moves)
    ensures var s' := Reach(s, users, moves);
      && JobSafety.Invariant(s')
      && (id in s.world.jobs.rows ==>
            id in s'.world.jobs.rows && Follows(s.world.jobs.rows[id], s'.world.jobs.rows[id]))
    decreases |moves|
  {
    if moves != [] {
      var s1 := Apply(s, users, moves[0]);
      MoveKeepsInvariant(s, users, moves[0]);
      RunKeepsInvariant(s1, users, moves[1..], id);
      if id in s.world.jobs.rows {
        GoFollows(s, users, moves[0], id);
        FollowsOnward(s.world.jobs.rows[id], s1.world.jobs.rows[id], Reach(s1, users, moves[1..]).world.jobs.rows[id]);
      }
    }
  }

  /**
   Whatever the interleaving, one actor at most wins the upload of a job, the queue is called at most once for it, and
   only after that; one worker at most starts it, its workflow runs at most once, it ends at most once, and its files
   are deleted at most once.
   */
  lemma AtMostOnce(stored: map<string, Metadata>, users: set<nat>, moves: seq<Move>, id: nat)
    requires Feasible(Initially(stored), users, moves)
    ensures var log := Reach(Initially(stored), users, moves).world.log;
      && log[EnqueueCalled(id)] <= log[UploadWon(id)] <= 1
      && log[Executed(id)] <= log[RunningWon(id)] <= log[UploadWon(id)]
      && log[DeletionIssued(id)] <= log[TerminalWon(id)] <= 1
      && log[DeletionIssued(id)] <= log[RunningWon(id)]
  {
    InitiallyOk(stored);
    RunKeepsInvariant(Initially(stored), users, moves, id);
    var w := Reach(Initially(stored), users, moves).world;
    assert LogAgrees(w, id);
    if id in w.jobs.rows {
      assert Sound(w.jobs.rows[id]);
    }
  }

  /** An uploaded or running job has its file in the store, and so has a job whose workflow is executing. */
  lemma FilesOutliveTheirUse(stored: map<string, Metadata>, users: set<nat>, moves: seq<Move>, id: nat, who: nat)
    requires Feasible(Initially(stored), users, moves)
    ensures var s := Reach(Initially(stored), users, moves);
      && (id in s.world.jobs.rows && s.world.jobs.rows[id].status in {Uploaded, Running} ==>
            s.world.jobs.rows[id].file.Some? && s.world.jobs.rows[id].file.value.key in s.world.stored)
      && (who in s.actors && RunsJob(s.actors[who].pc, id) ==>
            HasFile(s.world, id) && s.world.jobs.rows[id].file.value.key in s.world.stored)
  {
    InitiallyOk(stored);
    RunKeepsInvariant(Initially(stored), users, moves, id);
    var s := Reach(Initially(stored), users, moves);
    assert LogAgrees(s.world, id) && FileKept(s.world, id);
    if who in s.actors {
      assert Grounded(s.world, s.actors[who].pc, id);
    }
    if id in s.world.jobs.rows {
      assert Sound(s.world.jobs.rows[id]);
    }
  }

  /** Files are deleted only for a job that has ended, and its row never changes again. */
  lemma DeletionComesLast(stored: map<string, Metadata>, users: set<nat>, before: seq<Move>, after: seq<Move>, id: nat)
    requires Feasible(Initially(stored), users, before)
    requires Feasible(Reach(Initially(stored), users, before), users, after)
    requires Reach(Initially(stored), users, before).world.log[DeletionIssued(id)] > 0
    ensures var s := Reach(Initially(stored), users, before);
      var s' := Reach(s, users, after);
      && id in s.world.jobs.rows && Terminal(s.world.jobs.rows[id].status)
      && id in s'.world.jobs.rows && s'.world.jobs.rows[id] == s.world.jobs.rows[id]
  {
    InitiallyOk(stored);
    RunKeepsInvariant(Initially(stored), users, before, id);
    var s := Reach(Initially(stored), users, before);
    assert LogAgrees(s.world, id);
    assert Sound(s.world.jobs.rows[id]);
    RunKeepsInvariant(s, users, after, id);
  }

  // ---------------------------------------------------------------- losing the race

  lemma {:induction false} EndedStaysEnded(w: World, users: set<nat>, actor: Actor, calls: seq<Call>, i: nat)
    requires actor.pc.Ended? && i <= |calls|
    ensures Alone(w, users, actor, calls, i) == (w, actor.pc)
    decreases |calls| - i
  {
    if i < |calls| {
      EndedStaysEnded(w, users, actor, calls, i + 1);
    }
  }

  /** A worker that has lost the race for a job: about to claim it in vain, or done. */
  predicate Lost(s: State, who: nat, id: nat) {
    && who in s.actors && id in s.world.jobs.rows
    && Rank(s.world.jobs.rows[id].status) > Rank(Uploaded)
    && (s.actors[who].pc == Claiming(id) || s.actors[who].pc.Ended?)
  }

  lemma LosersStepInVain(s: State, users: set<nat>, who: nat, id: nat, call: Call)
    requires Lost(s, who, id)
    ensures Advance(s.world, users, s.actors[who], call).0 == s.world
    ensures Advance(s.world, users, s.actors[who], call).1.Ended?
  {
  }

  lemma LosersStayLost(s: State, users: set<nat>, move: Move, who: nat, id: nat)
    requires JobSafety.Invariant(s) && Lost(s, who, id) && Enabled(s, move)
    ensures Lost(Apply(s, users, move), who, id)
  {
    GoFollows(s, users, move, id);
    if move.Go? && move.who == who {
      LosersStepInVain(s, users, who, id, move.call);
    }
  }

  /**
   A worker that finds the job claimed by another, or ended, changes neither the job nor its files, nor anything else:
   not in any call it makes, whatever everybody does in between.
   */
  lemma {:induction false} LosersChangeNothing(
    s: State, users: set<nat>, moves: seq<Move>, who: nat, id: nat, call: Call)
    requires JobSafety.Invariant(s) && Lost(s, who, id) && Feasible(s, users, moves)
    ensures var s' := Reach(s, users, moves);
      && Lost(s', who, id)
      && Apply(s', users, Go(who, call)).world == s'.world
    decreases |moves|
  {
    if moves != [] {
      MoveKeepsInvariant(s, users, moves[0]);
      LosersStayLost(s, users, moves[0], who, id);
      LosersChangeNothing(Apply(s, users, moves[0]), users, moves[1..], who, id, call);
    } else {
      LosersStepInVain(s, users, who, id, call);
    }
  }

  // ---------------------------------------------------------------- who may call the queue

  predicate NobodyMayEnqueue(s: State, id: nat) {
    forall who :: who in s.actors ==> !MayEnqueue(s.actors[who].pc, id)
  }

  /**
   Only the winner of the upload ever calls the queue. If it is gone without having called it, because its commit
   succeeded and the answer was lost, the job stays uploaded or fails, and is never handed to the queue.
   */
  lemma {:induction false} OnlyTheWinnerEnqueues(s: State, users: set<nat>, moves: seq<Move>, id: nat)
    requires JobSafety.Invariant(s) && Feasible(s, users, moves) && HasFile(s.world, id) && NobodyMayEnqueue(s, id)
    ensures Reach(s, users, moves).world.log[EnqueueCalled(id)] == s.world.log[EnqueueCalled(id)]
    decreases |moves|
  {
    if moves != [] {
      var s1 := Apply(s, users, moves[0]);
      MoveKeepsInvariant(s, users, moves[0]);
      GoFollows(s, users, moves[0], id);
      if moves[0].Go? {
        var who := moves[0].who;
        assert Grounded(s.world, s.actors[who].pc, id) && LogAgrees(s.world, id);
        AdvanceMoves(s.world, users, s.actors[who], moves[0].call, id);
        ClaimsAreWon(s.world, users, s.actors[who], moves[0].call, id);
      }
      OnlyTheWinnerEnqueues(s1, users, moves[1..], id);
    }
  }

  lemma UploadMatches(w: World, id: nat, file: FileRef, call: Call)
    requires id in w.jobs.rows && call.fault in {Fine, BreaksAfter}
    ensures var (w', ok) := Write(w, id, Upload(file), call);
      && w'.jobs.rows.Keys == w.jobs.rows.Keys && w'.stored == w.stored
      && (w.jobs.rows[id].status == Pending ==>
            w'.jobs.rows[id] == Changed(w.jobs.rows[id], Upload(file), call.now) && ok == call.fault.Fine?)
      && (w.jobs.rows[id].status != Pending ==> w' == w && !ok)
  {
  }

  lemma ConfirmedAlready(w: World, userId: nat, id: nat, call: Call)
    requires id in w.jobs.rows && w.jobs.rows[id].status == Uploaded && w.jobs.rows[id].request.userId == userId
    requires UsableUpload(w.jobs.rows[id].request.directUpload) && w.jobs.rows[id].file.Some? && call.fault.Fine?
    ensures Confirm(w, Confirmer(userId, id), call) == Ended(w.jobs.rows[id].file.value.key ==
              JobInputKey(id, w.jobs.rows[id].request.directUpload.value.filename))
  {
  }

  lemma LostConfirmation(w: World, users: set<nat>, userId: nat, id: nat, file: FileRef, lost: Call)
    requires lost.fault.BreaksAfter?
    ensures Advance(w, users, Actor(Confirmer(userId, id), Storing(id, file)), lost)
            == (Write(w, id, Upload(file), lost).0, Ended(false))
  {
  }

  lemma FirstLook(w: World, users: set<nat>, userId: nat, id: nat, call: Call)
    ensures Advance(w, users, Actor(Confirmer(userId, id), Reading), call) ==
      (w, Confirm(w, Confirmer(userId, id), call))
  {
  }

  /**
   Such a job: its confirmation committed, the caller saw an error, and a retry reports success without a call to the
   queue.
   */
  lemma RetriedConfirmationSucceeds(
    w: World, users: set<nat>, userId: nat, id: nat, file: FileRef, lost: Call, again: Call, w1: World)
    requires id in w.jobs.rows && w.jobs.rows[id].status == Pending && w.jobs.rows[id].request.userId == userId
    requires UsableUpload(w.jobs.rows[id].request.directUpload)
    requires file.key == JobInputKey(id, w.jobs.rows[id].request.directUpload.value.filename)
    requires lost.fault.BreaksAfter? && again.fault.Fine?
    requires w1 == Advance(w, users, Actor(Confirmer(userId, id), Storing(id, file)), lost).0
    ensures Advance(w, users, Actor(Confirmer(userId, id), Storing(id, file)), lost).1 == Ended(false)
    ensures id in w1.jobs.rows && w1.jobs.rows[id].status == Uploaded
    ensures Advance(w1, users, Actor(Confirmer(userId, id), Reading), again) == (w1, Ended(true))
  {
    LostConfirmation(w, users, userId, id, file, lost);
    UploadMatches(w, id, file, lost);
    ConfirmedAlready(w1, userId, id, again);
    FirstLook(w1, users, userId, id, again);
  }

  // ---------------------------------------------------------------- files written back

  /**
   Deletion comes once only: a file that is under the prefix of a job whose deletion has been issued, such as the input
   a repeated submission wrote back, stays in the store whatever happens.
   */
  lemma {:induction false} LeftoversStay(s: State, users: set<nat>, moves: seq<Move>, id: nat, key: string)
    requires JobSafety.Invariant(s) && Feasible(s, users, moves)
    requires s.world.log[DeletionIssued(id)] > 0 && JobPrefix(id) <= key && key in s.world.stored
    ensures key in Reach(s, users, moves).world.stored
    decreases |moves|
  {
    if moves != [] {
      assert LogAgrees(s.world, id);
      MoveKeepsInvariant(s, users, moves[0]);
      if moves[0].Go? {
        var who := moves[0].who;
        var pc := s.actors[who].pc;
        AdvanceStores(s.world, users, s.actors[who], moves[0].call);
        assert Grounded(s.world, pc, id);
        AdvanceMoves(s.world, users, s.actors[who], moves[0].call, id);
        if pc.Deleting? {
          assert Grounded(s.world, pc, pc.id) && pc.id != id;
          if JobPrefix(pc.id) <= key {
            PrefixesAreDisjoint(pc.id, id, key);
          }
        }
      }
      LeftoversStay(Apply(s, users, moves[0]), users, moves[1..], id, key);
    }
  }

  // ---------------------------------------------------------------- the protocol is a run of the table

  /** The table operation behind a move, if there is one. */
  function OpsOf(s: State, move: Move): seq<Op>
    requires Enabled(s, move)
  {
    if !move.Go? then []
    else
      var actor, call := s.actors[move.who], move.call;
      if call.fault in {Rejects, BreaksBefore} then []
      else if actor.pc.Creating? && (actor.role.Submitter? || actor.role.Preparer?) then
        [Submit(actor.role.request, call.now)]
      else if Writes(actor.pc) then [Op.Move(actor.pc.id, Attempt(actor.pc, call), call.now)]
      else []
  }

  ghost function AllOps(s: State, users: set<nat>, moves: seq<Move>): seq<Op>
    requires Feasible(s, users, moves)
    decreases |moves|
  {
    if moves == [] then [] else OpsOf(s, moves[0]) + AllOps(Apply(s, users, moves[0]), users, moves[1..])
  }

  lemma MoveIsTableStep(s: State, users: set<nat>, move: Move)
    requires Enabled(s, move)
    ensures Apply(s, users, move).world.jobs ==
            if OpsOf(s, move) == [] then s.world.jobs else Step(s.world.jobs, users, OpsOf(s, move)[0])
  {
  }

  /** So everything proved of the table alone, such as the bound of three status changes, holds of the protocol. */
  lemma {:induction false} ProtocolRunsTheTable(s: State, users: set<nat>, moves: seq<Move>, id: nat)
    requires Feasible(s, users, moves) && JobTable.Invariant(s.world.jobs)
    ensures Reach(s, users, moves).world.jobs == JobTable.Run(s.world.jobs, users, AllOps(s, users, moves))
    ensures id in s.world.jobs.rows ==> StatusChanges(s.world.jobs, users, AllOps(s, users, moves), id) <= 3
    decreases |moves|
  {
    if moves != [] {
      var s1 := Apply(s, users, moves[0]);
      var first, rest := OpsOf(s, moves[0]), AllOps(s1, users, moves[1..]);
      MoveIsTableStep(s, users, moves[0]);
      if first != [] {
        StepKeepsInvariant(s.world.jobs, users, first[0]);
        assert (first + rest)[1..] == rest;
      } else {
        assert first + rest == rest;
      }
      ProtocolRunsTheTable(s1, users, moves[1..], id);
    }
    if id in s.world.jobs.rows {
      AtMostThreeChanges(s.world.jobs, users, AllOps(s, users, moves), id);
    }
  }
}

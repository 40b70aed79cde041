/** Exactly when an uploaded job is handed to the queue. */
module JobHandover {
  import opened Prelude
  import opened JobTable
  import opened JobProtocol
  import opened JobSafety
  import JobTheorems

  /** Somebody won the upload, knows it, and has yet to call the queue. */
  ghost predicate Entitled(s: State, id: nat) {
    exists who :: who in s.actors && MayEnqueue(s.actors[who].pc, id)
  }

  /** Every upload was handed over, is about to be, or was won by somebody who does not know. */
  ghost predicate Accounted(s: State, id: nat) {
    var log := s.world.log;
    log[UploadWon(id)] == log[EnqueueCalled(id)] + log[UploadUnseen(id)] + Flag(Entitled(s, id))
  }

  function Balance(w: World, id: nat): int {
    w.log[UploadWon(id)] as int - w.log[EnqueueCalled(id)] as int - w.log[UploadUnseen(id)] as int
  }

  lemma WriteBalances(w: World, actor: Actor, call: Call, id: nat)
    requires JobTable.Invariant(w.jobs) && Writes(actor.pc)
    ensures var (w', ok) := Write(w, actor.pc.id, Attempt(actor.pc, call), call);
      Balance(w', id) == Balance(w, id) + Flag(MayEnqueue(AfterWrite(w', actor, ok, call), id))
  {
    NotedCounts(Attempt(actor.pc, call), actor.pc.id, call, id);
  }

  lemma OtherCallsGrantNothing(w: World, users: set<nat>, actor: Actor, call: Call, id: nat)
    requires !Writes(actor.pc)
    ensures !MayEnqueue(Advance(w, users, actor, call).1, id)
  {
  }

  lemma LoggingBalances(w: World, w': World, pc: Pc, call: Call, id: nat)
    requires w'.log == w.log + Logged(pc, call)
    ensures Balance(w', id) == Balance(w, id) - Flag(MayEnqueue(pc, id))
  {
  }

  /** One call moves the balance exactly as it moves the right to call the queue. */
  lemma AdvanceBalances(w: World, users: set<nat>, actor: Actor, call: Call, id: nat)
    requires JobTable.Invariant(w.jobs)
    ensures var (w', pc) := Advance(w, users, actor, call);
      Balance(w', id) == Balance(w, id) + Flag(MayEnqueue(pc, id)) - Flag(MayEnqueue(actor.pc, id))
  {
    if Writes(actor.pc) {
      WriteBalances(w, actor, call, id);
    } else {
      OtherCallsGrantNothing(w, users, actor, call, id);
      if !actor.pc.Creating? {
        OtherStepsOnlyLog(w, users, actor, call);
        LoggingBalances(w, Advance(w, users, actor, call).0, actor.pc, call, id);
      }
    }
  }

  lemma GoMovesTheRight(s: State, users: set<nat>, who: nat, call: Call, id: nat)
    requires JobSafety.Invariant(s) && who in s.actors
    ensures var s' := Apply(s, users, Go(who, call));
      Flag(Entitled(s', id)) ==
      Flag(Entitled(s, id)) + Flag(MayEnqueue(s'.actors[who].pc, id)) - Flag(MayEnqueue(s.actors[who].pc, id))
  {
    var s' := Apply(s, users, Go(who, call));
    ClaimsAreWon(s.world, users, s.actors[who], call, id);
    if MayEnqueue(s'.actors[who].pc, id) {
      forall other | other in s.actors ensures !MayEnqueue(s.actors[other].pc, id) {
        assert Grounded(s.world, s.actors[other].pc, id);
      }
    }
    forall other | other in s.actors && other != who ensures s'.actors[other] == s.actors[other] {
    }
    if Entitled(s, id) && !MayEnqueue(s.actors[who].pc, id) {
      var other :| other in s.actors && MayEnqueue(s.actors[other].pc, id);
      assert MayEnqueue(s'.actors[other].pc, id);
    }
  }

  lemma MoveKeepsAccounted(s: State, users: set<nat>, move: Move, id: nat)
    requires JobSafety.Invariant(s) && Enabled(s, move) && Accounted(s, id)
    ensures Accounted(Apply(s, users, move), id)
  {
    var s' := Apply(s, users, move);
    match move
    case Go(who, call) =>
      AdvanceBalances(s.world, users, s.actors[who], call, id);
      GoMovesTheRight(s, users, who, call, id);
    case Arrive(who, _) =>
      if Entitled(s, id) {
        var other :| other in s.actors && MayEnqueue(s.actors[other].pc, id);
        assert MayEnqueue(s'.actors[other].pc, id);
      }
      if Entitled(s', id) {
        var other :| other in s'.actors && MayEnqueue(s'.actors[other].pc, id);
        assert MayEnqueue(s.actors[other].pc, id);
      }
    case Put(_, _) =>
      assert s'.actors == s.actors;
  }

  /** Over every interleaving, every upload is accounted for. */
  lemma {:induction false} RunKeepsAccounted(s: State, users: set<nat>, moves: seq<Move>, id: nat)
    requires JobSafety.Invariant(s) && Feasible(s, users, moves) && Accounted(s, id)
    ensures Accounted(Reach(s, users, moves), id)
    decreases |moves|
  {
    if moves != [] {
      MoveKeepsInvariant(s, users, moves[0]);
      MoveKeepsAccounted(s, users, moves[0], id);
      RunKeepsAccounted(Apply(s, users, moves[0]), users, moves[1..], id);
    }
  }

  /** Some continuation has called the queue for the job. */
  ghost predicate CanBeHandedOver(s: State, users: set<nat>, id: nat) {
    exists moves :: Feasible(s, users, moves) && Reach(s, users, moves).world.log[EnqueueCalled(id)] > 0
  }

  lemma EntitledHandsOver(s: State, users: set<nat>, id: nat, who: nat)
    requires who in s.actors && MayEnqueue(s.actors[who].pc, id)
    ensures CanBeHandedOver(s, users, id)
  {
    var move := Go(who, Call(Fine, 0, "", {}));
    var s' := Apply(s, users, move);
    assert [move][1..] == [] && Feasible(s', users, []) && Reach(s', users, []) == s';
    assert Feasible(s, users, [move]) && Reach(s, users, [move]) == s';
  }

  /** A job with a file was, or can still be, handed to the queue exactly when the winner of its upload was told. */
  lemma HandedOverExactly(s: State, users: set<nat>, id: nat)
    requires JobSafety.Invariant(s) && Accounted(s, id) && HasFile(s.world, id)
    ensures CanBeHandedOver(s, users, id) <==> s.world.log[UploadUnseen(id)] == 0
  {
    assert LogAgrees(s.world, id);
    if s.world.log[UploadUnseen(id)] == 0 {
      if Entitled(s, id) {
        var who :| who in s.actors && MayEnqueue(s.actors[who].pc, id);
        EntitledHandsOver(s, users, id, who);
      } else {
        assert Feasible(s, users, []) && Reach(s, users, []) == s;
      }
    } else {
      forall moves | Feasible(s, users, moves) ensures Reach(s, users, moves).world.log[EnqueueCalled(id)] == 0 {
        JobTheorems.OnlyTheWinnerEnqueues(s, users, moves, id);
      }
    }
  }

  /** So it is in every state the system reaches. */
  lemma UploadsAreHandedOverExactly(stored: map<string, Metadata>, users: set<nat>, moves: seq<Move>, id: nat)
    requires Feasible(Initially(stored), users, moves) && HasFile(Reach(Initially(stored), users, moves).world, id)
    ensures var s := Reach(Initially(stored), users, moves);
      CanBeHandedOver(s, users, id) <==> s.world.log[UploadUnseen(id)] == 0
  {
    JobTheorems.InitiallyOk(stored);
    JobTheorems.RunKeepsInvariant(Initially(stored), users, moves, id);
    RunKeepsAccounted(Initially(stored), users, moves, id);
    HandedOverExactly(Reach(Initially(stored), users, moves), users, id);
  }

  /** A pending job is accounted for: nobody won its upload yet. */
  lemma PendingIsAccounted(s: State, id: nat)
    requires JobSafety.Invariant(s) && id in s.world.jobs.rows && s.world.jobs.rows[id].status == Pending
    ensures Accounted(s, id)
  {
    assert LogAgrees(s.world, id) && Sound(s.world.jobs.rows[id]);
    forall who | who in s.actors ensures !MayEnqueue(s.actors[who].pc, id) {
      assert Grounded(s.world, s.actors[who].pc, id);
    }
  }

  lemma WinningUpload(s: State, users: set<nat>, who: nat, id: nat, file: FileRef, call: Call)
    requires JobSafety.Invariant(s) && who in s.actors && s.actors[who].pc == Storing(id, file)
    requires id in s.world.jobs.rows && s.world.jobs.rows[id].status == Pending && call.fault in {Fine, BreaksAfter}
    ensures var w' := Apply(s, users, Go(who, call)).world;
      HasFile(w', id) && w'.log[UploadUnseen(id)] == Flag(call.fault.BreaksAfter?)
  {
    assert LogAgrees(s.world, id) && Sound(s.world.jobs.rows[id]);
    JobTheorems.UploadMatches(s.world, id, file, call);
    NotedCounts(Upload(file), id, call, id);
  }

  /** Winning the upload of a pending job hands it over exactly when the winner sees that it won. */
  lemma WinnersHandOverExactly(s: State, users: set<nat>, who: nat, id: nat, file: FileRef, call: Call)
    requires JobSafety.Invariant(s) && who in s.actors && s.actors[who].pc == Storing(id, file)
    requires id in s.world.jobs.rows && s.world.jobs.rows[id].status == Pending && call.fault in {Fine, BreaksAfter}
    ensures CanBeHandedOver(Apply(s, users, Go(who, call)), users, id) <==> call.fault.Fine?
  {
    PendingIsAccounted(s, id);
    MoveKeepsInvariant(s, users, Go(who, call));
    MoveKeepsAccounted(s, users, Go(who, call), id);
    WinningUpload(s, users, who, id, file, call);
    HandedOverExactly(Apply(s, users, Go(who, call)), users, id);
  }
}

/** Where a job's output comes from, and whose jobs are confirmed, over every interleaving. */
module JobResults {
  import opened Prelude
  import opened JobTable
  import opened StoragePaths
  import opened JobProtocol
  import opened JobSafety
  import JobTheorems
  import JobOutcomes

  // ---------------------------------------------------------------- outputs are answers of the workflow

  /** The workflow answers at most once each time it runs. */
  ghost predicate AnswersCounted(w: World, id: nat) {
    && (forall x :: w.log[Answered(id, x)] <= w.log[Executed(id)])
    && (forall x, y :: x != y ==> w.log[Answered(id, x)] + w.log[Answered(id, y)] <= w.log[Executed(id)])
  }

  predicate IsCompleted(w: World, id: nat) {
    id in w.jobs.rows && w.jobs.rows[id].status == Completed
  }

  predicate OutputAnswered(w: World, id: nat) {
    IsCompleted(w, id) ==>
      w.jobs.rows[id].output.Some? && w.log[Answered(id, w.jobs.rows[id].output.value)] > 0
  }

  predicate HoldsAnswer(w: World, pc: Pc, id: nat) {
    pc.Completing? && pc.id == id ==> w.log[Answered(id, pc.output)] > 0
  }

  ghost predicate Produced(s: State) {
    && (forall id {:trigger AnswersCounted(s.world, id)} :: AnswersCounted(s.world, id))
    && (forall id {:trigger OutputAnswered(s.world, id)} :: OutputAnswered(s.world, id))
    && (forall who, id {:trigger HoldsAnswer(s.world, s.actors[who].pc, id)} ::
          who in s.actors ==> HoldsAnswer(s.world, s.actors[who].pc, id))
  }

  lemma {:induction false} WritesAnswerNothing(w: World, pc: Pc, call: Call, id: nat, x: string)
    requires Writes(pc)
    ensures var w' := Write(w, pc.id, Attempt(pc, call), call).0;
      w'.log[Answered(id, x)] == w.log[Answered(id, x)] && w'.log[Executed(id)] == w.log[Executed(id)]
  {
    var noted := Noted(Attempt(pc, call), pc.id, call);
    assert noted[Answered(id, x)] == 0 && noted[Executed(id)] == 0;
  }

  lemma {:induction false} LoggingAnswers(pc: Pc, call: Call, id: nat, x: string)
    ensures Logged(pc, call)[Answered(id, x)] == Flag(pc == Executing(id) && call.fault.Fine? && call.text == x)
    ensures Logged(pc, call)[Executed(id)] == Flag(pc == Executing(id))
  {
  }

  /** Running the workflow is the one step that logs an execution, and an answer. */
  lemma {:induction false} AnswersOf(w: World, users: set<nat>, actor: Actor, call: Call, id: nat, x: string)
    ensures var w' := Advance(w, users, actor, call).0;
      && w'.log[Answered(id, x)] ==
         w.log[Answered(id, x)] + Flag(actor.pc == Executing(id) && call.fault.Fine? && call.text == x)
      && w'.log[Executed(id)] == w.log[Executed(id)] + Flag(actor.pc == Executing(id))
  {
    if Writes(actor.pc) {
      WritesAnswerNothing(w, actor.pc, call, id, x);
    } else if !actor.pc.Creating? {
      OtherStepsOnlyLog(w, users, actor, call);
      LoggingAnswers(actor.pc, call, id, x);
    }
  }

  lemma AnswersStayCounted(w: World, users: set<nat>, actor: Actor, call: Call, id: nat)
    requires AnswersCounted(w, id)
    ensures AnswersCounted(Advance(w, users, actor, call).0, id)
  {
    var w' := Advance(w, users, actor, call).0;
    forall x ensures w'.log[Answered(id, x)] <= w'.log[Executed(id)] {
      AnswersOf(w, users, actor, call, id, x);
    }
    forall x, y | x != y ensures w'.log[Answered(id, x)] + w'.log[Answered(id, y)] <= w'.log[Executed(id)] {
      AnswersOf(w, users, actor, call, id, x);
      AnswersOf(w, users, actor, call, id, y);
    }
  }

  /** A job becomes completed only by the step that persists the output its actor holds. */
  lemma CompletionsOf(w: World, users: set<nat>, actor: Actor, call: Call, id: nat)
    requires JobTable.Invariant(w.jobs)
    ensures var w' := Advance(w, users, actor, call).0;
      IsCompleted(w', id) ==>
        || (IsCompleted(w, id) && w'.jobs.rows[id] == w.jobs.rows[id])
        || (actor.pc.Completing? && actor.pc.id == id && w'.jobs.rows[id].output == Some(actor.pc.output))
  {
    if Writes(actor.pc) {
      WriteKeepsTable(w, actor.pc.id, Attempt(actor.pc, call), call);
    } else if actor.pc.Creating? {
      CreationRows(w, users, actor, call, id);
    } else {
      OtherStepsOnlyLog(w, users, actor, call);
    }
  }

  lemma CreationRows(w: World, users: set<nat>, actor: Actor, call: Call, id: nat)
    requires JobTable.Invariant(w.jobs) && actor.pc.Creating?
    ensures var w' := Advance(w, users, actor, call).0;
      IsCompleted(w', id) ==> IsCompleted(w, id) && w'.jobs.rows[id] == w.jobs.rows[id]
  {
    if actor.role.Submitter? || actor.role.Preparer? {
      CreationKeepsInvariant(w.jobs, users, actor.role.request, call.now);
    }
  }

  /** An actor comes to hold an output only as the workflow's answer. */
  lemma HoldersExecuted(w: World, users: set<nat>, actor: Actor, call: Call)
    ensures var pc := Advance(w, users, actor, call).1;
      pc.Completing? ==> actor.pc == Executing(pc.id) && call.fault.Fine? && call.text == pc.output
  {
  }

  lemma GoKeepsProduced(s: State, users: set<nat>, who: nat, call: Call)
    requires JobSafety.Invariant(s) && Produced(s) && who in s.actors
    ensures Produced(Apply(s, users, Go(who, call)))
  {
    var s' := Apply(s, users, Go(who, call));
    var w, actor := s.world, s.actors[who];
    forall id ensures AnswersCounted(s'.world, id) {
      assert AnswersCounted(w, id);
      AnswersStayCounted(w, users, actor, call, id);
    }
    forall id ensures OutputAnswered(s'.world, id) {
      assert OutputAnswered(w, id) && HoldsAnswer(w, actor.pc, id);
      CompletionsOf(w, users, actor, call, id);
      if IsCompleted(s'.world, id) && s'.world.jobs.rows[id].output.Some? {
        AnswersOf(w, users, actor, call, id, s'.world.jobs.rows[id].output.value);
      }
    }
    forall other, id | other in s'.actors ensures HoldsAnswer(s'.world, s'.actors[other].pc, id) {
      HoldersExecuted(w, users, actor, call);
      assert HoldsAnswer(w, s.actors[other].pc, id);
      if s'.actors[other].pc.Completing? {
        AnswersOf(w, users, actor, call, id, s'.actors[other].pc.output);
      }
    }
  }

  lemma MoveKeepsProduced(s: State, users: set<nat>, move: Move)
    requires JobSafety.Invariant(s) && Produced(s) && Enabled(s, move)
    ensures Produced(Apply(s, users, move))
  {
    if move.Go? {
      GoKeepsProduced(s, users, move.who, move.call);
    } else {
      var s' := Apply(s, users, move);
      forall id ensures AnswersCounted(s'.world, id) && OutputAnswered(s'.world, id) {
        assert AnswersCounted(s.world, id) && OutputAnswered(s.world, id);
      }
      forall who, id | who in s'.actors ensures HoldsAnswer(s'.world, s'.actors[who].pc, id) {
        if who in s.actors { assert HoldsAnswer(s.world, s.actors[who].pc, id); }
      }
    }
  }

  lemma {:induction false} RunKeepsProduced(s: State, users: set<nat>, moves: seq<Move>)
    requires JobSafety.Invariant(s) && Produced(s) && Feasible(s, users, moves)
    ensures Produced(Reach(s, users, moves))
    decreases |moves|
  {
    if moves != [] {
      MoveKeepsInvariant(s, users, moves[0]);
      MoveKeepsProduced(s, users, moves[0]);
      RunKeepsProduced(Apply(s, users, moves[0]), users, moves[1..]);
    }
  }

  /**
   In every reachable state the workflow of a completed job has run exactly once, and the job's output is what it
   answered, and the only thing it ever answered for that job.
   */
  lemma OutputsAreAnswers(stored: map<string, Metadata>, users: set<nat>, moves: seq<Move>, id: nat)
    requires Feasible(Initially(stored), users, moves)
    requires IsCompleted(Reach(Initially(stored), users, moves).world, id)
    ensures var w := Reach(Initially(stored), users, moves).world;
      var output := w.jobs.rows[id].output;
      && w.log[Executed(id)] == 1
      && output.Some? && w.log[Answered(id, output.value)] == 1
      && forall x :: x != output.value ==> w.log[Answered(id, x)] == 0
  {
    var s := Initially(stored);
    JobTheorems.InitiallyOk(stored);
    RunKeepsProduced(s, users, moves);
    JobTheorems.AtMostOnce(stored, users, moves, id);
    var w := Reach(s, users, moves).world;
    assert AnswersCounted(w, id) && OutputAnswered(w, id);
  }

  // ---------------------------------------------------------------- confirmations are of one's own jobs

  /** The job a confirmer was asked to confirm, its own, with the upload it declared. */
  predicate OwnUpload(w: World, role: Role) {
    && role.Confirmer? && role.jobId in w.jobs.rows
    && w.jobs.rows[role.jobId].request.userId == role.userId
    && UsableUpload(w.jobs.rows[role.jobId].request.directUpload)
  }

  /** The key under which a confirmed upload has to be. */
  function OwnKey(w: World, role: Role): string
    requires OwnUpload(w, role)
  {
    JobInputKey(role.jobId, w.jobs.rows[role.jobId].request.directUpload.value.filename)
  }

  predicate Uploads(w: World, role: Role) {
    OwnUpload(w, role) && w.jobs.rows[role.jobId].file.Some? &&
    w.jobs.rows[role.jobId].file.value.key == OwnKey(w, role)
  }

  /** What a confirmer has made sure of, by how far it has come. */
  predicate Confirms(w: World, actor: Actor) {
    actor.role.Confirmer? ==>
      match actor.pc
      case Reading => true
      case Checking(i, upload) =>
        i == actor.role.jobId && OwnUpload(w, actor.role) &&
        w.jobs.rows[i].request.directUpload == Some(upload)
      case Storing(i, file) => i == actor.role.jobId && OwnUpload(w, actor.role) && file.key == OwnKey(w, actor.role)
      case Rereading(i, file) => i == actor.role.jobId && OwnUpload(w, actor.role) && file.key == OwnKey(w, actor.role)
      case Enqueuing(i) => i == actor.role.jobId && Uploads(w, actor.role)
      case Failing(i) => i == actor.role.jobId && OwnUpload(w, actor.role)
      case Ended(ok) => ok ==> Uploads(w, actor.role)
      case _ => false
  }

  /** Rows that only move forward keep what a confirmer knows. */
  lemma {:induction false} StillConfirms(w: World, w': World, actor: Actor)
    requires Confirms(w, actor)
    requires actor.role.Confirmer? && actor.role.jobId in w.jobs.rows ==>
      actor.role.jobId in w'.jobs.rows &&
      Follows(w.jobs.rows[actor.role.jobId], w'.jobs.rows[actor.role.jobId])
    ensures Confirms(w', actor)
  {
  }

  lemma {:induction false} UploadIsOwn(w: World, role: Role, file: FileRef, call: Call)
    requires OwnUpload(w, role) && file.key == OwnKey(w, role)
    ensures var (w', ok) := Write(w, role.jobId, Upload(file), call);
      OwnUpload(w', role) && OwnKey(w', role) == OwnKey(w, role) && (ok ==> Uploads(w', role))
  {
  }

  lemma {:induction false} FailingIsOwn(w: World, role: Role, call: Call)
    requires OwnUpload(w, role)
    ensures OwnUpload(Write(w, role.jobId, Fail(call.text, "failed"), call).0, role)
  {
  }

  lemma {:induction false} ConfirmerAdvances(w: World, users: set<nat>, actor: Actor, call: Call)
    requires Confirms(w, actor) && actor.role.Confirmer?
    ensures var (w', pc) := Advance(w, users, actor, call);
      Confirms(w', actor.(pc := pc))
  {
    match actor.pc
    case Storing(i, file) => UploadIsOwn(w, actor.role, file, call);
    case Failing(i) => FailingIsOwn(w, actor.role, call);
    case _ => OtherConfirmerSteps(w, users, actor, call);
  }

  lemma {:induction false} OtherConfirmerSteps(w: World, users: set<nat>, actor: Actor, call: Call)
    requires Confirms(w, actor) && actor.role.Confirmer? && !actor.pc.Storing? && !actor.pc.Failing?
    ensures var (w', pc) := Advance(w, users, actor, call);
      Confirms(w', actor.(pc := pc))
  {
    var Actor(role, pc) := actor;
    match pc {
      case Reading => JobOutcomes.ReadStep(w, users, role.userId, role.jobId, call);
      case Checking(i, upload) => JobOutcomes.CheckStep(w, users, role, i, upload, call);
      case Rereading(i, file) => JobOutcomes.RereadStep(w, users, role.userId, i, file, call);
      case Enqueuing(i) => JobOutcomes.RetryEnds(w, users, role, i, call);
      case Ended(ok) => JobOutcomes.RetryEnds(w, users, role, 0, call);
    }
    StepsConfirm(w, actor, Advance(w, users, actor, call).0, Advance(w, users, actor, call).1);
  }

  /** What these calls may come to, given what the confirmer knew before. */
  predicate NextForConfirmer(w: World, actor: Actor, w': World, pc: Pc)
    requires actor.role.Confirmer? && Confirms(w, actor)
  {
    && w'.jobs == w.jobs
    && match pc
       case Checking(i, upload) =>
         actor.pc.Reading? && i == actor.role.jobId && OwnUpload(w, actor.role) &&
         w.jobs.rows[i].request.directUpload == Some(upload)
       case Storing(i, file) =>
         actor.pc.Checking? && i == actor.pc.id && file.key == JobInputKey(i, actor.pc.upload.filename)
       case Failing(i) => actor.pc == Enqueuing(i)
       case Ended(ok) =>
         ok ==>
           || actor.pc.Enqueuing? || actor.pc == pc
           || (actor.pc.Reading? && Uploads(w, actor.role))
           || (actor.pc.Rereading? && w.jobs.rows[actor.pc.id].file.Some? &&
               w.jobs.rows[actor.pc.id].file.value.key == actor.pc.file.key)
       case _ => false
  }

  lemma {:induction false} StepsConfirm(w: World, actor: Actor, w': World, pc: Pc)
    requires Confirms(w, actor) && actor.role.Confirmer? && NextForConfirmer(w, actor, w', pc)
    ensures Confirms(w', actor.(pc := pc))
  {
  }

  ghost predicate AllConfirm(s: State) {
    forall who {:trigger Confirms(s.world, s.actors[who])} :: who in s.actors ==> Confirms(s.world, s.actors[who])
  }

  lemma {:induction false} MoveKeepsConfirms(s: State, users: set<nat>, move: Move)
    requires JobSafety.Invariant(s) && AllConfirm(s) && Enabled(s, move)
    ensures AllConfirm(Apply(s, users, move))
  {
    var s' := Apply(s, users, move);
    forall who | who in s'.actors ensures Confirms(s'.world, s'.actors[who]) {
      if who in s.actors {
        assert Confirms(s.world, s.actors[who]);
        var role := s.actors[who].role;
        if move.Go? && who == move.who && role.Confirmer? {
          ConfirmerAdvances(s.world, users, s.actors[who], move.call);
        } else if role.Confirmer? {
          if role.jobId in s.world.jobs.rows { JobTheorems.GoFollows(s, users, move, role.jobId); }
          StillConfirms(s.world, s'.world, s.actors[who]);
        }
      }
    }
  }

  lemma {:induction false} RunKeepsConfirms(s: State, users: set<nat>, moves: seq<Move>)
    requires JobSafety.Invariant(s) && AllConfirm(s) && Feasible(s, users, moves)
    ensures AllConfirm(Reach(s, users, moves))
    decreases |moves|
  {
    if moves != [] {
      MoveKeepsInvariant(s, users, moves[0]);
      MoveKeepsConfirms(s, users, moves[0]);
      RunKeepsConfirms(Apply(s, users, moves[0]), users, moves[1..]);
    }
  }

  /**
   Over every interleaving, a confirmation that reports success was of the caller's own job, which has its file under
   the key declared for it; and only such a confirmer ever gets to mark a job uploaded or to enqueue it.
   */
  lemma ConfirmedJobsAreOwn(stored: map<string, Metadata>, users: set<nat>, moves: seq<Move>, who: nat)
    requires Feasible(Initially(stored), users, moves)
    requires who in Reach(Initially(stored), users, moves).actors
    requires Reach(Initially(stored), users, moves).actors[who].role.Confirmer?
    ensures var s := Reach(Initially(stored), users, moves);
      var (role, pc) := (s.actors[who].role, s.actors[who].pc);
      && (pc == Ended(true) || pc.Enqueuing? ==>
            && role.jobId in s.world.jobs.rows && s.world.jobs.rows[role.jobId].request.userId == role.userId
            && s.world.jobs.rows[role.jobId].request.directUpload.Some?
            && s.world.jobs.rows[role.jobId].file.Some?
            && s.world.jobs.rows[role.jobId].file.value.key ==
               JobInputKey(role.jobId, s.world.jobs.rows[role.jobId].request.directUpload.value.filename))
      && (pc.Storing? || pc.Enqueuing? ==>
            pc.id == role.jobId && pc.id in s.world.jobs.rows &&
            s.world.jobs.rows[pc.id].request.userId == role.userId)
  {
    var s := Initially(stored);
    JobTheorems.InitiallyOk(stored);
    RunKeepsConfirms(s, users, moves);
    assert Confirms(Reach(s, users, moves).world, Reach(s, users, moves).actors[who]);
  }
}

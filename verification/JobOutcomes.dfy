/**
 What one actor comes to that is left alone, whatever goes wrong with its own calls: the answer, the row column by
 column, what is logged and which files are left.
 */
module JobOutcomes {
  import opened Prelude
  import opened JobTable
  import opened StoragePaths
  import opened JobProtocol
  import opened JobTheorems

  /** A transaction or a write that took effect, whether or not its caller was told. */
  predicate TookEffect(fault: Fault) {
    fault in {Fine, BreaksAfter}
  }

  /** One call, and then the rest. */
  lemma Onward(w: World, users: set<nat>, actor: Actor, calls: seq<Call>, i: nat)
    requires i < |calls|
    ensures var (w', pc) := Advance(w, users, actor, calls[i]);
      Alone(w, users, actor, calls, i) == Alone(w', users, actor.(pc := pc), calls, i + 1)
  {
  }

  /** The world in which one job has this row, some call deleted its files, and this happened besides. */
  function Left(w: World, id: nat, job: Job, deletion: Option<Call>, events: multiset<Event>): World {
    World(w.jobs.(rows := w.jobs.rows[id := job]),
          if deletion.Some? then WithoutPrefix(w.stored, id, deletion.value) else w.stored,
          w.log + events)
  }

  lemma LeftTwice(
    w: World, id: nat, a: Job, b: Job, deletion: Option<Call>, e: multiset<Event>, f: multiset<Event>)
    ensures Left(Left(w, id, a, None, e), id, b, deletion, f) == Left(w, id, b, deletion, e + f)
  {
    assert w.jobs.rows[id := a][id := b] == w.jobs.rows[id := b];
    assert w.log + e + f == w.log + (e + f);
  }

  lemma LeftSame(w: World, id: nat)
    requires id in w.jobs.rows
    ensures Left(w, id, w.jobs.rows[id], None, multiset{}) == w
  {
    assert w.jobs.rows[id := w.jobs.rows[id]] == w.jobs.rows;
  }

  // ---------------------------------------------------------------- the worker

  function FailedRow(job: Job, text: string, step: string, now: Time): Job {
    job.(status := Failed, step := step, error := Some(text), finishedAt := Some(now))
  }

  function RunningRow(job: Job, now: Time): Job {
    job.(status := Running, step := "running_pipeline", startedAt := Some(now))
  }

  function CompletedRow(job: Job, output: string, now: Time): Job {
    job.(status := Completed, step := "completed", output := Some(output), finishedAt := Some(now))
  }

  lemma {:induction false} ExecuteStep(w: World, users: set<nat>, id: nat, call: Call)
    ensures Advance(w, users, Actor(Worker(id), Executing(id)), call) ==
      (w.(log := w.log + Execution(id, call)),
       if call.fault.Fine? then Completing(id, call.text) else Aborting(id))
  {
  }

  lemma {:induction false} ResolveStep(w: World, users: set<nat>, id: nat, file: FileRef, call: Call)
    ensures Advance(w, users, Actor(Worker(id), Resolving(id, file)), call) ==
      (w, if call.fault.Fine? && file.key in w.stored then Executing(id) else Aborting(id))
  {
  }

  /** Marking a job failed, which only a job that has not ended lets happen. */
  lemma {:induction false} AbortStep(w: World, users: set<nat>, id: nat, call: Call)
    requires id in w.jobs.rows
    ensures var job := w.jobs.rows[id];
      Advance(w, users, Actor(Worker(id), Aborting(id)), call) ==
      if !Terminal(job.status) && TookEffect(call.fault)
      then (Left(w, id, FailedRow(job, call.text, "running_pipeline", call.now), None, multiset{TerminalWon(id)}),
            if call.fault.Fine? then Deleting(id, false) else Ended(false))
      else (w, Ended(false))
  {
    assert Noted(Fail(call.text, RUNNING_STEP), id, call) == multiset{TerminalWon(id)};
  }

  /** Marking a running job completed. */
  lemma {:induction false} CompleteStep(w: World, users: set<nat>, id: nat, output: string, call: Call)
    requires id in w.jobs.rows && w.jobs.rows[id].status == Running
    ensures Advance(w, users, Actor(Worker(id), Completing(id, output)), call) ==
      if TookEffect(call.fault)
      then (Left(w, id, CompletedRow(w.jobs.rows[id], output, call.now), None, multiset{TerminalWon(id)}),
            if call.fault.Fine? then Deleting(id, true) else Aborting(id))
      else (w, Aborting(id))
  {
    assert Noted(Complete(output), id, call) == multiset{TerminalWon(id)};
  }

  /** Deleting the files ends the worker's run; the call may fail part of the way. */
  lemma {:induction false} DeletingAlone(w: World, users: set<nat>, id: nat, ok: bool, calls: seq<Call>, i: nat)
    requires i < |calls| && id in w.jobs.rows
    ensures Alone(w, users, Actor(Worker(id), Deleting(id, ok)), calls, i) ==
      (Left(w, id, w.jobs.rows[id], Some(calls[i]), multiset{DeletionIssued(id)}), Ended(ok))
  {
    var w1 := Log(w.(stored := WithoutPrefix(w.stored, id, calls[i])), DeletionIssued(id));
    Onward(w, users, Actor(Worker(id), Deleting(id, ok)), calls, i);
    EndedStaysEnded(w1, users, Actor(Worker(id), Ended(ok)), calls, i + 1);
    assert w.jobs.rows[id := w.jobs.rows[id]] == w.jobs.rows;
  }

  /** What an attempt to mark a job failed logs, together with the deletion that may follow. */
  function Ending(id: nat, ends: bool, deletes: bool): multiset<Event> {
    if deletes then multiset{TerminalWon(id), DeletionIssued(id)}
    else if ends then multiset{TerminalWon(id)}
    else multiset{}
  }

  /**
   The failure path, with calls `i` and `i + 1`: a running job is failed if that takes effect, and its files are deleted
   exactly when the worker saw it take effect. A job that has ended keeps its row and its files.
   */
  lemma {:induction false} AbortingAlone(w: World, users: set<nat>, id: nat, calls: seq<Call>, i: nat)
    requires i + 1 < |calls| && id in w.jobs.rows
    ensures var job := w.jobs.rows[id];
      var fails := !Terminal(job.status) && TookEffect(calls[i].fault);
      var deletes := fails && calls[i].fault.Fine?;
      Alone(w, users, Actor(Worker(id), Aborting(id)), calls, i) ==
      (Left(w, id, if fails then FailedRow(job, calls[i].text, "running_pipeline", calls[i].now) else job,
            if deletes then Some(calls[i + 1]) else None, Ending(id, fails, deletes)),
       Ended(false))
  {
    var actor := Actor(Worker(id), Aborting(id));
    Onward(w, users, actor, calls, i);
    AbortStep(w, users, id, calls[i]);
    var (w1, pc1) := Advance(w, users, actor, calls[i]);
    if pc1.Deleting? {
      DeletingAlone(w1, users, id, false, calls, i + 1);
      LeftTwice(w, id, w1.jobs.rows[id], w1.jobs.rows[id], Some(calls[i + 1]), multiset{TerminalWon(id)},
                multiset{DeletionIssued(id)});
      assert multiset{TerminalWon(id)} + multiset{DeletionIssued(id)} == Ending(id, true, true);
    } else {
      EndedStaysEnded(w1, users, actor.(pc := pc1), calls, i + 1);
      LeftSame(w, id);
    }
  }

  /** A job that has ended is left alone. */
  lemma {:induction false} AbortingInVain(w: World, users: set<nat>, id: nat, calls: seq<Call>, i: nat)
    requires i < |calls| && id in w.jobs.rows && Terminal(w.jobs.rows[id].status)
    ensures Alone(w, users, Actor(Worker(id), Aborting(id)), calls, i) == (w, Ended(false))
  {
    var actor := Actor(Worker(id), Aborting(id));
    Onward(w, users, actor, calls, i);
    AbortStep(w, users, id, calls[i]);
    EndedStaysEnded(w, users, actor.(pc := Ended(false)), calls, i + 1);
  }

  /** How a worker's run ends that has claimed its job, by the faults of its calls from `2` on. */
  datatype Work = Work(executed: bool, completed: bool, failing: nat, failed: bool, deletion: Option<nat>, ok: bool)

  /** `present`: the input file is in the store. `failing` is the call that tries to mark the job failed. */
  function WorkOf(present: bool, calls: seq<Call>): (work: Work)
    requires |calls| == 7
    ensures work.failing < 6 && (work.deletion.Some? ==> work.deletion.value < 7)
  {
    var executed := calls[2].fault.Fine? && present;
    var answered := executed && calls[3].fault.Fine?;
    var completed, ok := answered && TookEffect(calls[4].fault), answered && calls[4].fault.Fine?;
    var failing := if answered then 5 else if executed then 4 else 3;
    var failed := !completed && TookEffect(calls[failing].fault);
    Work(executed, completed, failing, failed,
         if ok then Some(5) else if failed && calls[failing].fault.Fine? then Some(failing + 1) else None, ok)
  }

  /** What the row becomes of a claimed job, given its running row. */
  function RowAfter(running: Job, calls: seq<Call>, work: Work): Job
    requires |calls| == 7 && work.failing < 6
  {
    if work.completed then CompletedRow(running, calls[3].text, calls[4].now)
    else if work.failed then
      FailedRow(running, calls[work.failing].text, "running_pipeline", calls[work.failing].now)
    else running
  }

  /** The world such a run leaves, and its answer. */
  function Worked(w: World, id: nat, present: bool, calls: seq<Call>): (World, Pc)
    requires |calls| == 7 && id in w.jobs.rows
  {
    var work := WorkOf(present, calls);
    (Left(w, id, RowAfter(w.jobs.rows[id], calls, work),
          if work.deletion.Some? then Some(calls[work.deletion.value]) else None,
          (if work.executed then Execution(id, calls[3]) else multiset{}) +
          Ending(id, work.completed || work.failed, work.deletion.Some?)),
     Ended(work.ok))
  }

  /**
   What persisting the workflow's answer comes to. A commit whose answer is lost leaves a completed job with its files,
   and a worker that reports failure.
   */
  function Completion(w: World, id: nat, output: string, calls: seq<Call>): (World, Pc)
    requires |calls| == 7 && id in w.jobs.rows
  {
    var job, told := w.jobs.rows[id], calls[4].fault.Fine?;
    if TookEffect(calls[4].fault) then
      (Left(w, id, CompletedRow(job, output, calls[4].now), if told then Some(calls[5]) else None,
            Ending(id, true, told)),
       Ended(told))
    else
      var fails, deletes := TookEffect(calls[5].fault), calls[5].fault.Fine?;
      (Left(w, id, if fails then FailedRow(job, calls[5].text, "running_pipeline", calls[5].now) else job,
            if deletes then Some(calls[6]) else None, Ending(id, fails, deletes)),
       Ended(false))
  }

  lemma {:induction false} CompletionSeen(w: World, users: set<nat>, id: nat, output: string, calls: seq<Call>)
    requires |calls| == 7 && id in w.jobs.rows && w.jobs.rows[id].status == Running && calls[4].fault.Fine?
    ensures Alone(w, users, Actor(Worker(id), Completing(id, output)), calls, 4) == Completion(w, id, output, calls)
  {
    var row := CompletedRow(w.jobs.rows[id], output, calls[4].now);
    Onward(w, users, Actor(Worker(id), Completing(id, output)), calls, 4);
    CompleteStep(w, users, id, output, calls[4]);
    DeletingAlone(Left(w, id, row, None, multiset{TerminalWon(id)}), users, id, true, calls, 5);
    LeftTwice(w, id, row, row, Some(calls[5]), multiset{TerminalWon(id)}, multiset{DeletionIssued(id)});
    assert multiset{TerminalWon(id)} + multiset{DeletionIssued(id)} == Ending(id, true, true);
  }

  lemma {:induction false} CompletionUnseen(w: World, users: set<nat>, id: nat, output: string, calls: seq<Call>)
    requires |calls| == 7 && id in w.jobs.rows && w.jobs.rows[id].status == Running && calls[4].fault.BreaksAfter?
    ensures Alone(w, users, Actor(Worker(id), Completing(id, output)), calls, 4) == Completion(w, id, output, calls)
  {
    var row := CompletedRow(w.jobs.rows[id], output, calls[4].now);
    Onward(w, users, Actor(Worker(id), Completing(id, output)), calls, 4);
    CompleteStep(w, users, id, output, calls[4]);
    AbortingInVain(Left(w, id, row, None, multiset{TerminalWon(id)}), users, id, calls, 5);
  }

  lemma {:induction false} CompletionLost(w: World, users: set<nat>, id: nat, output: string, calls: seq<Call>)
    requires |calls| == 7 && id in w.jobs.rows && w.jobs.rows[id].status == Running && !TookEffect(calls[4].fault)
    ensures Alone(w, users, Actor(Worker(id), Completing(id, output)), calls, 4) == Completion(w, id, output, calls)
  {
    Onward(w, users, Actor(Worker(id), Completing(id, output)), calls, 4);
    CompleteStep(w, users, id, output, calls[4]);
    AbortingAlone(w, users, id, calls, 5);
  }

  lemma {:induction false} CompletingAlone(w: World, users: set<nat>, id: nat, output: string, calls: seq<Call>)
    requires |calls| == 7 && id in w.jobs.rows && w.jobs.rows[id].status == Running
    ensures Alone(w, users, Actor(Worker(id), Completing(id, output)), calls, 4) == Completion(w, id, output, calls)
  {
    if calls[4].fault.Fine? {
      CompletionSeen(w, users, id, output, calls);
    } else if calls[4].fault.BreaksAfter? {
      CompletionUnseen(w, users, id, output, calls);
    } else {
      CompletionLost(w, users, id, output, calls);
    }
  }

  lemma {:induction false} ExecutingAlone(w: World, users: set<nat>, id: nat, calls: seq<Call>)
    requires |calls| == 7 && id in w.jobs.rows && w.jobs.rows[id].status == Running && calls[2].fault.Fine?
    ensures Alone(w, users, Actor(Worker(id), Executing(id)), calls, 3) == Worked(w, id, true, calls)
  {
    var actor := Actor(Worker(id), Executing(id));
    var events := Execution(id, calls[3]);
    var work := WorkOf(true, calls);
    Onward(w, users, actor, calls, 3);
    ExecuteStep(w, users, id, calls[3]);
    var w1 := w.(log := w.log + events);
    assert w1 == Left(w, id, w.jobs.rows[id], None, events) by { LeftSame(w, id); }
    if calls[3].fault.Fine? {
      CompletingAlone(w1, users, id, calls[3].text, calls);
    } else {
      AbortingAlone(w1, users, id, calls, 4);
    }
    LeftTwice(w, id, w.jobs.rows[id], RowAfter(w.jobs.rows[id], calls, work),
              if work.deletion.Some? then Some(calls[work.deletion.value]) else None, events,
              Ending(id, work.completed || work.failed, work.deletion.Some?));
  }

  /** What a run comes to that could not resolve its input. */
  lemma {:induction false} Unresolved(w: World, id: nat, present: bool, calls: seq<Call>)
    requires |calls| == 7 && id in w.jobs.rows && !(calls[2].fault.Fine? && present)
    ensures var job, fails := w.jobs.rows[id], TookEffect(calls[3].fault);
      var deletes := calls[3].fault.Fine?;
      Worked(w, id, present, calls) ==
      (Left(w, id, if fails then FailedRow(job, calls[3].text, "running_pipeline", calls[3].now) else job,
            if deletes then Some(calls[4]) else None, Ending(id, fails, deletes)),
       Ended(false))
  {
    assert forall e: multiset<Event> :: multiset{} + e == e;
  }

  lemma {:induction false} UnresolvedAlone(w: World, users: set<nat>, id: nat, present: bool, calls: seq<Call>)
    requires |calls| == 7 && id in w.jobs.rows && w.jobs.rows[id].status == Running
    requires !(calls[2].fault.Fine? && present)
    ensures Alone(w, users, Actor(Worker(id), Aborting(id)), calls, 3) == Worked(w, id, present, calls)
  {
    Unresolved(w, id, present, calls);
    AbortingAlone(w, users, id, calls, 3);
  }

  lemma {:induction false} ResolveFirst(w: World, users: set<nat>, id: nat, file: FileRef, calls: seq<Call>)
    requires |calls| == 7
    ensures Alone(w, users, Actor(Worker(id), Resolving(id, file)), calls, 2) ==
            Alone(w, users,
                  Actor(Worker(id),
                        if calls[2].fault.Fine? && file.key in w.stored then Executing(id) else Aborting(id)),
                  calls, 3)
  {
    Onward(w, users, Actor(Worker(id), Resolving(id, file)), calls, 2);
    ResolveStep(w, users, id, file, calls[2]);
  }

  lemma {:induction false} ResolvingAlone(w: World, users: set<nat>, id: nat, file: FileRef, calls: seq<Call>)
    requires |calls| == 7 && id in w.jobs.rows && w.jobs.rows[id].status == Running
    ensures Alone(w, users, Actor(Worker(id), Resolving(id, file)), calls, 2) ==
            Worked(w, id, file.key in w.stored, calls)
  {
    ResolveFirst(w, users, id, file, calls);
    if calls[2].fault.Fine? && file.key in w.stored {
      ExecutingAlone(w, users, id, calls);
    } else {
      UnresolvedAlone(w, users, id, file.key in w.stored, calls);
    }
  }

  /** The world after a worker's claim of a job. */
  function Claimed(w: World, id: nat, call: Call): World
    requires id in w.jobs.rows
  {
    Left(w, id, RunningRow(w.jobs.rows[id], call.now), None, multiset{RunningWon(id)})
  }

  lemma {:induction false} ClaimStep(w: World, users: set<nat>, id: nat, call: Call)
    requires id in w.jobs.rows && w.jobs.rows[id].status == Uploaded && w.jobs.rows[id].file.Some?
    ensures Advance(w, users, Actor(Worker(id), Claiming(id)), call) ==
      (if TookEffect(call.fault) then Claimed(w, id, call) else w,
       if call.fault.Fine? then Resolving(id, w.jobs.rows[id].file.value) else Ended(false))
  {
    assert Noted(Start(RUNNING_STEP), id, call) == multiset{RunningWon(id)};
  }

  lemma {:induction false} LoadStep(w: World, users: set<nat>, id: nat, call: Call)
    ensures Advance(w, users, Actor(Worker(id), Loading), call) ==
      (w, if call.fault.Fine? && id in w.jobs.rows && w.jobs.rows[id].status == Uploaded then Claiming(id)
          else Ended(false))
  {
  }

  /**
   A worker's run, whatever its seven calls do. It changes something exactly when it found the job uploaded and its
   claim took effect. A claim it was not told of leaves the job running for good. Otherwise the workflow runs once if
   the input was there, and the job ends completed with its answer, failed with the error, or stays running; the files
   are deleted exactly when the worker saw the end being persisted; and it succeeds exactly when it saw the completion.
   */
  lemma {:induction false} WorkOutcome(w: World, users: set<nat>, id: nat, calls: seq<Call>)
    requires JobTable.Invariant(w.jobs) && |calls| == 7
    ensures Alone(w, users, Actor(Worker(id), Loading), calls, 0) ==
      if id !in w.jobs.rows || w.jobs.rows[id].status != Uploaded || !calls[0].fault.Fine? ||
         !TookEffect(calls[1].fault)
      then (w, Ended(false))
      else if !calls[1].fault.Fine? then (Claimed(w, id, calls[1]), Ended(false))
      else Worked(Claimed(w, id, calls[1]), id,
                  w.jobs.rows[id].file.Some? && w.jobs.rows[id].file.value.key in w.stored, calls)
  {
    var actor := Actor(Worker(id), Loading);
    Onward(w, users, actor, calls, 0);
    LoadStep(w, users, id, calls[0]);
    var pc1 := Advance(w, users, actor, calls[0]).1;
    if pc1.Ended? {
      EndedStaysEnded(w, users, actor.(pc := pc1), calls, 1);
    } else {
      assert Sound(w.jobs.rows[id]);
      Onward(w, users, actor.(pc := pc1), calls, 1);
      ClaimStep(w, users, id, calls[1]);
      var (w2, pc2) := Advance(w, users, actor.(pc := pc1), calls[1]);
      if pc2.Ended? {
        EndedStaysEnded(w2, users, actor.(pc := pc2), calls, 2);
      } else {
        ResolvingAlone(w2, users, id, w.jobs.rows[id].file.value, calls);
      }
    }
  }

  /**
   A worker succeeds exactly when it found the job uploaded with its input in the store and saw five calls through: the
   workflow has then run once, its answer is the output, and the deletion of the job's files was issued.
   */
  lemma {:induction false} WorkSucceedsExactly(w: World, users: set<nat>, id: nat, calls: seq<Call>)
    requires JobTable.Invariant(w.jobs) && |calls| == 7
    ensures var (w', pc) := Alone(w, users, Actor(Worker(id), Loading), calls, 0);
      && (pc == Ended(true) <==>
            && id in w.jobs.rows && w.jobs.rows[id].status == Uploaded
            && w.jobs.rows[id].file.Some? && w.jobs.rows[id].file.value.key in w.stored
            && forall i :: 0 <= i < 5 ==> calls[i].fault.Fine?)
      && (pc == Ended(true) ==>
            && id in w'.jobs.rows
            && w'.jobs.rows[id].status == Completed && w'.jobs.rows[id].output == Some(calls[3].text)
            && w'.jobs.rows[id].file == w.jobs.rows[id].file && w'.jobs.rows[id].error == w.jobs.rows[id].error
            && w'.jobs.rows[id].startedAt == Some(calls[1].now)
            && w'.jobs.rows[id].finishedAt == Some(calls[4].now)
            && w'.log[Executed(id)] == w.log[Executed(id)] + 1
            && w'.log[DeletionIssued(id)] == w.log[DeletionIssued(id)] + 1
            && w'.stored == WithoutPrefix(w.stored, id, calls[5])
            && (calls[5].fault.Fine? ==>
                  forall key :: key in w'.stored <==> key in w.stored && !(JobPrefix(id) <= key)))
  {
    WorkOutcome(w, users, id, calls);
    if id in w.jobs.rows {
      assert Sound(w.jobs.rows[id]);
    }
  }

  // ---------------------------------------------------------------- failing and enqueueing

  lemma RetryEnds(w: World, users: set<nat>, role: Role, id: nat, call: Call)
    ensures Advance(w, users, Actor(role, Enqueuing(id)), call) ==
      (Log(w, EnqueueCalled(id)), if call.fault.Fine? then Ended(true) else Failing(id))
    ensures Advance(w, users, Actor(role, Failing(id)), call) ==
      (Write(w, id, Fail(call.text, "failed"), call).0, Ended(false))
    ensures forall ok :: Advance(w, users, Actor(role, Ended(ok)), call) == (w, Ended(ok))
  {
  }

  /** A submitter, preparer or confirmer marks the job failed, unless it has ended. */
  lemma {:induction false} FailingAlone(w: World, users: set<nat>, role: Role, id: nat, calls: seq<Call>, i: nat)
    requires i < |calls| && id in w.jobs.rows
    ensures var job := w.jobs.rows[id];
      Alone(w, users, Actor(role, Failing(id)), calls, i) ==
      (if !Terminal(job.status) && TookEffect(calls[i].fault)
       then Left(w, id, FailedRow(job, calls[i].text, "failed", calls[i].now), None, multiset{TerminalWon(id)}) else w,
       Ended(false))
  {
    assert Noted(Fail(calls[i].text, "failed"), id, calls[i]) == multiset{TerminalWon(id)};
    RetryEnds(w, users, role, id, calls[i]);
    Onward(w, users, Actor(role, Failing(id)), calls, i);
    EndedStaysEnded(Advance(w, users, Actor(role, Failing(id)), calls[i]).0, users, Actor(role, Ended(false)), calls,
                    i + 1);
  }

  /** What calling the queue for an uploaded job comes to, with calls `i` and `i + 1`. */
  function Enqueued(w: World, id: nat, calls: seq<Call>, i: nat): (World, Pc)
    requires i + 1 < |calls| && id in w.jobs.rows
  {
    var fails := !calls[i].fault.Fine? && TookEffect(calls[i + 1].fault);
    (Left(w, id,
          if fails then FailedRow(w.jobs.rows[id], calls[i + 1].text, "failed", calls[i + 1].now) else w.jobs.rows[id],
          None,
          if fails then multiset{EnqueueCalled(id), TerminalWon(id)} else multiset{EnqueueCalled(id)}),
     Ended(calls[i].fault.Fine?))
  }

  lemma {:induction false} EnqueuingAlone(w: World, users: set<nat>, role: Role, id: nat, calls: seq<Call>, i: nat)
    requires i + 1 < |calls| && id in w.jobs.rows && w.jobs.rows[id].status == Uploaded
    ensures Alone(w, users, Actor(role, Enqueuing(id)), calls, i) == Enqueued(w, id, calls, i)
  {
    var w1 := Log(w, EnqueueCalled(id));
    RetryEnds(w, users, role, id, calls[i]);
    Onward(w, users, Actor(role, Enqueuing(id)), calls, i);
    assert w1 == Left(w, id, w.jobs.rows[id], None, multiset{EnqueueCalled(id)}) by { LeftSame(w, id); }
    if calls[i].fault.Fine? {
      EndedStaysEnded(w1, users, Actor(role, Ended(true)), calls, i + 1);
    } else {
      FailingAlone(w1, users, role, id, calls, i + 1);
      var failed := FailedRow(w.jobs.rows[id], calls[i + 1].text, "failed", calls[i + 1].now);
      LeftTwice(w, id, w.jobs.rows[id], failed, None, multiset{EnqueueCalled(id)}, multiset{TerminalWon(id)});
      assert multiset{EnqueueCalled(id)} + multiset{TerminalWon(id)} == multiset{EnqueueCalled(id), TerminalWon(id)};
    }
  }

  function UploadedRow(job: Job, file: FileRef): Job {
    job.(status := Uploaded, step := "uploaded", file := Some(file))
  }

  /** The guarded UPDATE of an upload that wins, told or not. */
  lemma {:induction false} UploadStep(w: World, id: nat, file: FileRef, call: Call)
    requires id in w.jobs.rows
    ensures Write(w, id, Upload(file), call) ==
      if w.jobs.rows[id].status == Pending && TookEffect(call.fault)
      then (Left(w, id, UploadedRow(w.jobs.rows[id], file), None,
                 if call.fault.Fine? then multiset{UploadWon(id)} else multiset{UploadWon(id), UploadUnseen(id)}),
            call.fault.Fine?)
      else (w, false)
  {
    assert multiset{UploadWon(id)} + multiset{UploadUnseen(id)} == multiset{UploadWon(id), UploadUnseen(id)};
    assert multiset{UploadWon(id)} + multiset{} == multiset{UploadWon(id)};
  }

  // ---------------------------------------------------------------- confirming an upload

  /** The caller's own job, with a usable declaration of its upload. */
  predicate OwnJob(w: World, userId: nat, id: nat) {
    && id in w.jobs.rows && w.jobs.rows[id].request.userId == userId
    && var upload := w.jobs.rows[id].request.directUpload;
    upload.Some? && !Blank(upload.value.filename) && !Blank(upload.value.contentType) && upload.value.size > 0
  }

  /** The object under the declared key has the declared size and media type. */
  predicate ObjectAgrees(w: World, id: nat, upload: DirectUpload) {
    var key := JobInputKey(id, upload.filename);
    key in w.stored && w.stored[key] == Metadata(upload.size, MediaType(upload.contentType))
  }

  /** What a confirmation comes to that is about to mark its pending job uploaded, from call 2 on. */
  function Uploading(w: World, id: nat, file: FileRef, calls: seq<Call>): (World, Pc)
    requires |calls| == 5 && id in w.jobs.rows
  {
    var row := UploadedRow(w.jobs.rows[id], file);
    if calls[2].fault.Fine? then Enqueued(Left(w, id, row, None, multiset{UploadWon(id)}), id, calls, 3)
    else if TookEffect(calls[2].fault) then
      (Left(w, id, row, None, multiset{UploadWon(id), UploadUnseen(id)}), Ended(false))
    else (w, Ended(false))
  }

  lemma {:induction false} StoringStep(w: World, users: set<nat>, userId: nat, id: nat, file: FileRef, call: Call)
    requires id in w.jobs.rows
    ensures var (w', ok) := Write(w, id, Upload(file), call);
      Advance(w, users, Actor(Confirmer(userId, id), Storing(id, file)), call) ==
      (w', if ok then Enqueuing(id)
           else if call.fault in {BreaksBefore, BreaksAfter} then Ended(false)
           else Rereading(id, file))
  {
  }

  lemma {:induction false} RereadStep(w: World, users: set<nat>, userId: nat, id: nat, file: FileRef, call: Call)
    requires id in w.jobs.rows
    ensures var job := w.jobs.rows[id];
      Advance(w, users, Actor(Confirmer(userId, id), Rereading(id, file)), call) ==
      (w, Ended(call.fault.Fine? && job.request.userId == userId && job.status == Uploaded &&
                job.file.Some? && job.file.value.key == file.key))
  {
  }

  lemma {:induction false} UploadingAlone(
    w: World, users: set<nat>, userId: nat, id: nat, file: FileRef, calls: seq<Call>)
    requires |calls| == 5 && id in w.jobs.rows && w.jobs.rows[id].status == Pending
    ensures Alone(w, users, Actor(Confirmer(userId, id), Storing(id, file)), calls, 2) == Uploading(w, id, file, calls)
  {
    var actor := Actor(Confirmer(userId, id), Storing(id, file));
    Onward(w, users, actor, calls, 2);
    StoringStep(w, users, userId, id, file, calls[2]);
    UploadStep(w, id, file, calls[2]);
    var (w1, pc1) := Advance(w, users, actor, calls[2]);
    if calls[2].fault.Fine? {
      EnqueuingAlone(w1, users, actor.role, id, calls, 3);
    } else if pc1.Ended? {
      EndedStaysEnded(w1, users, actor.(pc := pc1), calls, 3);
    } else {
      Onward(w, users, actor.(pc := pc1), calls, 3);
      RereadStep(w, users, userId, id, file, calls[3]);
      EndedStaysEnded(w, users, actor.(pc := Ended(false)), calls, 4);
    }
  }

  /**
   A confirmation that lost its UPDATE to another one: it succeeds exactly when it was told of the loss, and finds its
   own job uploaded under its own key when it reads it again; it changes nothing.
   */
  lemma {:induction false} LostUploadOutcome(
    w: World, users: set<nat>, userId: nat, id: nat, file: FileRef, calls: seq<Call>)
    requires |calls| == 5 && id in w.jobs.rows && w.jobs.rows[id].status != Pending
    ensures var job := w.jobs.rows[id];
      Alone(w, users, Actor(Confirmer(userId, id), Storing(id, file)), calls, 2) ==
      (w, Ended(calls[2].fault !in {BreaksBefore, BreaksAfter} && calls[3].fault.Fine? &&
                job.request.userId == userId && job.status == Uploaded && job.file.Some? &&
                job.file.value.key == file.key))
  {
    var actor := Actor(Confirmer(userId, id), Storing(id, file));
    Onward(w, users, actor, calls, 2);
    StoringStep(w, users, userId, id, file, calls[2]);
    UploadStep(w, id, file, calls[2]);
    var pc1 := Advance(w, users, actor, calls[2]).1;
    if pc1.Ended? {
      EndedStaysEnded(w, users, actor.(pc := pc1), calls, 3);
    } else {
      Onward(w, users, actor.(pc := pc1), calls, 3);
      RereadStep(w, users, userId, id, file, calls[3]);
      var pc2 := Advance(w, users, actor.(pc := pc1), calls[3]).1;
      EndedStaysEnded(w, users, Actor(Confirmer(userId, id), pc2), calls, 4);
    }
  }

  lemma {:induction false} CheckStep(w: World, users: set<nat>, role: Role, id: nat, upload: DirectUpload, call: Call)
    ensures Advance(w, users, Actor(role, Checking(id, upload)), call) ==
      (w, if call.fault.Fine? && ObjectAgrees(w, id, upload)
          then Storing(id, FileRef("s3", JobInputKey(id, upload.filename), call.text)) else Ended(false))
  {
  }

  /** What the first look of a confirmation comes to. */
  lemma {:induction false} ReadStep(w: World, users: set<nat>, userId: nat, id: nat, call: Call)
    ensures Advance(w, users, Actor(Confirmer(userId, id), Reading), call) ==
      (w, if !call.fault.Fine? || !OwnJob(w, userId, id) then Ended(false)
          else
            var job := w.jobs.rows[id];
            var upload := job.request.directUpload.value;
            if job.status == Uploaded then
              Ended(job.file.Some? && job.file.value.key == JobInputKey(id, upload.filename))
            else if job.status == Pending then Checking(id, upload)
            else Ended(false))
  {
  }

  /**
   A confirmation, whatever its five calls do: another user's job, or a missing one, is refused with nothing changed; an
   uploaded job is confirmed exactly under its own key; a pending one is marked uploaded exactly when the object agrees
   with what was declared and that took effect, and enqueued exactly when the confirmation was told so.
   */
  lemma {:induction false} ConfirmOutcome(w: World, users: set<nat>, userId: nat, id: nat, calls: seq<Call>)
    requires |calls| == 5
    ensures Alone(w, users, Actor(Confirmer(userId, id), Reading), calls, 0) ==
      if !calls[0].fault.Fine? || !OwnJob(w, userId, id) then (w, Ended(false))
      else
        var job := w.jobs.rows[id];
        var upload := job.request.directUpload.value;
        var key := JobInputKey(id, upload.filename);
        if job.status == Uploaded then (w, Ended(job.file.Some? && job.file.value.key == key))
        else if job.status != Pending || !calls[1].fault.Fine? || !ObjectAgrees(w, id, upload) then (w, Ended(false))
        else Uploading(w, id, FileRef("s3", key, calls[1].text), calls)
  {
    var actor := Actor(Confirmer(userId, id), Reading);
    Onward(w, users, actor, calls, 0);
    ReadStep(w, users, userId, id, calls[0]);
    var pc1 := Advance(w, users, actor, calls[0]).1;
    if pc1.Ended? {
      EndedStaysEnded(w, users, actor.(pc := pc1), calls, 1);
    } else {
      CheckingAlone(w, users, userId, id, pc1.upload, calls);
    }
  }

  lemma {:induction false} CheckingAlone(
    w: World, users: set<nat>, userId: nat, id: nat, upload: DirectUpload, calls: seq<Call>)
    requires |calls| == 5 && id in w.jobs.rows && w.jobs.rows[id].status == Pending
    ensures Alone(w, users, Actor(Confirmer(userId, id), Checking(id, upload)), calls, 1) ==
      if !calls[1].fault.Fine? || !ObjectAgrees(w, id, upload) then (w, Ended(false))
      else Uploading(w, id, FileRef("s3", JobInputKey(id, upload.filename), calls[1].text), calls)
  {
    var actor := Actor(Confirmer(userId, id), Checking(id, upload));
    Onward(w, users, actor, calls, 1);
    CheckStep(w, users, actor.role, id, upload, calls[1]);
    var pc1 := Advance(w, users, actor, calls[1]).1;
    if pc1.Ended? {
      EndedStaysEnded(w, users, actor.(pc := pc1), calls, 2);
    } else {
      UploadingAlone(w, users, userId, id, pc1.file, calls);
    }
  }

  // ---------------------------------------------------------------- creating a job

  /** No job has this run_id. */
  predicate RunIdFree(t: Table, runId: Option<string>) {
    runId.Some? ==> forall id :: id in t.rows ==> t.rows[id].request.runId != runId
  }

  /** The row a new job begins with. */
  function PendingRow(request: Request, now: Time): Job {
    Job(request, now, Pending, "created", None, None, None, None, None)
  }

  /**
   Creating a job adds its pending row exactly for an existing user and a free run_id. An unknown user, and a run_id
   that another user has, are refused; one of the same user's answers with that user's job. Then nothing changes.
   */
  lemma {:induction false} CreateExactly(t: Table, users: set<nat>, request: Request, now: Time, id: nat)
    ensures var (t', r) := CreateJob(t, users, request, now);
      var free := RunIdFree(t, request.runId);
      && (r == Created(id) <==> free && request.userId in users && id == t.nextId)
      && (free && request.userId in users ==>
            t' == Table(t.rows[t.nextId := PendingRow(request, now)], t.nextId + 1, t.events))
      && (!(free && request.userId in users) ==> t' == t)
      && (free && request.userId !in users ==> r == Refused)
      && (JobTable.Invariant(t) && !free && id in t.rows && t.rows[id].request.runId == request.runId ==>
            r == if t.rows[id].request.userId != request.userId then OwnedByAnother else Existing(id))
  {
    if JobTable.Invariant(t) && request.runId.Some? && RunIdTaken(t, request.runId.value) && id in t.rows &&
       t.rows[id].request.runId == request.runId {
      assert SameRunId(t, WithRunId(t, request.runId.value), id);
    }
  }

  // ---------------------------------------------------------------- submitting

  /** The world in which a file was saved, if that took effect. */
  function Saved(w: World, key: string, content: Metadata, call: Call): World {
    if TookEffect(call.fault) then w.(stored := w.stored[key := content]) else w
  }

  /** What a submitter's attempt to mark its job failed comes to. */
  function MarkedFailed(w: World, id: nat, call: Call): (World, Pc)
    requires id in w.jobs.rows
  {
    (if !Terminal(w.jobs.rows[id].status) && TookEffect(call.fault)
     then Left(w, id, FailedRow(w.jobs.rows[id], call.text, "failed", call.now), None, multiset{TerminalWon(id)})
     else w,
     Ended(false))
  }

  /** What a submission comes to that has its job, from call 1 on. */
  function Submitted(w: World, id: nat, key: string, content: Metadata, calls: seq<Call>): (World, Pc)
    requires |calls| == 5 && id in w.jobs.rows
  {
    var saved := Saved(w, key, content, calls[1]);
    if !calls[1].fault.Fine? then MarkedFailed(saved, id, calls[2])
    else if w.jobs.rows[id].status != Pending || !TookEffect(calls[2].fault) then MarkedFailed(saved, id, calls[3])
    else
      var row := UploadedRow(w.jobs.rows[id], FileRef("s3", key, calls[1].text));
      if calls[2].fault.Fine? then Enqueued(Left(saved, id, row, None, multiset{UploadWon(id)}), id, calls, 3)
      else MarkedFailed(Left(saved, id, row, None, multiset{UploadWon(id), UploadUnseen(id)}), id, calls[3])
  }

  lemma {:induction false} SubmitterStores(w: World, users: set<nat>, role: Role, id: nat, file: FileRef, call: Call)
    requires role.Submitter?
    ensures var (w', ok) := Write(w, id, Upload(file), call);
      Advance(w, users, Actor(role, Storing(id, file)), call) == (w', if ok then Enqueuing(id) else Failing(id))
  {
  }

  lemma {:induction false} StoringAlone(
    w: World, users: set<nat>, role: Role, id: nat, file: FileRef, calls: seq<Call>)
    requires |calls| == 5 && id in w.jobs.rows && role.Submitter?
    ensures Alone(w, users, Actor(role, Storing(id, file)), calls, 2) ==
      if w.jobs.rows[id].status != Pending || !TookEffect(calls[2].fault) then MarkedFailed(w, id, calls[3])
      else
        var row := UploadedRow(w.jobs.rows[id], file);
        if calls[2].fault.Fine? then Enqueued(Left(w, id, row, None, multiset{UploadWon(id)}), id, calls, 3)
        else MarkedFailed(Left(w, id, row, None, multiset{UploadWon(id), UploadUnseen(id)}), id, calls[3])
  {
    var actor := Actor(role, Storing(id, file));
    Onward(w, users, actor, calls, 2);
    SubmitterStores(w, users, role, id, file, calls[2]);
    UploadStep(w, id, file, calls[2]);
    var (w1, pc1) := Advance(w, users, actor, calls[2]);
    if pc1.Enqueuing? {
      EnqueuingAlone(w1, users, role, id, calls, 3);
    } else {
      FailingAlone(w1, users, role, id, calls, 3);
    }
  }

  lemma RetrySaves(w: World, users: set<nat>, role: Role, id: nat, call: Call)
    requires role.Submitter?
    ensures var key := JobInputKey(id, role.filename);
      Advance(w, users, Actor(role, Saving(id)), call) ==
      (if TookEffect(call.fault) then w.(stored := w.stored[key := role.content]) else w,
       if call.fault.Fine? then Storing(id, FileRef(BACKEND, key, call.text)) else Failing(id))
  {
  }

  lemma {:induction false} SavingAlone(w: World, users: set<nat>, role: Role, id: nat, calls: seq<Call>)
    requires |calls| == 5 && id in w.jobs.rows && role.Submitter?
    ensures Alone(w, users, Actor(role, Saving(id)), calls, 1) ==
            Submitted(w, id, JobInputKey(id, role.filename), role.content, calls)
  {
    var actor := Actor(role, Saving(id));
    Onward(w, users, actor, calls, 1);
    RetrySaves(w, users, role, id, calls[1]);
    var (w1, pc1) := Advance(w, users, actor, calls[1]);
    if pc1.Storing? {
      StoringAlone(w1, users, role, id, pc1.file, calls);
    } else {
      FailingAlone(w1, users, role, id, calls, 2);
    }
  }

  lemma {:induction false} CreateStep(w: World, users: set<nat>, role: Role, call: Call)
    requires role.Submitter?
    ensures var (t, r) := CreateJob(w.jobs, users, role.request, call.now);
      Advance(w, users, Actor(role, Creating), call) ==
      (if TookEffect(call.fault) then w.(jobs := t) else w,
       if call.fault.Fine? && (r.Created? || r.Existing?) then Saving(r.id) else Ended(false))
  {
  }

  /** A world with a new pending job. */
  function WithNewJob(w: World, request: Request, now: Time): World {
    w.(jobs := Table(w.jobs.rows[w.jobs.nextId := PendingRow(request, now)], w.jobs.nextId + 1, w.jobs.events))
  }

  /**
   A first submission, whatever its five calls do: the job exists from when its creation took effect, with what was
   asked for; then its file is saved and it is uploaded and enqueued, and any failure on the way tries to mark it
   failed.
   */
  lemma {:induction false} SubmitOutcome(w: World, users: set<nat>, role: Role, calls: seq<Call>)
    requires |calls| == 5 && role.Submitter?
    requires RunIdFree(w.jobs, role.request.runId) && role.request.userId in users
    ensures var id := w.jobs.nextId;
      Alone(w, users, Actor(role, Creating), calls, 0) ==
      if !TookEffect(calls[0].fault) then (w, Ended(false))
      else
        var created := WithNewJob(w, role.request, calls[0].now);
        if !calls[0].fault.Fine? then (created, Ended(false))
        else Submitted(created, id, JobInputKey(id, role.filename), role.content, calls)
  {
    var actor := Actor(role, Creating);
    Onward(w, users, actor, calls, 0);
    CreateStep(w, users, role, calls[0]);
    CreateExactly(w.jobs, users, role.request, calls[0].now, w.jobs.nextId);
    var (w1, pc1) := Advance(w, users, actor, calls[0]);
    if pc1.Saving? {
      SavingAlone(w1, users, role, w.jobs.nextId, calls);
    } else {
      EndedStaysEnded(w1, users, actor.(pc := pc1), calls, 1);
    }
  }

  /** A submission of an unknown user, or under the run_id of another user's job, is refused and changes nothing. */
  lemma {:induction false} SubmitRefused(w: World, users: set<nat>, role: Role, calls: seq<Call>, id: nat)
    requires JobTable.Invariant(w.jobs) && |calls| == 5 && role.Submitter?
    requires
      if RunIdFree(w.jobs, role.request.runId) then role.request.userId !in users
      else
        && id in w.jobs.rows && w.jobs.rows[id].request.runId == role.request.runId
        && w.jobs.rows[id].request.userId != role.request.userId
    ensures Alone(w, users, Actor(role, Creating), calls, 0) == (w, Ended(false))
  {
    var actor := Actor(role, Creating);
    Onward(w, users, actor, calls, 0);
    CreateStep(w, users, role, calls[0]);
    CreateExactly(w.jobs, users, role.request, calls[0].now, id);
    EndedStaysEnded(w, users, actor.(pc := Ended(false)), calls, 1);
  }

  /** A submission repeated under the run_id of the same user's job goes on with that job, whatever its status. */
  lemma {:induction false} RepeatedSubmission(w: World, users: set<nat>, role: Role, calls: seq<Call>, id: nat)
    requires JobTable.Invariant(w.jobs) && |calls| == 5 && role.Submitter?
    requires role.request.runId.Some? && id in w.jobs.rows && w.jobs.rows[id].request.runId == role.request.runId
    requires w.jobs.rows[id].request.userId == role.request.userId
    ensures Alone(w, users, Actor(role, Creating), calls, 0) ==
      if !calls[0].fault.Fine? then (w, Ended(false))
      else Submitted(w, id, JobInputKey(id, role.filename), role.content, calls)
  {
    var actor := Actor(role, Creating);
    Onward(w, users, actor, calls, 0);
    CreateStep(w, users, role, calls[0]);
    CreateExactly(w.jobs, users, role.request, calls[0].now, id);
    if calls[0].fault.Fine? {
      SavingAlone(w, users, role, id, calls);
    } else {
      EndedStaysEnded(w, users, actor.(pc := Ended(false)), calls, 1);
    }
  }

  lemma {:induction false} SubmittedSucceeds(w: World, id: nat, key: string, content: Metadata, calls: seq<Call>)
    requires |calls| == 5 && id in w.jobs.rows
    ensures var (w', pc) := Submitted(w, id, key, content, calls);
      var job := w.jobs.rows[id];
      && (pc == Ended(true) <==>
            job.status == Pending && calls[1].fault.Fine? && calls[2].fault.Fine? && calls[3].fault.Fine?)
      && (pc == Ended(true) ==>
            && w'.jobs == w.jobs.(rows := w.jobs.rows[id := UploadedRow(job, FileRef("s3", key, calls[1].text))])
            && w'.stored == w.stored[key := content]
            && w'.log == w.log + multiset{UploadWon(id)} + multiset{EnqueueCalled(id)})
  {
    var row := UploadedRow(w.jobs.rows[id], FileRef("s3", key, calls[1].text));
    assert w.jobs.rows[id := row][id := row] == w.jobs.rows[id := row];
  }

  /** A first submission succeeds exactly when four calls do; the job is then uploaded with its file and enqueued. */
  lemma {:induction false} SubmitSucceedsExactly(w: World, users: set<nat>, role: Role, calls: seq<Call>)
    requires |calls| == 5 && role.Submitter?
    requires RunIdFree(w.jobs, role.request.runId) && role.request.userId in users
    ensures var id, key := w.jobs.nextId, JobInputKey(w.jobs.nextId, role.filename);
      var (w', pc) := Alone(w, users, Actor(role, Creating), calls, 0);
      && (pc == Ended(true) <==> forall i :: 0 <= i < 4 ==> calls[i].fault.Fine?)
      && (pc == Ended(true) ==>
            && id in w'.jobs.rows && w'.jobs.rows[id].request == role.request
            && w'.jobs.rows[id].status == Uploaded && w'.jobs.rows[id].createdAt == calls[0].now
            && w'.jobs.rows[id].file == Some(FileRef("s3", key, calls[1].text))
            && w'.stored == w.stored[key := role.content]
            && w'.log == w.log + multiset{UploadWon(id)} + multiset{EnqueueCalled(id)})
  {
    var id, created := w.jobs.nextId, WithNewJob(w, role.request, calls[0].now);
    SubmitOutcome(w, users, role, calls);
    SubmittedSucceeds(created, id, JobInputKey(id, role.filename), role.content, calls);
  }

  /**
   The status a repeated submission leaves, by the faults of its calls. A pending job is uploaded if that takes effect;
   anything else, and any fault on the way, ends in an attempt to mark the job failed.
   */
  function StatusAfterRetry(status: Status, calls: seq<Call>): Status
    requires |calls| == 5
  {
    if Terminal(status) || !calls[0].fault.Fine? then status
    else
      var uploads := status == Pending && calls[1].fault.Fine? && TookEffect(calls[2].fault);
      var enqueues := uploads && calls[2].fault.Fine?;
      var failing := if enqueues then 4 else if calls[1].fault.Fine? then 3 else 2;
      if !(enqueues && calls[3].fault.Fine?) && TookEffect(calls[failing].fault) then Failed
      else if uploads then Uploaded
      else status
  }

  /**
   Submitting again under the run_id of an existing job of the same user, whatever goes wrong. It succeeds exactly for a
   pending job when nothing does. The row is kept exactly when the job has ended, the job was not found, or no UPDATE
   took effect. The input file is written again, also for a job that has ended.
   */
  lemma {:induction false} RetryOutcome(w: World, users: set<nat>, role: Role, id: nat, calls: seq<Call>)
    requires JobTable.Invariant(w.jobs) && id in w.jobs.rows && role.Submitter?
    requires w.jobs.rows[id].request.runId.Some? && role.request.runId == w.jobs.rows[id].request.runId
    requires role.request.userId == w.jobs.rows[id].request.userId
    requires |calls| == 5
    ensures var job := w.jobs.rows[id];
      var (w', pc) := Alone(w, users, Actor(role, Creating), calls, 0);
      && id in w'.jobs.rows
      && (pc == Ended(true) <==> job.status == Pending && forall i :: 0 <= i < 4 ==> calls[i].fault.Fine?)
      && pc.Ended?
      && w'.jobs.rows[id].status == StatusAfterRetry(job.status, calls)
      && (w'.jobs.rows[id] == job <==> StatusAfterRetry(job.status, calls) == job.status)
      && w'.stored ==
         (if calls[0].fault.Fine? && TookEffect(calls[1].fault)
          then w.stored[JobInputKey(id, role.filename) := role.content] else w.stored)
  {
    var key := JobInputKey(id, role.filename);
    RepeatedSubmission(w, users, role, calls, id);
    if calls[0].fault.Fine? {
      SubmittedSucceeds(w, id, key, role.content, calls);
      SubmittedStatus(w, id, key, role.content, calls);
    }
  }

  lemma {:induction false} SubmittedStatus(w: World, id: nat, key: string, content: Metadata, calls: seq<Call>)
    requires |calls| == 5 && id in w.jobs.rows && calls[0].fault.Fine?
    ensures var (w', pc) := Submitted(w, id, key, content, calls);
      var job := w.jobs.rows[id];
      && pc.Ended? && id in w'.jobs.rows
      && w'.jobs.rows[id].status == StatusAfterRetry(job.status, calls)
      && (w'.jobs.rows[id] == job <==> StatusAfterRetry(job.status, calls) == job.status)
      && w'.stored == Saved(w, key, content, calls[1]).stored
  {
    var job, saved := w.jobs.rows[id], Saved(w, key, content, calls[1]);
    var row := UploadedRow(job, FileRef("s3", key, calls[1].text));
    if !calls[1].fault.Fine? {
      FailureLeaves(saved, id, calls[2]);
    } else if job.status != Pending || !TookEffect(calls[2].fault) {
      FailureLeaves(saved, id, calls[3]);
    } else if calls[2].fault.Fine? {
      assert Left(saved, id, row, None, multiset{UploadWon(id)}).jobs.rows[id] == row;
    } else {
      FailureLeaves(Left(saved, id, row, None, multiset{UploadWon(id), UploadUnseen(id)}), id, calls[3]);
    }
  }

  lemma {:induction false} FailureLeaves(w: World, id: nat, call: Call)
    requires id in w.jobs.rows
    ensures var (w', pc) := MarkedFailed(w, id, call);
      var fails := !Terminal(w.jobs.rows[id].status) && TookEffect(call.fault);
      && pc == Ended(false) && id in w'.jobs.rows && w'.stored == w.stored
      && (if fails then w'.jobs.rows[id].status == Failed else w' == w)
  {
  }

  // ---------------------------------------------------------------- preparing an upload

  lemma PresignOutcome(w: World, users: set<nat>, role: Role, id: nat, call: Call)
    ensures Advance(w, users, Actor(role, Presigning(id)), call) ==
            (w, if call.fault.Fine? then Ended(true) else Failing(id))
  {
  }

  lemma {:induction false} PrepareStep(w: World, users: set<nat>, request: Request, call: Call)
    requires RunIdFree(w.jobs, request.runId) && request.userId in users
    ensures Advance(w, users, Actor(Preparer(request), Creating), call) ==
      (if TookEffect(call.fault) then WithNewJob(w, request, call.now) else w,
       if call.fault.Fine? && request.directUpload.Some? then Presigning(w.jobs.nextId) else Ended(false))
  {
    CreateExactly(w.jobs, users, request, call.now, w.jobs.nextId);
  }

  /**
   A first preparation, whatever its three calls do: the pending job is there once its creation took effect, with the
   declared upload; it succeeds exactly when the URL was made too, and otherwise tries to mark the job failed.
   */
  lemma {:induction false} FirstPreparation(w: World, users: set<nat>, request: Request, calls: seq<Call>)
    requires |calls| == 3 && request.directUpload.Some?
    requires RunIdFree(w.jobs, request.runId) && request.userId in users
    ensures Alone(w, users, Actor(Preparer(request), Creating), calls, 0) ==
      if !TookEffect(calls[0].fault) then (w, Ended(false))
      else
        var created := WithNewJob(w, request, calls[0].now);
        if !calls[0].fault.Fine? then (created, Ended(false))
        else if calls[1].fault.Fine? then (created, Ended(true))
        else MarkedFailed(created, w.jobs.nextId, calls[2])
  {
    var actor := Actor(Preparer(request), Creating);
    Onward(w, users, actor, calls, 0);
    PrepareStep(w, users, request, calls[0]);
    var (w1, pc1) := Advance(w, users, actor, calls[0]);
    if pc1.Ended? {
      EndedStaysEnded(w1, users, actor.(pc := pc1), calls, 1);
    } else {
      Onward(w1, users, actor.(pc := pc1), calls, 1);
      PresignOutcome(w1, users, actor.role, w.jobs.nextId, calls[1]);
      if calls[1].fault.Fine? {
        EndedStaysEnded(w1, users, actor.(pc := Ended(true)), calls, 2);
      } else {
        FailingAlone(w1, users, actor.role, w.jobs.nextId, calls, 2);
      }
    }
  }

  /**
   Preparing an upload again under the run_id of an existing job of the same user, whatever goes wrong. It succeeds
   exactly for the same request, found and given a URL. The job changes exactly when the same request was found, its URL
   could not be made, the job has not ended and marking it took effect; it is then failed, uploaded or running as it may
   be.
   */
  lemma {:induction false} PrepareOutcome(w: World, users: set<nat>, role: Role, id: nat, calls: seq<Call>)
    requires JobTable.Invariant(w.jobs) && id in w.jobs.rows && role.Preparer?
    requires w.jobs.rows[id].request.runId.Some? && role.request.runId == w.jobs.rows[id].request.runId
    requires role.request.userId == w.jobs.rows[id].request.userId
    requires |calls| == 3
    ensures var job := w.jobs.rows[id];
      var (w', pc) := Alone(w, users, Actor(role, Creating), calls, 0);
      var found := calls[0].fault.Fine? && SameRequest(job, role.request);
      && id in w'.jobs.rows
      && (pc == Ended(true) <==> found && calls[1].fault.Fine?)
      && (w'.jobs.rows[id] != job <==>
          found && !calls[1].fault.Fine? && !Terminal(job.status) && TookEffect(calls[2].fault))
      && (w'.jobs.rows[id] != job ==> w'.jobs.rows[id].status == Failed)
  {
    var actor := Actor(role, Creating);
    CreateExactly(w.jobs, users, role.request, calls[0].now, id);
    Onward(w, users, actor, calls, 0);
    var pc1 := Advance(w, users, actor, calls[0]).1;
    if pc1.Ended? {
      EndedStaysEnded(w, users, actor.(pc := pc1), calls, 1);
    } else {
      Onward(w, users, actor.(pc := pc1), calls, 1);
      PresignOutcome(w, users, role, id, calls[1]);
      if calls[1].fault.Fine? {
        EndedStaysEnded(w, users, actor.(pc := Ended(true)), calls, 2);
      } else {
        FailingAlone(w, users, role, id, calls, 2);
      }
    }
  }
}

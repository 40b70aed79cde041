/** What no interleaving of the job protocol can break. */
module JobSafety {
  import opened Prelude
  import opened JobTable
  import opened StoragePaths
  import opened JobProtocol

  // ---------------------------------------------------------------- the invariant

  function Flag(b: bool): nat {
    if b then 1 else 0
  }

  predicate HasFile(w: World, id: nat) {
    id in w.jobs.rows && w.jobs.rows[id].file.Some?
  }

  predicate HasStarted(w: World, id: nat) {
    id in w.jobs.rows && w.jobs.rows[id].startedAt.Some?
  }

  predicate HasEnded(w: World, id: nat) {
    id in w.jobs.rows && w.jobs.rows[id].finishedAt.Some?
  }

  /** The log counts exactly the columns that are set, and follow-up calls come after the UPDATE that allows them. */
  predicate LogAgrees(w: World, id: nat) {
    && w.log[UploadWon(id)] == Flag(HasFile(w, id))
    && w.log[RunningWon(id)] == Flag(HasStarted(w, id))
    && w.log[TerminalWon(id)] == Flag(HasEnded(w, id))
    && w.log[EnqueueCalled(id)] <= w.log[UploadWon(id)]
    && w.log[UploadUnseen(id)] <= w.log[UploadWon(id)]
    && w.log[Executed(id)] <= w.log[RunningWon(id)]
    && w.log[DeletionIssued(id)] <= w.log[RunningWon(id)]
    && w.log[DeletionIssued(id)] <= w.log[TerminalWon(id)]
  }

  /** A file reference of the job: under its own prefix, and in the store until the job's files are deleted. */
  predicate Kept(w: World, id: nat, file: FileRef) {
    JobPrefix(id) <= file.key && (w.log[DeletionIssued(id)] == 0 ==> file.key in w.stored)
  }

  predicate FileKept(w: World, id: nat) {
    HasFile(w, id) ==> Kept(w, id, w.jobs.rows[id].file.value)
  }

  ghost predicate WorldOk(w: World) {
    && JobTable.Invariant(w.jobs)
    && w.jobs.nextId > 0
    && (forall id :: id in w.jobs.rows ==> id > 0)
    && (forall id {:trigger LogAgrees(w, id)} :: LogAgrees(w, id))
    && (forall id {:trigger FileKept(w, id)} :: FileKept(w, id))
  }

  /** The actor won the upload and has yet to hand the job to the queue. */
  predicate MayEnqueue(pc: Pc, id: nat) {
    pc == Enqueuing(id)
  }

  /** The actor won the start of the job and is not done with it. */
  predicate RunsJob(pc: Pc, id: nat) {
    match pc
    case Resolving(i, _) => i == id
    case Executing(i) => i == id
    case Completing(i, _) => i == id
    case Aborting(i) => i == id
    case Deleting(i, _) => i == id
    case _ => false
  }

  predicate BeforeExecution(pc: Pc) {
    pc.Resolving? || pc.Executing?
  }

  /** What an actor relies on, given where it is. */
  predicate Grounded(w: World, pc: Pc, id: nat) {
    && (pc == Saving(id) ==> id in w.jobs.rows)
    && (pc.Checking? && pc.id == id ==> id in w.jobs.rows)
    && (pc.Storing? && pc.id == id ==> id in w.jobs.rows && Kept(w, id, pc.file))
    && (MayEnqueue(pc, id) ==> HasFile(w, id) && w.log[EnqueueCalled(id)] == 0)
    && (RunsJob(pc, id) ==> HasStarted(w, id) && w.log[DeletionIssued(id)] == 0)
    && (RunsJob(pc, id) && BeforeExecution(pc) ==> w.log[Executed(id)] == 0)
    && (pc.Resolving? && pc.id == id ==> w.jobs.rows[id].file == Some(pc.file))
    && (pc.Deleting? && pc.id == id ==> HasEnded(w, id))
  }

  ghost predicate Invariant(s: State) {
    && WorldOk(s.world)
    && (forall who, id {:trigger Grounded(s.world, s.actors[who].pc, id)} ::
          who in s.actors ==> Grounded(s.world, s.actors[who].pc, id))
    && (forall a, b, id {:trigger MayEnqueue(s.actors[a].pc, id), MayEnqueue(s.actors[b].pc, id)} ::
          a in s.actors && b in s.actors && MayEnqueue(s.actors[a].pc, id) && MayEnqueue(s.actors[b].pc, id) ==> a == b)
    && (forall a, b, id {:trigger RunsJob(s.actors[a].pc, id), RunsJob(s.actors[b].pc, id)} ::
          a in s.actors && b in s.actors && RunsJob(s.actors[a].pc, id) && RunsJob(s.actors[b].pc, id) ==> a == b)
  }

  // ---------------------------------------------------------------- one step of the world

  /** How a step of one actor may change what others see of one job. */
  predicate Moves(w: World, w': World, pc: Pc, id: nat) {
    && (id in w.jobs.rows ==> id in w'.jobs.rows && Follows(w.jobs.rows[id], w'.jobs.rows[id]))
    && (id !in w.jobs.rows && id in w'.jobs.rows ==> id > 0 && w'.jobs.rows[id].status == Pending)
    && w'.log[EnqueueCalled(id)] == w.log[EnqueueCalled(id)] + Flag(pc == Enqueuing(id))
    && w'.log[Executed(id)] == w.log[Executed(id)] + Flag(pc == Executing(id))
    && w'.log[DeletionIssued(id)] == w.log[DeletionIssued(id)] + Flag(pc.Deleting? && pc.id == id)
    && (HasFile(w', id) && !HasFile(w, id) ==> pc.Storing? && pc.id == id && w'.jobs.rows[id].file == Some(pc.file))
    && (HasStarted(w', id) && !HasStarted(w, id) ==> pc == Claiming(id))
  }

  lemma WriteKeepsTable(w: World, id: nat, change: Change, call: Call)
    requires JobTable.Invariant(w.jobs)
    ensures var (w', ok) := Write(w, id, change, call);
      && JobTable.Invariant(w'.jobs) && w'.jobs.rows.Keys == w.jobs.rows.Keys && w'.jobs.nextId == w.jobs.nextId
      && w'.stored == w.stored
      && (w' == w || (Matches(w.jobs, id, change) && w'.log == w.log + Noted(change, id, call) &&
                      w'.jobs.rows == w.jobs.rows[id := Changed(w.jobs.rows[id], change, call.now)]))
      && (ok ==> w'.log == w.log + Noted(change, id, call) && Matches(w.jobs, id, change))
  {
    TransitionKeepsInvariant(w.jobs, id, change, call.now);
  }

  lemma NotedCounts(change: Change, id: nat, call: Call, j: nat)
    requires !change.CompleteStep?
    ensures var noted := Noted(change, id, call);
      && noted[UploadWon(j)] == Flag(change.Upload? && j == id)
      && noted[UploadUnseen(j)] == Flag(change.Upload? && j == id && !call.fault.Fine?)
      && noted[RunningWon(j)] == Flag(change.Start? && j == id)
      && noted[TerminalWon(j)] == Flag((change.Complete? || change.Fail?) && j == id)
      && noted[EnqueueCalled(j)] == 0 && noted[Executed(j)] == 0 && noted[DeletionIssued(j)] == 0
  {
  }

  /** A change sets one of the three columns the log counts, and it was not set before. */
  lemma ChangeSetsColumns(job: Job, change: Change, now: Time)
    requires Sound(job) && job.status in Accepts(change) && !change.CompleteStep?
    ensures var job' := Changed(job, change, now);
      && Follows(job, job')
      && Flag(job'.file.Some?) == Flag(job.file.Some?) + Flag(change.Upload?)
      && Flag(job'.startedAt.Some?) == Flag(job.startedAt.Some?) + Flag(change.Start?)
      && Flag(job'.finishedAt.Some?) == Flag(job.finishedAt.Some?) + Flag(change.Complete? || change.Fail?)
      && (change.Upload? ==> job'.file == Some(change.file))
  {
  }

  lemma WriteMoves(w: World, id: nat, change: Change, call: Call, j: nat)
    requires JobTable.Invariant(w.jobs) && !change.CompleteStep? && LogAgrees(w, j)
    ensures var (w', ok) := Write(w, id, change, call);
      && (j in w.jobs.rows ==> Follows(w.jobs.rows[j], w'.jobs.rows[j]))
      && w'.log[EnqueueCalled(j)] == w.log[EnqueueCalled(j)]
      && w'.log[Executed(j)] == w.log[Executed(j)]
      && w'.log[DeletionIssued(j)] == w.log[DeletionIssued(j)]
      && LogAgrees(w', j)
      && (HasFile(w', j) && !HasFile(w, j) ==> change.Upload? && j == id && w'.jobs.rows[j].file == Some(change.file))
      && (HasStarted(w', j) && !HasStarted(w, j) ==> change.Start? && j == id)
  {
    WriteKeepsTable(w, id, change, call);
    NotedCounts(change, id, call, j);
    if j == id && Matches(w.jobs, id, change) {
      assert Sound(w.jobs.rows[id]);
      ChangeSetsColumns(w.jobs.rows[id], change, call.now);
    }
  }

  lemma CreateMoves(w: World, users: set<nat>, role: Role, call: Call, j: nat)
    requires JobTable.Invariant(w.jobs) && w.jobs.nextId > 0 && LogAgrees(w, j)
    ensures var (w', pc) := Create(w, users, role, call);
      && JobTable.Invariant(w'.jobs) && w'.jobs.nextId > 0 && w'.stored == w.stored && w'.log == w.log
      && (j in w.jobs.rows ==> j in w'.jobs.rows && w'.jobs.rows[j] == w.jobs.rows[j])
      && (j in w'.jobs.rows && j !in w.jobs.rows ==> j > 0 && w'.jobs.rows[j].status == Pending)
      && LogAgrees(w', j) && HasFile(w', j) == HasFile(w, j) && HasStarted(w', j) == HasStarted(w, j)
      && (pc.Ended? || ((pc.Saving? || pc.Presigning?) && pc.id in w'.jobs.rows))
  {
    if (role.Submitter? || role.Preparer?) && call.fault !in {Rejects, BreaksBefore} {
      CreationKeepsInvariant(w.jobs, users, role.request, call.now);
      if j !in w.jobs.rows {
        assert !HasFile(w, j) && !HasStarted(w, j) && !HasEnded(w, j);
      }
    }
  }

  /** What a step logs besides its UPDATE. */
  function Logged(pc: Pc, call: Call): multiset<Event> {
    match pc
    case Enqueuing(id) => multiset{EnqueueCalled(id)}
    case Executing(id) => Execution(id, call)
    case Deleting(id, _) => multiset{DeletionIssued(id)}
    case _ => multiset{}
  }

  lemma {:induction false} StoreCallsOnlyLog(w: World, actor: Actor, call: Call)
    requires UsesStore(actor.pc)
    ensures var w' := UseStore(w, actor, call).0;
      w'.jobs == w.jobs && w'.log == w.log + Logged(actor.pc, call)
  {
    assert w.log + multiset{} == w.log;
  }

  lemma {:induction false} ProceedingOnlyLogs(w: World, actor: Actor, call: Call)
    requires !UsesStore(actor.pc)
    ensures var w' := Proceed(w, actor, call).0;
      w'.jobs == w.jobs && w'.log == w.log + Logged(actor.pc, call)
  {
    assert w.log + multiset{} == w.log;
  }

  lemma {:induction false} OtherStepsOnlyLog(w: World, users: set<nat>, actor: Actor, call: Call)
    requires !Writes(actor.pc) && !actor.pc.Creating?
    ensures var w' := Advance(w, users, actor, call).0;
      w'.jobs == w.jobs && w'.log == w.log + Logged(actor.pc, call)
  {
    if UsesStore(actor.pc) {
      StoreCallsOnlyLog(w, actor, call);
    } else {
      ProceedingOnlyLogs(w, actor, call);
    }
  }

  lemma {:induction false} LoggedCounts(pc: Pc, call: Call, j: nat)
    ensures var logged := Logged(pc, call);
      && logged[EnqueueCalled(j)] == Flag(pc == Enqueuing(j))
      && logged[Executed(j)] == Flag(pc == Executing(j))
      && logged[DeletionIssued(j)] == Flag(pc.Deleting? && pc.id == j)
      && logged[UploadWon(j)] == logged[UploadUnseen(j)] == logged[RunningWon(j)] == logged[TerminalWon(j)] == 0
  {
  }

  lemma {:induction false} LoggingMoves(w: World, w': World, pc: Pc, call: Call, j: nat)
    requires LogAgrees(w, j) && Grounded(w, pc, j) && !Writes(pc) && !pc.Creating?
    requires w'.jobs == w.jobs && w'.log == w.log + Logged(pc, call)
    ensures LogAgrees(w', j) && Moves(w, w', pc, j)
  {
    LoggedCounts(pc, call, j);
    if pc == Enqueuing(j) {
      assert MayEnqueue(pc, j);
    } else if pc == Executing(j) || (pc.Deleting? && pc.id == j) {
      assert RunsJob(pc, j);
    }
  }

  lemma AttemptMoves(w: World, pc: Pc, call: Call, j: nat)
    requires JobTable.Invariant(w.jobs) && LogAgrees(w, j) && Writes(pc)
    ensures var w' := Write(w, pc.id, Attempt(pc, call), call).0;
      && JobTable.Invariant(w'.jobs) && w'.jobs.nextId == w.jobs.nextId
      && LogAgrees(w', j) && Moves(w, w', pc, j)
  {
    WriteKeepsTable(w, pc.id, Attempt(pc, call), call);
    WriteMoves(w, pc.id, Attempt(pc, call), call, j);
  }

  /** One step keeps the log and the columns of every job in agreement. */
  lemma AdvanceMoves(w: World, users: set<nat>, actor: Actor, call: Call, j: nat)
    requires JobTable.Invariant(w.jobs) && w.jobs.nextId > 0 && LogAgrees(w, j) && Grounded(w, actor.pc, j)
    ensures var (w', pc) := Advance(w, users, actor, call);
      JobTable.Invariant(w'.jobs) && w'.jobs.nextId > 0 && LogAgrees(w', j) && Moves(w, w', actor.pc, j)
  {
    if Writes(actor.pc) {
      AttemptMoves(w, actor.pc, call, j);
    } else if actor.pc.Creating? {
      CreateMoves(w, users, actor.role, call, j);
    } else {
      OtherStepsOnlyLog(w, users, actor, call);
      LoggingMoves(w, Advance(w, users, actor, call).0, actor.pc, call, j);
    }
  }

  /** Files disappear only in a deletion, and only from under the prefix of the deleted job. */
  predicate StoreShrinksBy(w: World, w': World, pc: Pc) {
    forall key :: key in w.stored && key !in w'.stored ==> pc.Deleting? && JobPrefix(pc.id) <= key
  }

  lemma AdvanceStores(w: World, users: set<nat>, actor: Actor, call: Call)
    ensures StoreShrinksBy(w, Advance(w, users, actor, call).0, actor.pc)
  {
  }

  /** A kept file reference stays kept, whoever deletes what. */
  lemma StaysKept(w: World, w': World, pc: Pc, id: nat, file: FileRef)
    requires Kept(w, id, file) && id > 0 && Moves(w, w', pc, id) && StoreShrinksBy(w, w', pc)
    requires pc.Deleting? ==> pc.id > 0
    ensures Kept(w', id, file)
  {
    if pc.Deleting? && JobPrefix(pc.id) <= file.key {
      PrefixesAreDisjoint(pc.id, id, file.key);
    }
  }

  /** What another actor relies on survives a step, unless both were entitled to the same thing. */
  lemma OthersStayGrounded(w: World, w': World, pc: Pc, other: Pc, id: nat)
    requires WorldOk(w) && Grounded(w, other, id)
    requires Moves(w, w', pc, id) && StoreShrinksBy(w, w', pc) && LogAgrees(w', id)
    requires pc.Deleting? ==> pc.id in w.jobs.rows
    requires !(MayEnqueue(pc, id) && MayEnqueue(other, id)) && !(RunsJob(pc, id) && RunsJob(other, id))
    ensures Grounded(w', other, id)
  {
    if other.Storing? && other.id == id {
      StaysKept(w, w', pc, id, other.file);
    }
    if id in w.jobs.rows {
      assert Sound(w.jobs.rows[id]) && LogAgrees(w, id);
    }
  }

  lemma FileStaysKept(w: World, w': World, pc: Pc, id: nat)
    requires WorldOk(w) && Grounded(w, pc, id)
    requires Moves(w, w', pc, id) && StoreShrinksBy(w, w', pc)
    requires pc.Deleting? ==> pc.id in w.jobs.rows
    ensures FileKept(w', id)
  {
    if HasFile(w, id) {
      assert FileKept(w, id);
      StaysKept(w, w', pc, id, w.jobs.rows[id].file.value);
    } else if HasFile(w', id) {
      StaysKept(w, w', pc, id, pc.file);
    }
  }

  predicate JustStarted(w: World, w': World, id: nat) {
    HasStarted(w', id) && id in w.jobs.rows && w.jobs.rows[id].status == Uploaded
  }

  /** A claim is only ever made by winning the UPDATE it stands for. */
  predicate ClaimIsWon(w: World, w': World, before: Pc, after: Pc, id: nat) {
    && (MayEnqueue(after, id) ==> HasFile(w', id) && !HasFile(w, id) && id in w.jobs.rows)
    && (RunsJob(after, id) ==> RunsJob(before, id) || (before == Claiming(id) && JustStarted(w, w', id)))
    && (after.Deleting? && after.id == id ==> HasEnded(w', id))
    && (after.Resolving? && after.id == id ==> id in w'.jobs.rows && w'.jobs.rows[id].file == Some(after.file))
    && (RunsJob(after, id) && BeforeExecution(after) ==>
          before == Claiming(id) || (before.Resolving? && before.id == id))
  }

  lemma ClaimsByWriting(w: World, actor: Actor, call: Call, id: nat)
    requires JobTable.Invariant(w.jobs) && Writes(actor.pc)
    ensures var (w', ok) := Write(w, actor.pc.id, Attempt(actor.pc, call), call);
      ClaimIsWon(w, w', actor.pc, AfterWrite(w', actor, ok, call), id)
  {
    WriteKeepsTable(w, actor.pc.id, Attempt(actor.pc, call), call);
    if actor.pc.id in w.jobs.rows {
      assert Sound(w.jobs.rows[actor.pc.id]);
    }
  }

  lemma ClaimsAreWon(w: World, users: set<nat>, actor: Actor, call: Call, id: nat)
    requires JobTable.Invariant(w.jobs)
    ensures var (w', pc) := Advance(w, users, actor, call);
      ClaimIsWon(w, w', actor.pc, pc, id)
  {
    if Writes(actor.pc) {
      ClaimsByWriting(w, actor, call, id);
    }
  }

  /** Where a reference to a job or to its file comes from. */
  predicate ReferenceArises(w: World, w': World, before: Pc, after: Pc) {
    && (after.Saving? ==> before.Creating?)
    && (after.Checking? ==> before.Reading? && after.id in w.jobs.rows && w' == w)
    && (after.Storing? ==> (before.Saving? || before.Checking?) && before.id == after.id && w'.jobs == w.jobs)
    && (after.Storing? ==> JobPrefix(after.id) <= after.file.key && after.file.key in w'.stored)
  }

  lemma StoreReferences(w: World, actor: Actor, call: Call)
    requires UsesStore(actor.pc)
    ensures ReferenceArises(w, UseStore(w, actor, call).0, actor.pc, UseStore(w, actor, call).1)
  {
  }

  lemma OtherReferences(w: World, actor: Actor, call: Call)
    requires !UsesStore(actor.pc) && !Writes(actor.pc) && !actor.pc.Creating?
    ensures ReferenceArises(w, Proceed(w, actor, call).0, actor.pc, Proceed(w, actor, call).1)
  {
  }

  lemma ReferencesArise(w: World, users: set<nat>, actor: Actor, call: Call)
    ensures ReferenceArises(w, Advance(w, users, actor, call).0, actor.pc, Advance(w, users, actor, call).1)
  {
    if UsesStore(actor.pc) {
      StoreReferences(w, actor, call);
    } else if !Writes(actor.pc) && !actor.pc.Creating? {
      OtherReferences(w, actor, call);
    }
  }

  /** A file reference is made out only for a file that is in the store, under the prefix of its job. */
  lemma ReferencesAreKept(w: World, users: set<nat>, actor: Actor, call: Call, id: nat)
    requires JobTable.Invariant(w.jobs) && w.jobs.nextId > 0 && LogAgrees(w, id) && Grounded(w, actor.pc, id)
    ensures var (w', pc) := Advance(w, users, actor, call);
      && (pc == Saving(id) ==> id in w'.jobs.rows)
      && (pc.Checking? && pc.id == id ==> id in w'.jobs.rows)
      && (pc.Storing? && pc.id == id ==> id in w'.jobs.rows && Kept(w', id, pc.file))
  {
    ReferencesArise(w, users, actor, call);
    if actor.pc.Creating? {
      CreateMoves(w, users, actor.role, call, id);
    }
  }

  /** The actor that moves can rely on what it comes to rely on. */
  lemma MoverIsGrounded(w: World, users: set<nat>, actor: Actor, call: Call, id: nat)
    requires WorldOk(w) && Grounded(w, actor.pc, id)
    ensures Grounded(Advance(w, users, actor, call).0, Advance(w, users, actor, call).1, id)
  {
    var (w', pc) := Advance(w, users, actor, call);
    assert LogAgrees(w, id);
    AdvanceMoves(w, users, actor, call, id);
    ReferencesAreKept(w, users, actor, call, id);
    ClaimsAreWon(w, users, actor, call, id);
    if id in w.jobs.rows { assert Sound(w.jobs.rows[id]); }
  }

  lemma AdvanceKeepsWorld(w: World, users: set<nat>, actor: Actor, call: Call)
    requires WorldOk(w) && (forall id {:trigger Grounded(w, actor.pc, id)} :: Grounded(w, actor.pc, id))
    ensures WorldOk(Advance(w, users, actor, call).0)
  {
    var w' := Advance(w, users, actor, call).0;
    AdvanceStores(w, users, actor, call);
    forall id ensures JobTable.Invariant(w'.jobs) && w'.jobs.nextId > 0 && LogAgrees(w', id) && FileKept(w', id)
      ensures id in w'.jobs.rows ==> id > 0
    {
      assert LogAgrees(w, id) && Grounded(w, actor.pc, id);
      AdvanceMoves(w, users, actor, call, id);
      if actor.pc.Deleting? {
        assert Grounded(w, actor.pc, actor.pc.id) && RunsJob(actor.pc, actor.pc.id);
      }
      FileStaysKept(w, w', actor.pc, id);
    }
    AdvanceMoves(w, users, actor, call, 0);
  }

  /** Everyone is grounded after a step of `who`. */
  lemma GoKeepsGrounded(s: State, users: set<nat>, who: nat, call: Call, other: nat, id: nat)
    requires Invariant(s) && who in s.actors && other in s.actors
    ensures var s' := Apply(s, users, Go(who, call));
      Grounded(s'.world, s'.actors[other].pc, id)
  {
    var w, actor := s.world, s.actors[who];
    assert Grounded(w, actor.pc, id);
    if other == who {
      MoverIsGrounded(w, users, actor, call, id);
    } else {
      assert Grounded(w, s.actors[other].pc, id) && LogAgrees(w, id);
      AdvanceMoves(w, users, actor, call, id);
      AdvanceStores(w, users, actor, call);
      if actor.pc.Deleting? {
        assert Grounded(w, actor.pc, actor.pc.id) && RunsJob(actor.pc, actor.pc.id);
      }
      OthersStayGrounded(w, Advance(w, users, actor, call).0, actor.pc, s.actors[other].pc, id);
    }
  }

  /** No step makes a second claim on a job somebody has a claim on. */
  lemma GoKeepsClaimsApart(s: State, users: set<nat>, who: nat, call: Call, other: nat, id: nat)
    requires Invariant(s) && who in s.actors && other in s.actors && other != who
    ensures var s' := Apply(s, users, Go(who, call));
      && !(MayEnqueue(s'.actors[who].pc, id) && MayEnqueue(s'.actors[other].pc, id))
      && !(RunsJob(s'.actors[who].pc, id) && RunsJob(s'.actors[other].pc, id))
  {
    ClaimsAreWon(s.world, users, s.actors[who], call, id);
    assert Grounded(s.world, s.actors[other].pc, id);
    if id in s.world.jobs.rows {
      assert Sound(s.world.jobs.rows[id]);
    }
  }

  lemma GoKeepsInvariant(s: State, users: set<nat>, who: nat, call: Call)
    requires Invariant(s) && who in s.actors
    ensures Invariant(Apply(s, users, Go(who, call)))
  {
    var s' := Apply(s, users, Go(who, call));
    forall id ensures Grounded(s.world, s.actors[who].pc, id) {
    }
    AdvanceKeepsWorld(s.world, users, s.actors[who], call);
    forall other, id | other in s'.actors ensures Grounded(s'.world, s'.actors[other].pc, id) {
      GoKeepsGrounded(s, users, who, call, other, id);
    }
    forall a, b, id |
      a in s'.actors && b in s'.actors && MayEnqueue(s'.actors[a].pc, id) && MayEnqueue(s'.actors[b].pc, id)
      ensures a == b
    {
      if a != b && a == who { GoKeepsClaimsApart(s, users, who, call, b, id); }
      if a != b && b == who { GoKeepsClaimsApart(s, users, who, call, a, id); }
      if a != who && b != who { assert MayEnqueue(s.actors[a].pc, id) && MayEnqueue(s.actors[b].pc, id); }
    }
    forall a, b, id | a in s'.actors && b in s'.actors && RunsJob(s'.actors[a].pc, id) && RunsJob(s'.actors[b].pc, id)
      ensures a == b
    {
      if a != b && a == who { GoKeepsClaimsApart(s, users, who, call, b, id); }
      if a != b && b == who { GoKeepsClaimsApart(s, users, who, call, a, id); }
      if a != who && b != who { assert RunsJob(s.actors[a].pc, id) && RunsJob(s.actors[b].pc, id); }
    }
  }

  /** An upload from outside only adds to the store. */
  lemma PutKeepsInvariant(s: State, users: set<nat>, key: string, content: Metadata)
    requires Invariant(s)
    ensures Invariant(Apply(s, users, Put(key, content)))
  {
    var s' := Apply(s, users, Put(key, content));
    var w, w' := s.world, s'.world;
    forall id ensures LogAgrees(w', id) && FileKept(w', id) {
      assert LogAgrees(w, id) && FileKept(w, id);
    }
    forall who, id | who in s'.actors ensures Grounded(w', s'.actors[who].pc, id) {
      assert Grounded(w, s.actors[who].pc, id);
    }
    forall a, b, id |
      a in s'.actors && b in s'.actors && MayEnqueue(s'.actors[a].pc, id) && MayEnqueue(s'.actors[b].pc, id)
      ensures a == b
    {
      assert MayEnqueue(s.actors[a].pc, id) && MayEnqueue(s.actors[b].pc, id);
    }
    forall a, b, id | a in s'.actors && b in s'.actors && RunsJob(s'.actors[a].pc, id) && RunsJob(s'.actors[b].pc, id)
      ensures a == b
    {
      assert RunsJob(s.actors[a].pc, id) && RunsJob(s.actors[b].pc, id);
    }
  }

  lemma ArrivalKeepsInvariant(s: State, users: set<nat>, who: nat, role: Role)
    requires Invariant(s) && who !in s.actors
    ensures Invariant(Apply(s, users, Arrive(who, role)))
  {
    var s' := Apply(s, users, Arrive(who, role));
    forall other, id | other in s'.actors ensures Grounded(s'.world, s'.actors[other].pc, id) {
      if other in s.actors { assert Grounded(s.world, s.actors[other].pc, id); }
    }
    forall a, b, id |
      a in s'.actors && b in s'.actors && MayEnqueue(s'.actors[a].pc, id) && MayEnqueue(s'.actors[b].pc, id)
      ensures a == b
    {
      assert a != who && b != who;
      assert MayEnqueue(s.actors[a].pc, id) && MayEnqueue(s.actors[b].pc, id);
    }
    forall a, b, id | a in s'.actors && b in s'.actors && RunsJob(s'.actors[a].pc, id) && RunsJob(s'.actors[b].pc, id)
      ensures a == b
    {
      assert a != who && b != who;
      assert RunsJob(s.actors[a].pc, id) && RunsJob(s.actors[b].pc, id);
    }
  }

  lemma MoveKeepsInvariant(s: State, users: set<nat>, move: Move)
    requires Invariant(s) && Enabled(s, move)
    ensures Invariant(Apply(s, users, move))
  {
    match move
    case Arrive(who, role) => ArrivalKeepsInvariant(s, users, who, role);
    case Go(who, call) => GoKeepsInvariant(s, users, who, call);
    case Put(key, content) => PutKeepsInvariant(s, users, key, content);
  }
}

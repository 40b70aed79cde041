/**
 The jobs table and its guarded UPDATEs. A transition names the statuses it accepts; when the row has another one, the
 UPDATE matches nothing and the table stays as it was.
 */
module JobTable {
  import opened Prelude

  datatype Status = Pending | Uploaded | Running | Completed | Failed

  datatype FileRef = FileRef(backend: string, key: string, uri: string)

  /** What a prepared direct upload declared about its file. */
  datatype DirectUpload = DirectUpload(filename: string, contentType: string, size: int, fingerprint: string)

  datatype Request = Request(
    userId: nat, runId: Option<string>, pipelineType: string, directUpload: Option<DirectUpload>)

  datatype Job = Job(
    request: Request,
    createdAt: Time,
    status: Status,
    step: string,
    file: Option<FileRef>,
    startedAt: Option<Time>,
    finishedAt: Option<Time>,
    output: Option<string>,
    error: Option<string>)

  datatype StepEvent = StepEvent(jobId: nat, step: string, payload: string)

  datatype Table = Table(rows: map<nat, Job>, nextId: nat, events: seq<StepEvent>)

  const EMPTY := Table(map[], 1, [])

  // ---------------------------------------------------------------- creation

  predicate RunIdTaken(t: Table, runId: string) {
    exists id :: id in t.rows && t.rows[id].request.runId == Some(runId)
  }

  datatype Creation = Created(id: nat) | Existing(id: nat) | OwnedByAnother | Refused

  function NewJob(request: Request, now: Time): Job {
    Job(request, now, Pending, "created", None, None, None, None, None)
  }

  ghost function WithRunId(t: Table, runId: string): (id: nat)
    requires RunIdTaken(t, runId)
    ensures id in t.rows && t.rows[id].request.runId == Some(runId)
  {
    var id :| id in t.rows && t.rows[id].request.runId == Some(runId);
    id
  }

  /** `run_id` is unique and `user_id` a foreign key; a conflict on `run_id` answers with the existing job. */
  ghost function CreateJob(t: Table, users: set<nat>, request: Request, now: Time): (Table, Creation) {
    if request.userId in users && (request.runId.None? || !RunIdTaken(t, request.runId.value)) then
      (t.(rows := t.rows[t.nextId := NewJob(request, now)], nextId := t.nextId + 1), Created(t.nextId))
    else if request.runId.None? || !RunIdTaken(t, request.runId.value) then
      (t, Refused)
    else
      var id := WithRunId(t, request.runId.value);
      (t, if t.rows[id].request.userId != request.userId then OwnedByAnother else Existing(id))
  }

  // ---------------------------------------------------------------- transitions

  datatype Change =
    | Upload(file: FileRef)
    | Start(step: string)
    | CompleteStep(step: string, payload: string)
    | Complete(output: string)
    | Fail(error: string, step: string)

  function Accepts(change: Change): set<Status> {
    match change
    case Upload(_) => {Pending}
    case Start(_) => {Uploaded}
    case CompleteStep(_, _) => {Running}
    case Complete(_) => {Running}
    case Fail(_, _) => {Pending, Uploaded, Running}
  }

  function Changed(job: Job, change: Change, now: Time): Job {
    match change
    case Upload(file) => job.(status := Uploaded, step := "uploaded", file := Some(file))
    case Start(step) => job.(status := Running, step := step, startedAt := Some(now))
    case CompleteStep(step, _) => job.(step := step)
    case Complete(output) =>
      job.(status := Completed, step := "completed", output := Some(output), finishedAt := Some(now))
    case Fail(error, step) => job.(status := Failed, step := step, error := Some(error), finishedAt := Some(now))
  }

  /** The status a change leads to. */
  function Target(change: Change): Status {
    match change
    case Upload(_) => Uploaded
    case Start(_) => Running
    case CompleteStep(_, _) => Running
    case Complete(_) => Completed
    case Fail(_, _) => Failed
  }

  predicate Matches(t: Table, id: nat, change: Change) {
    id in t.rows && t.rows[id].status in Accepts(change)
  }

  /** The guarded UPDATE; the flag says whether it matched the row. */
  function Transition(t: Table, id: nat, change: Change, now: Time): (Table, bool) {
    if Matches(t, id, change) then
      (t.(rows := t.rows[id := Changed(t.rows[id], change, now)],
          events := if change.CompleteStep? then t.events + [StepEvent(id, change.step, change.payload)] else t.events),
       true)
    else
      (t, false)
  }

  // ---------------------------------------------------------------- runs

  datatype Op = Submit(request: Request, at: Time) | Move(id: nat, change: Change, now: Time)

  ghost function Step(t: Table, users: set<nat>, op: Op): Table {
    match op
    case Submit(request, at) => CreateJob(t, users, request, at).0
    case Move(id, change, now) => Transition(t, id, change, now).0
  }

  ghost function Run(t: Table, users: set<nat>, ops: seq<Op>): Table
    decreases |ops|
  {
    if ops == [] then t else Run(Step(t, users, ops[0]), users, ops[1..])
  }

  // ---------------------------------------------------------------- what a row looks like

  predicate Terminal(status: Status) {
    status == Completed || status == Failed
  }

  function Rank(status: Status): nat {
    match status
    case Pending => 0
    case Uploaded => 1
    case Running => 2
    case Completed => 3
    case Failed => 3
  }

  /** Which columns are set in which status. A job that failed early has no file, or no start. */
  predicate Sound(job: Job) {
    && (job.status == Pending ==> job.file.None?)
    && (job.status in {Uploaded, Running, Completed} ==> job.file.Some?)
    && (job.startedAt.Some? ==> job.file.Some? && Rank(job.status) >= 2)
    && (job.status in {Running, Completed} ==> job.startedAt.Some?)
    && (job.output.Some? <==> job.status == Completed)
    && (job.error.Some? <==> job.status == Failed)
    && (job.finishedAt.Some? <==> Terminal(job.status))
    && (job.status == Pending ==> job.step == "created")
    && (job.status == Uploaded ==> job.step == "uploaded")
    && (job.status == Completed ==> job.step == "completed")
  }

  /** What the row says after a change: the values the caller gave, and the clock of the database. */
  predicate Written(job: Job, change: Change, now: Time) {
    match change
    case Upload(file) => job.file == Some(file)
    case Start(step) => job.step == step && job.startedAt == Some(now)
    case CompleteStep(step, _) => job.step == step && job.status == Running
    case Complete(output) => job.output == Some(output) && job.finishedAt == Some(now)
    case Fail(error, step) => job.error == Some(error) && job.step == step && job.finishedAt == Some(now)
  }

  /** What a job may become: columns are written once, and nothing happens after the end. */
  predicate Follows(job: Job, job': Job) {
    && job'.request == job.request && job'.createdAt == job.createdAt
    && Rank(job.status) <= Rank(job'.status)
    && (Rank(job.status) == Rank(job'.status) ==> job'.status == job.status)
    && (job.file.Some? ==> job'.file == job.file)
    && (job.startedAt.Some? ==> job'.startedAt == job.startedAt)
    && (Terminal(job.status) ==> job' == job)
  }

  predicate SameRunId(t: Table, a: nat, b: nat)
    requires a in t.rows && b in t.rows
  {
    t.rows[a].request.runId.Some? && t.rows[a].request.runId == t.rows[b].request.runId
  }

  ghost predicate Invariant(t: Table) {
    && (forall id :: id in t.rows ==> id < t.nextId)
    && (forall id {:trigger Sound(t.rows[id])} :: id in t.rows ==> Sound(t.rows[id]))
    && (forall a, b {:trigger SameRunId(t, a, b)} :: a in t.rows && b in t.rows && SameRunId(t, a, b) ==> a == b)
  }

  lemma TransitionKeepsInvariant(t: Table, id: nat, change: Change, now: Time)
    requires Invariant(t)
    ensures var (t', won) := Transition(t, id, change, now);
      && Invariant(t')
      && t'.rows.Keys == t.rows.Keys && t'.nextId == t.nextId
      && (won <==> Matches(t, id, change))
      && (!won ==> t' == t)
      && (won ==> t'.rows[id].status == Target(change) && Written(t'.rows[id], change, now))
      && t'.events ==
         (if won && change.CompleteStep? then t.events + [StepEvent(id, change.step, change.payload)] else t.events)
      && (forall j :: j in t.rows && j != id ==> t'.rows[j] == t.rows[j])
      && (id in t.rows ==> Follows(t.rows[id], t'.rows[id]))
  {
    var t' := Transition(t, id, change, now).0;
    if id in t.rows {
      assert Sound(t.rows[id]);
      assert Sound(t'.rows[id]);
    }
    forall j | j in t'.rows ensures Sound(t'.rows[j]) {
      assert Sound(t.rows[j]);
    }
    forall a, b | a in t'.rows && b in t'.rows && SameRunId(t', a, b) ensures a == b {
      assert SameRunId(t, a, b);
    }
  }

  lemma CreationKeepsInvariant(t: Table, users: set<nat>, request: Request, now: Time)
    requires Invariant(t)
    ensures var (t', r) := CreateJob(t, users, request, now);
      && Invariant(t')
      && (forall j :: j in t.rows ==> j in t'.rows && t'.rows[j] == t.rows[j])
      && (forall j :: j in t'.rows && j !in t.rows ==> r == Created(j) && t'.rows[j] == NewJob(request, now))
      && (!r.Created? ==> t' == t)
      && (r.Created? || r.Existing? ==>
            r.id in t'.rows && t'.rows[r.id].request.userId == request.userId &&
            t'.rows[r.id].request.runId == request.runId)
  {
    var t' := CreateJob(t, users, request, now).0;
    forall j | j in t'.rows ensures Sound(t'.rows[j]) {
      if j in t.rows { assert Sound(t.rows[j]); }
    }
    forall a, b | a in t'.rows && b in t'.rows && SameRunId(t', a, b) ensures a == b {
      if a in t.rows && b in t.rows { assert SameRunId(t, a, b); }
    }
  }

  lemma FollowsOnward(a: Job, b: Job, c: Job)
    requires Follows(a, b) && Follows(b, c)
    ensures Follows(a, c)
  {
  }

  lemma StepKeepsInvariant(t: Table, users: set<nat>, op: Op)
    requires Invariant(t)
    ensures var t' := Step(t, users, op);
      && Invariant(t')
      && (forall id :: id in t.rows ==> id in t'.rows && Follows(t.rows[id], t'.rows[id]))
  {
    match op
    case Submit(request, at) => CreationKeepsInvariant(t, users, request, at);
    case Move(id, change, now) => TransitionKeepsInvariant(t, id, change, now);
  }

  /** Over every run the columns of a job agree with its status, and its history only moves forward. */
  lemma {:induction false} RunKeepsInvariant(t: Table, users: set<nat>, ops: seq<Op>)
    requires Invariant(t)
    ensures var t' := Run(t, users, ops);
      && Invariant(t')
      && (forall id :: id in t.rows ==> id in t'.rows && Follows(t.rows[id], t'.rows[id]))
    decreases |ops|
  {
    if ops != [] {
      var t1 := Step(t, users, ops[0]);
      StepKeepsInvariant(t, users, ops[0]);
      RunKeepsInvariant(t1, users, ops[1..]);
      var t' := Run(t1, users, ops[1..]);
      forall id | id in t.rows ensures id in t'.rows && Follows(t.rows[id], t'.rows[id]) {
        FollowsOnward(t.rows[id], t1.rows[id], t'.rows[id]);
      }
    }
  }

  /** How often the status of a job changes during a run. */
  ghost function StatusChanges(t: Table, users: set<nat>, ops: seq<Op>, id: nat): nat
    requires id in t.rows && Invariant(t)
    decreases |ops|
  {
    if ops == [] then 0
    else
      StepKeepsInvariant(t, users, ops[0]);
      var t1 := Step(t, users, ops[0]);
      (if t1.rows[id].status != t.rows[id].status then 1 else 0) + StatusChanges(t1, users, ops[1..], id)
  }

  /** A job changes status at most three times, one for every rank it climbs. */
  lemma {:induction false} AtMostThreeChanges(t: Table, users: set<nat>, ops: seq<Op>, id: nat)
    requires id in t.rows && Invariant(t)
    ensures StatusChanges(t, users, ops, id) <= 3 - Rank(t.rows[id].status)
    decreases |ops|
  {
    if ops != [] {
      StepKeepsInvariant(t, users, ops[0]);
      AtMostThreeChanges(Step(t, users, ops[0]), users, ops[1..], id);
    }
  }

  /** Once a run_id has named a job, every later submission with it answers with that job, or refuses another user. */
  lemma RunIdNamesOneJob(t: Table, users: set<nat>, first: Request, at: Time, ops: seq<Op>, again: Request, later: Time)
    requires Invariant(t) && first.runId.Some? && again.runId == first.runId
    requires CreateJob(t, users, first, at).1.Created? || CreateJob(t, users, first, at).1.Existing?
    ensures var (t1, r1) := CreateJob(t, users, first, at);
      var (t2, r2) := CreateJob(Run(t1, users, ops), users, again, later);
      && r2 == (if again.userId == first.userId then Existing(r1.id) else OwnedByAnother)
      && t2 == Run(t1, users, ops)
  {
    var (t1, r1) := CreateJob(t, users, first, at);
    CreationKeepsInvariant(t, users, first, at);
    RunKeepsInvariant(t1, users, ops);
    var t2 := Run(t1, users, ops);
    assert Follows(t1.rows[r1.id], t2.rows[r1.id]);
    assert RunIdTaken(t2, again.runId.value);
    assert SameRunId(t2, WithRunId(t2, again.runId.value), r1.id);
  }

  /** Which statuses each change is accepted in. */
  lemma AcceptedExactly(t: Table, id: nat, change: Change, now: Time)
    ensures Transition(t, id, change, now).1 <==>
      && id in t.rows
      && match change
         case Upload(_) => t.rows[id].status == Pending
         case Start(_) => t.rows[id].status == Uploaded
         case CompleteStep(_, _) => t.rows[id].status == Running
         case Complete(_) => t.rows[id].status == Running
         case Fail(_, _) => t.rows[id].status != Completed && t.rows[id].status != Failed
  {
  }

  /** The whole row each accepted change leaves. */
  lemma ChangedExactly(t: Table, id: nat, change: Change, now: Time)
    requires Transition(t, id, change, now).1
    ensures var job, t' := t.rows[id], Transition(t, id, change, now).0;
      && t'.rows.Keys == t.rows.Keys
      && t'.rows[id] ==
         match change
         case Upload(file) =>
           Job(job.request, job.createdAt, Uploaded, "uploaded", Some(file), job.startedAt, job.finishedAt, job.output,
               job.error)
         case Start(step) =>
           Job(job.request, job.createdAt, Running, step, job.file, Some(now), job.finishedAt, job.output, job.error)
         case CompleteStep(step, _) =>
           Job(job.request, job.createdAt, Running, step, job.file, job.startedAt, job.finishedAt, job.output,
               job.error)
         case Complete(output) =>
           Job(job.request, job.createdAt, Completed, "completed", job.file, job.startedAt, Some(now), Some(output),
               job.error)
         case Fail(error, step) =>
           Job(job.request, job.createdAt, Failed, step, job.file, job.startedAt, Some(now), job.output, Some(error))
  {
  }
}

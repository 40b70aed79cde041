/**
 Everyone who touches a job at once: submissions and their retries, prepared direct uploads, confirmations, and any
 number of deliveries of the same queue message. Each advances by one call to the job store, the object store, the
 queue or the workflow at a time, and every call may fail before or after it took effect.
 */
module JobProtocol {
  import opened Prelude
  import opened JobTable
  import opened StoragePaths

  datatype Metadata = Metadata(size: int, contentType: string)

  /**
   What happened: guarded UPDATEs that matched, and calls that were made. `UploadUnseen` is an upload that was committed
   although its winner was told otherwise; `Answered` is what the workflow answered.
   */
  datatype Event =
    | UploadWon(id: nat)
    | UploadUnseen(id: nat)
    | EnqueueCalled(id: nat)
    | RunningWon(id: nat)
    | Executed(id: nat)
    | Answered(id: nat, output: string)
    | TerminalWon(id: nat)
    | DeletionIssued(id: nat)
    | StepWon(id: nat)

  datatype World = World(jobs: Table, stored: map<string, Metadata>, log: multiset<Event>)

  /** `Rejects` is a JobStoreError; the others are errors of the connection, before or after the commit. */
  datatype Fault = Fine | Rejects | BreaksBefore | BreaksAfter

  /** The circumstances of one call. `text` is what it answers; a failing deletion still removes the keys in `lost`. */
  datatype Call = Call(fault: Fault, now: Time, text: string, lost: set<string>)

  datatype Role =
    | Submitter(request: Request, filename: string, content: Metadata)
    | Preparer(request: Request)
    | Confirmer(userId: nat, jobId: nat)
    | Worker(jobId: nat)

  datatype Pc =
    | Creating
    | Saving(id: nat)
    | Presigning(id: nat)
    | Reading
    | Checking(id: nat, upload: DirectUpload)
    | Storing(id: nat, file: FileRef)
    | Rereading(id: nat, file: FileRef)
    | Enqueuing(id: nat)
    | Failing(id: nat)
    | Loading
    | Claiming(id: nat)
    | Resolving(id: nat, file: FileRef)
    | Executing(id: nat)
    | Completing(id: nat, output: string)
    | Aborting(id: nat)
    | Deleting(id: nat, ok: bool)
    | Ended(ok: bool)

  datatype Actor = Actor(role: Role, pc: Pc)

  const RUNNING_STEP := "running_pipeline"
  const BACKEND := "s3"

  function Won(change: Change, id: nat): Event {
    match change
    case Upload(_) => UploadWon(id)
    case Start(_) => RunningWon(id)
    case CompleteStep(_, _) => StepWon(id)
    case Complete(_) => TerminalWon(id)
    case Fail(_, _) => TerminalWon(id)
  }

  function Log(w: World, e: Event): World {
    w.(log := w.log + multiset{e})
  }

  /** What a run of the workflow leaves in the log. */
  function Execution(id: nat, call: Call): multiset<Event> {
    multiset{Executed(id)} + if call.fault.Fine? then multiset{Answered(id, call.text)} else multiset{}
  }

  /** What a committed UPDATE leaves in the log. */
  function Noted(change: Change, id: nat, call: Call): multiset<Event> {
    multiset{Won(change, id)} + if change.Upload? && !call.fault.Fine? then multiset{UploadUnseen(id)} else multiset{}
  }

  /** A guarded UPDATE in a transaction of its own; the flag says whether the caller sees it succeed. */
  function Write(w: World, id: nat, change: Change, call: Call): (World, bool) {
    var (t, won) := Transition(w.jobs, id, change, call.now);
    if !won || call.fault in {Rejects, BreaksBefore} then (w, false)
    else (w.(jobs := t, log := w.log + Noted(change, id, call)), call.fault.Fine?)
  }

  function WithoutPrefix(stored: map<string, Metadata>, id: nat, call: Call): map<string, Metadata> {
    map key | key in stored && !(JobPrefix(id) <= key && (call.fault.Fine? || key in call.lost)) :: stored[key]
  }

  /** The metadata a prepared upload persisted, when it is usable. */
  predicate UsableUpload(upload: Option<DirectUpload>) {
    upload.Some? && !Blank(upload.value.filename) && !Blank(upload.value.contentType) && upload.value.size > 0
  }

  predicate SameRequest(job: Job, request: Request) {
    job.request.directUpload.Some? && request.directUpload.Some? &&
    job.request.directUpload.value.fingerprint == request.directUpload.value.fingerprint
  }

  /** Creating the job, for a submission or a prepared upload. */
  ghost function Create(w: World, users: set<nat>, role: Role, call: Call): (World, Pc) {
    if !(role.Submitter? || role.Preparer?) || call.fault in {Rejects, BreaksBefore} then (w, Ended(false))
    else
      var (t, r) := CreateJob(w.jobs, users, role.request, call.now);
      var pc :=
        if call.fault.BreaksAfter? || r.OwnedByAnother? || r.Refused? then Ended(false)
        else if role.Submitter? then Saving(r.id)
        else if r.id in t.rows && SameRequest(t.rows[r.id], role.request) then Presigning(r.id)
        else Ended(false);
      (w.(jobs := t), pc)
  }

  /** A confirmation's first look at its job. */
  function Confirm(w: World, role: Role, call: Call): Pc {
    if !role.Confirmer? || !call.fault.Fine? || role.jobId !in w.jobs.rows then Ended(false)
    else
      var job := w.jobs.rows[role.jobId];
      if job.request.userId != role.userId || !UsableUpload(job.request.directUpload) then Ended(false)
      else
        var upload := job.request.directUpload.value;
        if job.status == Uploaded then
          Ended(job.file.Some? && job.file.value.key == JobInputKey(role.jobId, upload.filename))
        else if job.status != Pending then Ended(false)
        else Checking(role.jobId, upload)
  }

  /** The guarded UPDATE an actor is about to attempt, if its next call is one. */
  predicate Writes(pc: Pc) {
    pc.Storing? || pc.Failing? || pc.Claiming? || pc.Completing? || pc.Aborting?
  }

  function Attempt(pc: Pc, call: Call): Change
    requires Writes(pc)
  {
    match pc
    case Storing(_, file) => Upload(file)
    case Failing(_) => Fail(call.text, "failed")
    case Claiming(_) => Start(RUNNING_STEP)
    case Completing(_, output) => Complete(output)
    case Aborting(_) => Fail(call.text, RUNNING_STEP)
  }

  /** Where an actor goes after its UPDATE: `ok` when it saw it succeed. */
  function AfterWrite(w: World, actor: Actor, ok: bool, call: Call): Pc
    requires Writes(actor.pc)
  {
    match actor.pc
    case Storing(id, file) =>
      if ok then Enqueuing(id)
      else if !actor.role.Confirmer? then Failing(id)
      else if call.fault in {BreaksBefore, BreaksAfter} then Ended(false)
      else Rereading(id, file)
    case Failing(_) => Ended(false)
    case Claiming(id) =>
      if ok && id in w.jobs.rows && w.jobs.rows[id].file.Some? then Resolving(id, w.jobs.rows[id].file.value)
      else Ended(false)
    case Completing(id, _) => if ok then Deleting(id, true) else Aborting(id)
    case Aborting(id) => if ok then Deleting(id, false) else Ended(false)
  }

  function Lower(c: char): char {
    if 'A' <= c <= 'Z' then c - 'A' + 'a' else c
  }

  function BeforeSemicolon(s: string): string
    decreases |s|
  {
    if s == "" || s[0] == ';' then "" else [s[0]] + BeforeSemicolon(s[1..])
  }

  /** A declared content type without its parameters, stripped and in lower case. */
  function MediaType(declared: string): string {
    var bare := Strip(BeforeSemicolon(declared));
    seq(|bare|, i requires 0 <= i < |bare| => Lower(bare[i]))
  }

  lemma {:induction false} CutAtSemicolon(x: string, y: string)
    requires ';' !in x
    ensures BeforeSemicolon(x) == x && BeforeSemicolon(x + ";" + y) == x
    decreases |x|
  {
    if x != "" {
      CutAtSemicolon(x[1..], y);
      assert (x + ";" + y)[1..] == x[1..] + ";" + y;
    } else {
      assert x + ";" + y == ";" + y;
    }
  }

  /** Of a type between white space, with or without parameters behind it, the media type is that type in lower case. */
  lemma {:induction false} MediaTypeIs(a: string, bare: string, b: string, parameters: string)
    requires Blank(a) && Blank(b) && bare != "" && Stripped(bare) && ';' !in a + bare + b
    ensures var m := MediaType(a + bare + b);
      && MediaType(a + bare + b + ";" + parameters) == m
      && |m| == |bare|
      && forall i :: 0 <= i < |bare| ==>
           m[i] == if 'A' <= bare[i] <= 'Z' then bare[i] - 'A' + 'a' else bare[i]
  {
    CutAtSemicolon(a + bare + b, parameters);
    StripIs(a + bare + b, a, bare, b);
  }

  /** Calls to the object store. */
  function UseStore(w: World, actor: Actor, call: Call): (World, Pc) {
    var fine := call.fault.Fine?;
    match actor.pc
    case Saving(id) =>
      if !actor.role.Submitter? || call.fault in {Rejects, BreaksBefore} then (w, Failing(id))
      else
        var key := JobInputKey(id, actor.role.filename);
        (w.(stored := w.stored[key := actor.role.content]),
         if fine then Storing(id, FileRef(BACKEND, key, call.text)) else Failing(id))
    case Presigning(id) => (w, if fine then Ended(true) else Failing(id))
    case Checking(id, upload) =>
      var key := JobInputKey(id, upload.filename);
      (w, if fine && key in w.stored && w.stored[key] == Metadata(upload.size, MediaType(upload.contentType))
          then Storing(id, FileRef(BACKEND, key, call.text)) else Ended(false))
    case Resolving(id, file) => (w, if fine && file.key in w.stored then Executing(id) else Aborting(id))
    case Deleting(id, ok) =>
      (Log(w.(stored := WithoutPrefix(w.stored, id, call)), DeletionIssued(id)), Ended(ok))
    case _ => (w, actor.pc)
  }

  /** Reading a job, handing it to the queue, and executing its workflow. */
  function Proceed(w: World, actor: Actor, call: Call): (World, Pc) {
    var fine := call.fault.Fine?;
    match actor.pc
    case Reading => (w, Confirm(w, actor.role, call))
    case Rereading(id, file) =>
      (w, Ended(fine && actor.role.Confirmer? && id in w.jobs.rows &&
                w.jobs.rows[id].request.userId == actor.role.userId && w.jobs.rows[id].status == Uploaded &&
                w.jobs.rows[id].file.Some? && w.jobs.rows[id].file.value.key == file.key))
    case Loading =>
      (w, if fine && actor.role.Worker? && actor.role.jobId in w.jobs.rows &&
             w.jobs.rows[actor.role.jobId].status == Uploaded
          then Claiming(actor.role.jobId) else Ended(false))
    case Enqueuing(id) => (Log(w, EnqueueCalled(id)), if fine then Ended(true) else Failing(id))
    case Executing(id) =>
      (w.(log := w.log + Execution(id, call)), if fine then Completing(id, call.text) else Aborting(id))
    case _ => (w, actor.pc)
  }

  predicate UsesStore(pc: Pc) {
    pc.Saving? || pc.Presigning? || pc.Checking? || pc.Resolving? || pc.Deleting?
  }

  /** One call of one actor. */
  ghost function Advance(w: World, users: set<nat>, actor: Actor, call: Call): (World, Pc) {
    if actor.pc.Creating? then Create(w, users, actor.role, call)
    else if Writes(actor.pc) then
      var (w', ok) := Write(w, actor.pc.id, Attempt(actor.pc, call), call);
      (w', AfterWrite(w', actor, ok, call))
    else if UsesStore(actor.pc) then UseStore(w, actor, call)
    else Proceed(w, actor, call)
  }

  /** An actor left alone for the calls from `i` on. */
  ghost function Alone(w: World, users: set<nat>, actor: Actor, calls: seq<Call>, i: nat): (World, Pc)
    requires i <= |calls|
    decreases |calls| - i
  {
    if i == |calls| then (w, actor.pc)
    else
      var (w', pc) := Advance(w, users, actor, calls[i]);
      Alone(w', users, actor.(pc := pc), calls, i + 1)
  }

  // ---------------------------------------------------------------- the interleaved system

  datatype State = State(world: World, actors: map<nat, Actor>)

  /** `Put` is any other write to the object store, such as a client using its upload URL. */
  datatype Move = Arrive(who: nat, role: Role) | Go(who: nat, call: Call) | Put(key: string, content: Metadata)

  function Entry(role: Role): Pc {
    match role
    case Submitter(_, _, _) => Creating
    case Preparer(_) => Creating
    case Confirmer(_, _) => Reading
    case Worker(_) => Loading
  }

  predicate Enabled(s: State, move: Move) {
    match move
    case Arrive(who, _) => who !in s.actors
    case Go(who, _) => who in s.actors
    case Put(_, _) => true
  }

  ghost function Apply(s: State, users: set<nat>, move: Move): State
    requires Enabled(s, move)
  {
    match move
    case Arrive(who, role) => s.(actors := s.actors[who := Actor(role, Entry(role))])
    case Go(who, call) =>
      var (w', pc) := Advance(s.world, users, s.actors[who], call);
      State(w', s.actors[who := s.actors[who].(pc := pc)])
    case Put(key, content) => s.(world := s.world.(stored := s.world.stored[key := content]))
  }

  ghost predicate Feasible(s: State, users: set<nat>, moves: seq<Move>)
    decreases |moves|
  {
    moves == [] || (Enabled(s, moves[0]) && Feasible(Apply(s, users, moves[0]), users, moves[1..]))
  }

  ghost function Reach(s: State, users: set<nat>, moves: seq<Move>): State
    requires Feasible(s, users, moves)
    decreases |moves|
  {
    if moves == [] then s else Reach(Apply(s, users, moves[0]), users, moves[1..])
  }

  /** No job and nobody at work yet; the object store may hold anything. */
  function Initially(stored: map<string, Metadata>): State {
    State(World(EMPTY, stored, multiset{}), map[])
  }
}

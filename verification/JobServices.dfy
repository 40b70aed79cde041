/**
 The pipeline service and the worker runner as the sequential code they are, each call of which may fail. Every method
 is proved to do, call by call, what its actor does in the interleaved protocol when nobody interferes.
 */
module JobServices {
  import opened Prelude
  import opened JobTable
  import opened StoragePaths
  import opened JobProtocol
  import JobStore
  import Workspaces
  import Materializer
  import JobTheorems

  /** The job store, each call in a transaction of its own; the object store; and the queue. */
  class Backend {
    const store: JobStore.Store
    var stored: map<string, Metadata>
    ghost var log: multiset<Event>
    const calls: seq<Call>
    var next: nat

    ghost function World(): World
      reads this, store
    {
      JobProtocol.World(store.State(), stored, log)
    }

    ghost predicate Valid()
      reads this, store
    {
      store.Valid()
    }

    constructor (users: set<nat>, stored: map<string, Metadata>, calls: seq<Call>)
      ensures Valid() && fresh(store) && World() == Initially(stored).world
      ensures store.users == users && this.calls == calls && next == 0
    {
      this.store := new JobStore.Store(users);
      this.stored, this.log, this.calls, this.next := stored, multiset{}, calls, 0;
    }

    /** The circumstances of the next call. */
    method NextCall() returns (call: Call)
      requires next < |calls|
      modifies `next
      ensures next == old(next) + 1 && call == calls[old(next)]
    {
      call, next := calls[next], next + 1;
    }

    method CreateJob(request: Request) returns (r: Option<Creation>)
      requires Valid() && next < |calls|
      modifies this, store
      ensures Valid() && next == old(next) + 1 && stored == old(stored) && log == old(log)
      ensures var call := calls[old(next)];
        var (t, c) := JobTable.CreateJob(old(store.State()), store.users, request, call.now);
        && store.State() == (if call.fault in {Rejects, BreaksBefore} then old(store.State()) else t)
        && r == if call.fault.Fine? then Some(c) else None
    {
      var call := NextCall();
      if call.fault in {Rejects, BreaksBefore} {
        return None;
      }
      var c := store.CreateJob(request, call.now);
      return if call.fault.Fine? then Some(c) else None;
    }

    method GetJob(id: nat) returns (r: Option<Job>, error: bool)
      requires next < |calls|
      modifies `next
      ensures next == old(next) + 1
      ensures error <==> !calls[old(next)].fault.Fine?
      ensures r == if !error && id in store.rows then Some(store.rows[id]) else None
    {
      var call := NextCall();
      error := !call.fault.Fine?;
      r := if !error && id in store.rows then Some(store.rows[id]) else None;
    }

    /** One of the `mark_*` calls; a rolled back transaction leaves the table as it was. */
    method Mark(id: nat, change: Change) returns (ok: bool)
      requires Valid() && next < |calls|
      modifies this, store
      ensures Valid() && next == old(next) + 1
      ensures (World(), ok) == Write(old(World()), id, change, calls[old(next)])
    {
      var call := NextCall();
      if call.fault in {Rejects, BreaksBefore} {
        return false;
      }
      var won := store.TransitionJob(id, change, call.now);
      if won {
        log := log + Noted(change, id, call);
      }
      return won && call.fault.Fine?;
    }

    method Save(key: string, content: Metadata) returns (r: Option<FileRef>)
      requires next < |calls|
      modifies this
      ensures next == old(next) + 1 && log == old(log)
      ensures stored ==
        if calls[old(next)].fault in {Rejects, BreaksBefore} then old(stored) else old(stored)[key := content]
      ensures r == if calls[old(next)].fault.Fine? then Some(FileRef(BACKEND, key, calls[old(next)].text)) else None
    {
      var call := NextCall();
      if call.fault in {Rejects, BreaksBefore} {
        return None;
      }
      stored := stored[key := content];
      return if call.fault.Fine? then Some(FileRef(BACKEND, key, call.text)) else None;
    }

    /** A call that changes nothing here: a presigned URL, an object's metadata, a download. */
    method Ask() returns (answer: Option<string>)
      requires next < |calls|
      modifies `next
      ensures next == old(next) + 1
      ensures answer == if calls[old(next)].fault.Fine? then Some(calls[old(next)].text) else None
    {
      var call := NextCall();
      return if call.fault.Fine? then Some(call.text) else None;
    }

    method Enqueue(id: nat) returns (ok: bool)
      requires next < |calls|
      modifies `next, `log
      ensures next == old(next) + 1 && log == old(log) + multiset{EnqueueCalled(id)}
      ensures ok == calls[old(next)].fault.Fine?
    {
      log := log + multiset{EnqueueCalled(id)};
      var call := NextCall();
      return call.fault.Fine?;
    }

    method Execute(id: nat) returns (result: Option<string>)
      requires next < |calls|
      modifies `next, `log
      ensures next == old(next) + 1 && log == old(log) + Execution(id, calls[old(next)])
      ensures result == if calls[old(next)].fault.Fine? then Some(calls[old(next)].text) else None
    {
      var call := NextCall();
      log := log + Execution(id, call);
      return if call.fault.Fine? then Some(call.text) else None;
    }

    method DeletePrefix(id: nat)
      requires next < |calls|
      modifies `next, `log, `stored
      ensures next == old(next) + 1 && log == old(log) + multiset{DeletionIssued(id)}
      ensures stored == WithoutPrefix(old(stored), id, calls[old(next)])
    {
      log := log + multiset{DeletionIssued(id)};
      var call := NextCall();
      stored := WithoutPrefix(stored, id, call);
    }
  }

  /** Where an actor comes to when the calls from `i` on are all its own. */
  ghost predicate ComesTo(
    w: World, users: set<nat>, role: Role, pc: Pc, calls: seq<Call>, i: nat, w': World, ok: bool)
  {
    i <= |calls| && Alone(w, users, Actor(role, pc), calls, i) == (w', Ended(ok))
  }

  lemma OneCall(
    w: World, users: set<nat>, role: Role, pc: Pc, calls: seq<Call>, i: nat, w1: World, pc1: Pc, w': World, ok: bool)
    requires i < |calls| && Advance(w, users, Actor(role, pc), calls[i]) == (w1, pc1)
    requires ComesTo(w1, users, role, pc1, calls, i + 1, w', ok)
    ensures ComesTo(w, users, role, pc, calls, i, w', ok)
  {
  }

  lemma LastCall(w: World, users: set<nat>, role: Role, pc: Pc, calls: seq<Call>, i: nat, w': World, ok: bool)
    requires i < |calls| && Advance(w, users, Actor(role, pc), calls[i]) == (w', Ended(ok))
    ensures ComesTo(w, users, role, pc, calls, i, w', ok)
  {
    JobTheorems.EndedStaysEnded(w', users, Actor(role, Ended(ok)), calls, i + 1);
  }

  lemma SubmissionCreates(w: World, users: set<nat>, role: Role, call: Call, w': World, r: Option<Creation>)
    requires role.Submitter?
    requires var (t, c) := JobTable.CreateJob(w.jobs, users, role.request, call.now);
      && w' == (if call.fault in {Rejects, BreaksBefore} then w else w.(jobs := t))
      && r == if call.fault.Fine? then Some(c) else None
    ensures Advance(w, users, Actor(role, Creating), call) ==
            (w', if r.None? || r.value.OwnedByAnother? || r.value.Refused? then Ended(false) else Saving(r.value.id))
  {
  }

  lemma ObjectChecked(w: World, users: set<nat>, role: Role, id: nat, upload: DirectUpload, call: Call)
    ensures var key := JobInputKey(id, upload.filename);
      Advance(w, users, Actor(role, Checking(id, upload)), call) ==
      (w, if call.fault.Fine? && key in w.stored &&
             w.stored[key] == Metadata(upload.size, MediaType(upload.contentType))
          then Storing(id, FileRef(BACKEND, key, call.text)) else Ended(false))
  {
  }

  class PipelineService {
    const backend: Backend

    constructor (backend: Backend)
      ensures this.backend == backend
    {
      this.backend := backend;
    }

    /** Marks the job failed; an error of that call is swallowed. */
    method MarkFailedSafely(id: nat, ghost role: Role)
      requires backend.Valid() && backend.next < |backend.calls|
      modifies backend, backend.store
      ensures backend.Valid()
      ensures ComesTo(old(backend.World()), backend.store.users, role, Failing(id), backend.calls,
                      old(backend.next), backend.World(), false)
    {
      ghost var w, n := backend.World(), backend.next;
      var _ := backend.Mark(id, Fail(backend.calls[backend.next].text, "failed"));
      LastCall(w, backend.store.users, role, Failing(id), backend.calls, n, backend.World(), false);
    }

    /** Enqueues a job whose upload this caller won. */
    method EnqueueUploaded(id: nat, ghost role: Role) returns (ok: bool)
      requires backend.Valid() && backend.next + 2 <= |backend.calls|
      modifies backend, backend.store
      ensures backend.Valid()
      ensures ComesTo(old(backend.World()), backend.store.users, role, Enqueuing(id), backend.calls,
                      old(backend.next), backend.World(), ok)
    {
      ghost var w, n := backend.World(), backend.next;
      ok := backend.Enqueue(id);
      ghost var w1 := backend.World();
      if ok {
        LastCall(w, backend.store.users, role, Enqueuing(id), backend.calls, n, w1, true);
      } else {
        MarkFailedSafely(id, role);
        OneCall(w, backend.store.users, role, Enqueuing(id), backend.calls, n, w1, Failing(id), backend.World(), false);
      }
    }

    /** Marks a submission's saved file as uploaded and enqueues the job. */
    method UploadAndEnqueue(id: nat, file: FileRef, ghost role: Role) returns (ok: bool)
      requires backend.Valid() && backend.next + 3 <= |backend.calls| && role.Submitter?
      modifies backend, backend.store
      ensures backend.Valid()
      ensures ComesTo(old(backend.World()), backend.store.users, role, Storing(id, file), backend.calls,
                      old(backend.next), backend.World(), ok)
    {
      ghost var w, n := backend.World(), backend.next;
      ok := backend.Mark(id, Upload(file));
      ghost var w1 := backend.World();
      ghost var pc1 := if ok then Enqueuing(id) else Failing(id);
      if ok {
        ok := EnqueueUploaded(id, role);
      } else {
        MarkFailedSafely(id, role);
      }
      OneCall(w, backend.store.users, role, Storing(id, file), backend.calls, n, w1, pc1, backend.World(), ok);
    }

    /**
     `_start`: create the job, save its file, mark it uploaded, enqueue it; any failure after creation marks it failed.
     */
    method Start(request: Request, filename: string, content: Metadata) returns (ok: bool)
      requires backend.Valid() && backend.next + 5 <= |backend.calls|
      modifies backend, backend.store
      ensures backend.Valid()
      ensures ComesTo(old(backend.World()), backend.store.users, Submitter(request, filename, content), Creating,
                      backend.calls, old(backend.next), backend.World(), ok)
    {
      ghost var w, n, role := backend.World(), backend.next, Submitter(request, filename, content);
      var job := backend.CreateJob(request);
      ghost var w1 := backend.World();
      SubmissionCreates(w, backend.store.users, role, backend.calls[n], w1, job);
      if job.None? || job.value.OwnedByAnother? || job.value.Refused? {
        LastCall(w, backend.store.users, role, Creating, backend.calls, n, w1, false);
        return false;
      }
      ok := SaveAndEnqueue(job.value.id, filename, content, role);
      OneCall(w, backend.store.users, role, Creating, backend.calls, n, w1, Saving(job.value.id), backend.World(), ok);
    }

    method SaveAndEnqueue(id: nat, filename: string, content: Metadata, ghost role: Role) returns (ok: bool)
      requires backend.Valid() && backend.next + 4 <= |backend.calls|
      requires role.Submitter? && role.filename == filename && role.content == content
      modifies backend, backend.store
      ensures backend.Valid()
      ensures ComesTo(old(backend.World()), backend.store.users, role, Saving(id), backend.calls,
                      old(backend.next), backend.World(), ok)
    {
      ghost var w, n := backend.World(), backend.next;
      var saved := backend.Save(JobInputKey(id, filename), content);
      ghost var w1 := backend.World();
      ghost var pc1 := if saved.Some? then Storing(id, saved.value) else Failing(id);
      if saved.Some? {
        ok := UploadAndEnqueue(id, saved.value, role);
      } else {
        MarkFailedSafely(id, role);
        ok := false;
      }
      OneCall(w, backend.store.users, role, Saving(id), backend.calls, n, w1, pc1, backend.World(), ok);
    }

    /** `prepare_presigned_upload`: create or find the job, refuse a different request, and make an upload URL. */
    method PreparePresignedUpload(request: Request) returns (ok: bool)
      requires backend.Valid() && backend.next + 3 <= |backend.calls|
      modifies backend, backend.store
      ensures backend.Valid()
      ensures ComesTo(old(backend.World()), backend.store.users, Preparer(request), Creating, backend.calls,
                      old(backend.next), backend.World(), ok)
    {
      ghost var w, n, role := backend.World(), backend.next, Preparer(request);
      var job := backend.CreateJob(request);
      ghost var w1 := backend.World();
      if job.None? || job.value.OwnedByAnother? || job.value.Refused? ||
         job.value.id !in backend.store.rows || !SameRequest(backend.store.rows[job.value.id], request) {
        LastCall(w, backend.store.users, role, Creating, backend.calls, n, w1, false);
        return false;
      }
      ok := MakeUploadUrl(job.value.id, role);
      OneCall(w, backend.store.users, role, Creating, backend.calls, n, w1, Presigning(job.value.id),
              backend.World(), ok);
    }

    method MakeUploadUrl(id: nat, ghost role: Role) returns (ok: bool)
      requires backend.Valid() && backend.next + 2 <= |backend.calls|
      modifies backend, backend.store
      ensures backend.Valid()
      ensures ComesTo(old(backend.World()), backend.store.users, role, Presigning(id), backend.calls,
                      old(backend.next), backend.World(), ok)
    {
      ghost var w, n := backend.World(), backend.next;
      var url := backend.Ask();
      ok := url.Some?;
      if ok {
        LastCall(w, backend.store.users, role, Presigning(id), backend.calls, n, w, true);
      } else {
        MarkFailedSafely(id, role);
        OneCall(w, backend.store.users, role, Presigning(id), backend.calls, n, w, Failing(id), backend.World(), false);
      }
    }

    /** `confirm_presigned_upload`: check the uploaded object, mark the job uploaded, enqueue it. */
    method ConfirmPresignedUpload(userId: nat, id: nat) returns (ok: bool)
      requires backend.Valid() && backend.next + 5 <= |backend.calls|
      modifies backend, backend.store
      ensures backend.Valid()
      ensures ComesTo(old(backend.World()), backend.store.users, Confirmer(userId, id), Reading, backend.calls,
                      old(backend.next), backend.World(), ok)
    {
      ghost var w, n, role := backend.World(), backend.next, Confirmer(userId, id);
      var job, error := backend.GetJob(id);
      if job.None? || job.value.request.userId != userId || !UsableUpload(job.value.request.directUpload) {
        LastCall(w, backend.store.users, role, Reading, backend.calls, n, w, false);
        return false;
      }
      var upload := job.value.request.directUpload.value;
      if job.value.status == Uploaded {
        ok := job.value.file.Some? && job.value.file.value.key == JobInputKey(id, upload.filename);
        LastCall(w, backend.store.users, role, Reading, backend.calls, n, w, ok);
        return;
      }
      if job.value.status != Pending {
        LastCall(w, backend.store.users, role, Reading, backend.calls, n, w, false);
        return false;
      }
      ok := CheckObject(userId, id, upload, role);
      OneCall(w, backend.store.users, role, Reading, backend.calls, n, w, Checking(id, upload), backend.World(), ok);
    }

    method CheckObject(userId: nat, id: nat, upload: DirectUpload, ghost role: Role) returns (ok: bool)
      requires backend.Valid() && backend.next + 4 <= |backend.calls| && role == Confirmer(userId, id)
      modifies backend, backend.store
      ensures backend.Valid()
      ensures ComesTo(old(backend.World()), backend.store.users, role, Checking(id, upload), backend.calls,
                      old(backend.next), backend.World(), ok)
    {
      ghost var w, n := backend.World(), backend.next;
      var key := JobInputKey(id, upload.filename);
      var uri := backend.Ask();
      ObjectChecked(w, backend.store.users, role, id, upload, backend.calls[n]);
      if uri.None? || key !in backend.stored || backend.stored[key].size != upload.size ||
         backend.stored[key].contentType != MediaType(upload.contentType) {
        LastCall(w, backend.store.users, role, Checking(id, upload), backend.calls, n, w, false);
        return false;
      }
      var file := FileRef(BACKEND, key, uri.value);
      ok := UploadConfirmed(userId, id, file, role);
      OneCall(w, backend.store.users, role, Checking(id, upload), backend.calls, n, w, Storing(id, file),
              backend.World(), ok);
    }

    /** A lost transition may mean that the first of two confirmations won: then the committed state is the answer. */
    method UploadConfirmed(userId: nat, id: nat, file: FileRef, ghost role: Role) returns (ok: bool)
      requires backend.Valid() && backend.next + 3 <= |backend.calls| && role == Confirmer(userId, id)
      modifies backend, backend.store
      ensures backend.Valid()
      ensures ComesTo(old(backend.World()), backend.store.users, role, Storing(id, file), backend.calls,
                      old(backend.next), backend.World(), ok)
    {
      ghost var w, n := backend.World(), backend.next;
      var broken := backend.calls[backend.next].fault in {BreaksBefore, BreaksAfter};
      ok := backend.Mark(id, Upload(file));
      ghost var w1 := backend.World();
      ghost var pc1 := if ok then Enqueuing(id) else Rereading(id, file);
      if ok {
        ok := EnqueueUploaded(id, role);
      } else if broken {
        LastCall(w, backend.store.users, role, Storing(id, file), backend.calls, n, w1, false);
        return false;
      } else {
        ok := Reread(userId, id, file, role);
      }
      OneCall(w, backend.store.users, role, Storing(id, file), backend.calls, n, w1, pc1, backend.World(), ok);
    }

    method Reread(userId: nat, id: nat, file: FileRef, ghost role: Role) returns (ok: bool)
      requires backend.Valid() && backend.next < |backend.calls| && role == Confirmer(userId, id)
      modifies backend
      ensures backend.Valid()
      ensures ComesTo(old(backend.World()), backend.store.users, role, Rereading(id, file), backend.calls,
                      old(backend.next), backend.World(), ok)
    {
      ghost var w, n := backend.World(), backend.next;
      var job, error := backend.GetJob(id);
      ok := job.Some? && job.value.request.userId == userId && job.value.status == Uploaded &&
            job.value.file.Some? && job.value.file.value.key == file.key;
      LastCall(w, backend.store.users, role, Rereading(id, file), backend.calls, n, w, ok);
    }
  }

  /**
   How the local copy of a job's input is made when storage serves the file, how that fails when it does not, and how
   the copy is removed.
   */
  datatype Input = Input(
    whenServed: Workspaces.Resolution, whenNot: Workspaces.Resolution, removal: Workspaces.Removal)

  predicate Handles(r: Workspaces.Registry, input: Input) {
    && Workspaces.Possible(r, input.whenServed) && Workspaces.Resolve(r, input.whenServed).1.Some?
    && Workspaces.Possible(r, input.whenNot) && Workspaces.Resolve(r, input.whenNot).1.None?
  }

  function CleanedUp(r: Workspaces.Registry, local: Option<Workspaces.ResolvedFile>, removal: Workspaces.Removal)
    : Workspaces.Registry
  {
    if local.None? then r else Workspaces.Cleanup(r, local.value, removal).0
  }

  /** What a worker may leave of its local copy; one that executed the workflow has always cleaned up. */
  predicate InputHandled(r: Workspaces.Registry, input: Input, r': Workspaces.Registry, executed: bool) {
    var (made, local) := Workspaces.Resolve(r, input.whenServed);
    || r' == CleanedUp(made, local, input.removal)
    || (!executed && r' in {r, Workspaces.Resolve(r, input.whenNot).0})
  }

  /** The resolutions write below workspaces that the registry does not hold yet. */
  predicate InNewWorkspaces(r: Workspaces.Registry, input: Input) {
    && (input.whenServed.local.None? ==> input.whenServed.written)
    && forall e {:trigger e.workspace} | e in {input.whenServed, input.whenNot} ::
         e.workspace.Some? ==> e.workspace.value !in r.owned
  }

  /** However the job ends, when directories can be removed the worker leaves neither a file nor a registration. */
  lemma WorkersLeaveNothing(r: Workspaces.Registry, input: Input, r': Workspaces.Registry, executed: bool)
    requires Workspaces.Accounted(r) && Handles(r, input) && InNewWorkspaces(r, input)
    requires input.removal.Removes? && input.whenNot.removal.Removes?
    requires InputHandled(r, input, r', executed)
    ensures r'.disk == r.disk && r'.owned == r.owned
  {
    Workspaces.ResolveThenCleanup(r, input.whenServed, input.removal);
    Workspaces.FailedResolution(r, input.whenNot);
  }

  class WorkerRunner {
    const backend: Backend
    const files: Materializer.StorageFileMaterializer

    constructor (backend: Backend, files: Materializer.StorageFileMaterializer)
      ensures this.backend == backend && this.files == files
    {
      this.backend, this.files := backend, files;
    }

    ghost predicate Valid()
      reads backend, backend.store, files
    {
      backend.Valid() && files.Valid()
    }

    /**
     `run`: claim an uploaded job, execute its workflow, persist how it ended, remove the local copy of its input, and
     only then delete its files. `input` says how the local copy is made and removed.
     */
    method Run(id: nat, input: Input) returns (ok: bool)
      requires Valid() && backend.next + 7 <= |backend.calls|
      requires Handles(files.View(), input)
      modifies backend, backend.store, files
      ensures Valid()
      ensures ComesTo(old(backend.World()), backend.store.users, Worker(id), Loading, backend.calls,
                      old(backend.next), backend.World(), ok)
      ensures InputHandled(old(files.View()), input, files.View(),
                           backend.log[Executed(id)] > old(backend.log)[Executed(id)])
    {
      ghost var w, n := backend.World(), backend.next;
      var job, error := backend.GetJob(id);
      if job.None? || job.value.status != Uploaded {
        LastCall(w, backend.store.users, Worker(id), Loading, backend.calls, n, w, false);
        return false;
      }
      ok := Claim(id, input);
      OneCall(w, backend.store.users, Worker(id), Loading, backend.calls, n, w, Claiming(id), backend.World(), ok);
    }

    method Claim(id: nat, input: Input) returns (ok: bool)
      requires Valid() && backend.next + 6 <= |backend.calls|
      requires Handles(files.View(), input)
      modifies backend, backend.store, files
      ensures Valid()
      ensures ComesTo(old(backend.World()), backend.store.users, Worker(id), Claiming(id), backend.calls,
                      old(backend.next), backend.World(), ok)
      ensures InputHandled(old(files.View()), input, files.View(),
                           backend.log[Executed(id)] > old(backend.log)[Executed(id)])
    {
      ghost var w, n := backend.World(), backend.next;
      var claimed := backend.Mark(id, JobTable.Start(RUNNING_STEP));
      ghost var w1 := backend.World();
      if !claimed || id !in backend.store.rows || backend.store.rows[id].file.None? {
        LastCall(w, backend.store.users, Worker(id), Claiming(id), backend.calls, n, w1, false);
        return false;
      }
      var file := backend.store.rows[id].file.value;
      ok := Resolve(id, file, input);
      OneCall(w, backend.store.users, Worker(id), Claiming(id), backend.calls, n, w1, Resolving(id, file),
              backend.World(), ok);
    }

    /** Downloads the input file. */
    method Resolve(id: nat, file: FileRef, input: Input) returns (ok: bool)
      requires Valid() && backend.next + 5 <= |backend.calls|
      requires Handles(files.View(), input)
      modifies backend, backend.store, files
      ensures Valid()
      ensures ComesTo(old(backend.World()), backend.store.users, Worker(id), Resolving(id, file), backend.calls,
                      old(backend.next), backend.World(), ok)
      ensures InputHandled(old(files.View()), input, files.View(),
                           backend.log[Executed(id)] > old(backend.log)[Executed(id)])
    {
      ghost var w, n := backend.World(), backend.next;
      var path := backend.Ask();
      var resolved := path.Some? && file.key in backend.stored;
      var local := files.Resolve(if resolved then input.whenServed else input.whenNot);
      if resolved {
        ok := ExecuteWorkflow(id, local, input.removal);
      } else {
        ok := Abort(id, local, input.removal);
      }
      OneCall(w, backend.store.users, Worker(id), Resolving(id, file), backend.calls, n, w,
              if resolved then Executing(id) else Aborting(id), backend.World(), ok);
    }

    method ExecuteWorkflow(id: nat, local: Option<Workspaces.ResolvedFile>, removal: Workspaces.Removal)
      returns (ok: bool)
      requires Valid() && backend.next + 4 <= |backend.calls|
      modifies backend, backend.store, files
      ensures Valid()
      ensures ComesTo(old(backend.World()), backend.store.users, Worker(id), Executing(id), backend.calls,
                      old(backend.next), backend.World(), ok)
      ensures files.View() == CleanedUp(old(files.View()), local, removal)
      ensures backend.log[Executed(id)] == old(backend.log)[Executed(id)] + 1
    {
      ghost var w, n := backend.World(), backend.next;
      var result := backend.Execute(id);
      ghost var w1 := backend.World();
      if result.Some? {
        ok := Complete(id, result.value, local, removal);
      } else {
        ok := Abort(id, local, removal);
      }
      OneCall(w, backend.store.users, Worker(id), Executing(id), backend.calls, n, w1,
              if result.Some? then Completing(id, result.value) else Aborting(id), backend.World(), ok);
    }

    method Complete(id: nat, output: string, local: Option<Workspaces.ResolvedFile>, removal: Workspaces.Removal)
      returns (ok: bool)
      requires Valid() && backend.next + 3 <= |backend.calls|
      modifies backend, backend.store, files
      ensures Valid()
      ensures ComesTo(old(backend.World()), backend.store.users, Worker(id), Completing(id, output), backend.calls,
                      old(backend.next), backend.World(), ok)
      ensures files.View() == CleanedUp(old(files.View()), local, removal)
      ensures backend.log[Executed(id)] == old(backend.log)[Executed(id)]
    {
      ghost var w, n := backend.World(), backend.next;
      ok := backend.Mark(id, JobTable.Complete(output));
      ghost var w1 := backend.World();
      ghost var pc1 := if ok then Deleting(id, true) else Aborting(id);
      if ok {
        CleanupSafely(local, removal);
        DeleteJobFilesSafely(id, true);
      } else {
        ok := Abort(id, local, removal);
      }
      OneCall(w, backend.store.users, Worker(id), Completing(id, output), backend.calls, n, w1, pc1, backend.World(),
              ok);
    }

    /** The failure path: the files go only when the failure was persisted. */
    method Abort(id: nat, local: Option<Workspaces.ResolvedFile>, removal: Workspaces.Removal)
      returns (ok: bool)
      requires Valid() && backend.next + 2 <= |backend.calls|
      modifies backend, backend.store, files
      ensures Valid() && !ok
      ensures ComesTo(old(backend.World()), backend.store.users, Worker(id), Aborting(id), backend.calls,
                      old(backend.next), backend.World(), ok)
      ensures files.View() == CleanedUp(old(files.View()), local, removal)
      ensures backend.log[Executed(id)] == old(backend.log)[Executed(id)]
    {
      ghost var w, n := backend.World(), backend.next;
      var persisted := backend.Mark(id, Fail(backend.calls[backend.next].text, RUNNING_STEP));
      ghost var w1 := backend.World();
      CleanupSafely(local, removal);
      if persisted {
        DeleteJobFilesSafely(id, false);
        OneCall(w, backend.store.users, Worker(id), Aborting(id), backend.calls, n, w1, Deleting(id, false),
                backend.World(), false);
      } else {
        LastCall(w, backend.store.users, Worker(id), Aborting(id), backend.calls, n, w1, false);
      }
      return false;
    }

    /** Removes the local copy, if there is one; an error is only logged. */
    method CleanupSafely(local: Option<Workspaces.ResolvedFile>, removal: Workspaces.Removal)
      requires files.Valid()
      modifies files
      ensures files.Valid() && files.View() == CleanedUp(old(files.View()), local, removal)
    {
      if local.Some? {
        var _ := files.Cleanup(local.value, removal);
      }
    }

    method DeleteJobFilesSafely(id: nat, ghost ok: bool)
      requires backend.Valid() && backend.next < |backend.calls|
      modifies backend
      ensures backend.Valid() && backend.log[Executed(id)] == old(backend.log)[Executed(id)]
      ensures ComesTo(old(backend.World()), backend.store.users, Worker(id), Deleting(id, ok), backend.calls,
                      old(backend.next), backend.World(), ok)
    {
      ghost var w, n := backend.World(), backend.next;
      backend.DeletePrefix(id);
      LastCall(w, backend.store.users, Worker(id), Deleting(id, ok), backend.calls, n, backend.World(), ok);
    }
  }
}

/**
 Temporary workspaces of the worker: which of the directories on disk the materializer made, and its registry of them.
 A path is the sequence of its components; a directory is deleted together with everything below it.
 */
module Workspaces {
  import opened Prelude

  type Path = seq<string>

  /** `created` are the workspaces ever made below `root`; the code keeps only `owned`. */
  datatype Registry = Registry(root: Path, owned: set<Path>, disk: set<Path>, created: set<Path>)

  datatype ResolvedFile = ResolvedFile(localPath: Path, shouldCleanup: bool, cleanupRoot: Option<Path>)

  /** `shutil.rmtree` removes everything, or fails after removing some of what is below the directory. */
  datatype Removal = Removes | Breaks(gone: set<Path>)

  function DeleteWorkspace(r: Registry, w: Path, removal: Removal): (Registry, bool) {
    if w !in r.disk then (r.(owned := r.owned - {w}), true)
    else if removal.Removes? then
      (r.(owned := r.owned - {w}, disk := set p | p in r.disk && !(w <= p)), true)
    else
      (r.(disk := set p | p in r.disk && !(w < p && p in removal.gone)), false)
  }

  /** How resolving a job's input goes: the answers of storage and file system, in order. */
  datatype Resolution = Resolution(
    backendMatches: bool,
    inStore: bool,
    local: Option<Path>,
    localIsFile: bool,
    workspace: Option<Path>,
    filename: string,
    downloaded: Option<Path>,
    written: bool,
    isFile: bool,
    removal: Removal)

  predicate IsWorkspace(r: Registry, w: Path) {
    |w| == |r.root| + 1 && r.root < w
  }

  /** `mkdtemp` makes a directory that did not exist, directly below the root. */
  predicate Possible(r: Registry, e: Resolution) {
    e.workspace.Some? ==> IsWorkspace(r, e.workspace.value) && forall p :: p in r.disk ==> !(e.workspace.value <= p)
  }

  /** The registry once a workspace is made and, perhaps, a file written into it. */
  function Made(r: Registry, w: Path, file: Path, written: bool): Registry {
    Registry(r.root, r.owned + {w}, r.disk + {w} + (if written then {file} else {}), r.created + {w})
  }

  /** `resolve`; `None` is a StorageError. */
  function Resolve(r: Registry, e: Resolution): (Registry, Option<ResolvedFile>) {
    if !e.backendMatches || !e.inStore then (r, None)
    else if e.local.Some? then
      (r, if e.localIsFile then Some(ResolvedFile(e.local.value, false, None)) else None)
    else if e.workspace.None? then (r, None)
    else
      var w := e.workspace.value;
      var file := w + [e.filename];
      var made := Made(r, w, file, e.written);
      if e.downloaded == Some(file) && e.isFile then (made, Some(ResolvedFile(file, true, Some(w))))
      else (DeleteWorkspace(made, w, e.removal).0, None)
  }

  datatype Cleaning = Untouched | Cleaned | Refused

  /** `cleanup`, for any file it may be handed. */
  function Cleanup(r: Registry, f: ResolvedFile, removal: Removal): (Registry, Cleaning) {
    if !f.shouldCleanup then (r, Untouched)
    else if f.cleanupRoot.None? || !(f.cleanupRoot.value < f.localPath) then (r, Refused)
    else if f.cleanupRoot.value !in r.owned then
      (r, if f.cleanupRoot.value in r.disk then Refused else Untouched)
    else
      var (r', ok) := DeleteWorkspace(r, f.cleanupRoot.value, removal);
      (r', if ok then Cleaned else Refused)
  }

  // ---------------------------------------------------------------- runs

  /** `Elsewhere` is anything other processes do to the disk, short of making one of these workspaces anew. */
  datatype Op = Take(e: Resolution) | Clean(f: ResolvedFile, removal: Removal) | Elsewhere(disk: set<Path>)

  predicate Enabled(r: Registry, op: Op) {
    match op
    case Take(e) => Possible(r, e)
    case Clean(_, _) => true
    case Elsewhere(disk) => forall p :: p in disk && p in r.created ==> p in r.disk
  }

  function Step(r: Registry, op: Op): Registry
    requires Enabled(r, op)
  {
    match op
    case Take(e) => Resolve(r, e).0
    case Clean(f, removal) => Cleanup(r, f, removal).0
    case Elsewhere(disk) => r.(disk := disk)
  }

  predicate Feasible(r: Registry, ops: seq<Op>)
    decreases |ops|
  {
    ops == [] || (Enabled(r, ops[0]) && Feasible(Step(r, ops[0]), ops[1..]))
  }

  function Run(r: Registry, ops: seq<Op>): Registry
    requires Feasible(r, ops)
    decreases |ops|
  {
    if ops == [] then r else Run(Step(r, ops[0]), ops[1..])
  }

  /** Nothing the materializer made and that still exists is forgotten, and nothing else is ever registered. */
  predicate Accounted(r: Registry) {
    && r.owned <= r.created
    && (forall w :: w in r.created ==> IsWorkspace(r, w))
    && (forall w :: w in r.created && w in r.disk ==> w in r.owned)
  }

  lemma MakingKeepsAccounted(r: Registry, w: Path, filename: string, written: bool)
    requires Accounted(r) && IsWorkspace(r, w)
    ensures Accounted(Made(r, w, w + [filename], written))
  {
  }

  lemma StepKeepsAccounted(r: Registry, op: Op)
    requires Accounted(r) && Enabled(r, op)
    ensures Accounted(Step(r, op))
  {
  }

  /** Over every run, every workspace the materializer made that still exists is in its registry. */
  lemma {:induction false} RunKeepsAccounted(r: Registry, ops: seq<Op>)
    requires Accounted(r) && Feasible(r, ops)
    ensures Accounted(Run(r, ops))
    decreases |ops|
  {
    if ops != [] {
      StepKeepsAccounted(r, ops[0]);
      RunKeepsAccounted(Step(r, ops[0]), ops[1..]);
    }
  }

  /** Cleaning up, whatever it is handed, deletes nothing outside the registered workspaces. */
  lemma CleanupDeletesOnlyOwned(r: Registry, f: ResolvedFile, removal: Removal, p: Path)
    requires p in r.disk && p !in Cleanup(r, f, removal).0.disk
    ensures f.cleanupRoot.Some? && f.cleanupRoot.value in r.owned
    ensures f.cleanupRoot.value <= p && f.cleanupRoot.value < f.localPath
    ensures Cleanup(r, f, removal).0.disk <= r.disk
  {
  }

  /** Resolving deletes nothing that was there before, not even when the download fails. */
  lemma ResolvingDeletesNothing(r: Registry, e: Resolution)
    requires Possible(r, e)
    ensures r.disk <= Resolve(r, e).0.disk
  {
  }

  /** A successful resolution can always be cleaned up, which puts disk and registry back as they were. */
  lemma ResolveThenCleanup(r: Registry, e: Resolution, removal: Removal)
    requires Accounted(r) && Possible(r, e) && Resolve(r, e).1.Some?
    requires e.local.None? ==> e.written && e.workspace.value !in r.owned
    ensures var (r1, f) := Resolve(r, e);
      var (r2, cleaning) := Cleanup(r1, f.value, removal);
      && (cleaning == Untouched <==> e.local.Some?)
      && (cleaning == Cleaned <==> e.local.None? && removal.Removes?)
      && (cleaning == Refused <==> e.local.None? && removal.Breaks?)
      && (cleaning != Refused ==> r2.owned == r.owned && r2.disk == r.disk)
      && (cleaning == Refused ==> r2.owned == r.owned + {e.workspace.value} && e.workspace.value in r2.disk)
  {
  }

  /** A failed resolution leaves the registry as it was exactly when the workspace it made, if any, could be removed. */
  lemma FailedResolution(r: Registry, e: Resolution)
    requires Possible(r, e) && Resolve(r, e).1.None?
    requires e.workspace.Some? ==> e.workspace.value !in r.owned
    ensures var r' := Resolve(r, e).0;
      var made := e.backendMatches && e.inStore && e.local.None? && e.workspace.Some?;
      && (r'.owned == r.owned <==> !made || e.removal.Removes?)
      && (made && e.removal.Breaks? ==> r'.owned == r.owned + {e.workspace.value})
      && (r'.disk == r.disk <==> !made || e.removal.Removes?)
  {
  }

  /**
   An input is resolved exactly when the job's file is in this backend's store and either a local file is there, or it
   was downloaded into a new workspace and is there; the answer names that file, and is cleaned up only when downloaded.
   */
  lemma ResolvesExactly(r: Registry, e: Resolution)
    ensures var f := Resolve(r, e).1;
      var stored := e.backendMatches && e.inStore;
      && (f == (if !stored then None
                else if e.local.Some? then
                  (if e.localIsFile then Some(ResolvedFile(e.local.value, false, None)) else None)
                else if e.workspace.Some? && e.downloaded == Some(e.workspace.value + [e.filename]) && e.isFile then
                  Some(ResolvedFile(e.workspace.value + [e.filename], true, e.workspace))
                else None))
  {
  }
}

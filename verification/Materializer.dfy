/** The file materializer as an object: its registry and the disk, updated in place. */
module Materializer {
  import opened Prelude
  import opened Workspaces

  class StorageFileMaterializer {
    const root: Path
    var ownedWorkspaces: set<Path>
    var disk: set<Path>
    ghost var created: set<Path>

    ghost function View(): Registry
      reads this
    {
      Registry(root, ownedWorkspaces, disk, created)
    }

    ghost predicate Valid()
      reads this
    {
      Accounted(View())
    }

    constructor (root: Path, disk: set<Path>)
      ensures Valid() && View() == Registry(root, {}, disk, {})
    {
      this.root, this.disk, ownedWorkspaces, created := root, disk, {}, {};
    }

    method CreateWorkspace(w: Path)
      requires Valid() && IsWorkspace(View(), w)
      modifies this
      ensures Valid() && View() == Made(old(View()), w, w, false)
    {
      disk := disk + {w};
      created := created + {w};
      ownedWorkspaces := ownedWorkspaces + {w};
    }

    method DeleteWorkspace(w: Path, removal: Removal) returns (ok: bool)
      requires Valid()
      modifies this
      ensures Valid() && (View(), ok) == Workspaces.DeleteWorkspace(old(View()), w, removal)
    {
      if w in disk {
        match removal
        case Removes => disk := set p | p in disk && !(w <= p);
        case Breaks(gone) =>
          disk := set p | p in disk && !(w < p && p in gone);
          return false;
      }
      ownedWorkspaces := ownedWorkspaces - {w};
      return true;
    }

    method Resolve(e: Resolution) returns (r: Option<ResolvedFile>)
      requires Valid() && Possible(View(), e)
      modifies this
      ensures Valid() && (View(), r) == Workspaces.Resolve(old(View()), e)
    {
      if !e.backendMatches || !e.inStore {
        return None;
      }
      if e.local.Some? {
        return if e.localIsFile then Some(ResolvedFile(e.local.value, false, None)) else None;
      }
      if e.workspace.None? {
        return None;
      }
      var w := e.workspace.value;
      CreateWorkspace(w);
      var destination := w + [e.filename];
      if e.written {
        disk := disk + {destination};
      }
      assert View() == Made(old(View()), w, destination, e.written);
      MakingKeepsAccounted(old(View()), w, e.filename, e.written);
      if e.downloaded != Some(destination) || !e.isFile {
        var _ := DeleteWorkspace(w, e.removal);
        return None;
      }
      return Some(ResolvedFile(destination, true, Some(w)));
    }

    method Cleanup(f: ResolvedFile, removal: Removal) returns (cleaning: Cleaning)
      requires Valid()
      modifies this
      ensures Valid() && (View(), cleaning) == Workspaces.Cleanup(old(View()), f, removal)
    {
      if !f.shouldCleanup {
        return Untouched;
      }
      if f.cleanupRoot.None? {
        return Refused;
      }
      var workspace := f.cleanupRoot.value;
      if !(workspace < f.localPath) {
        return Refused;
      }
      if workspace !in ownedWorkspaces {
        return if workspace in disk then Refused else Untouched;
      }
      var ok := DeleteWorkspace(workspace, removal);
      return if ok then Cleaned else Refused;
    }
  }
}

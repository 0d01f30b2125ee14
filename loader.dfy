/**
 * `Genrelizer.DownloadGenreMappings`: the decision whether to fetch a new
 * version of the genre data, and the sequence of steps that installs it.
 *
 * The network, the zip archive and the file system are abstracted: the
 * newest version is a parameter (null when the request failed), the
 * archive is the folder it would extract to, and the steps that would
 * throw are given as a set.
 */
module GenreLoader {
  import opened Wrappers

  /** The repository folder: its top-level files, in enumeration order, and its sub-folders. */
  datatype Repo = Repo(files: seq<string>, folders: set<string>)

  /** The steps of an update that can throw. */
  datatype Step =
    | DownloadZip
    | DeleteOldRepo
    | Extract
    | DeleteIgnoreFolder
    | DeleteGithubFolder
    | DeleteFile(name: string)
    | WriteVersion
    | DeleteZip

  /** How a call ends: nothing to do, installed, or stopped by an exception in a step. */
  datatype Outcome = UpToDate | Updated | Failed(step: Step)

  /** `s.EndsWith(suffix)`, taken as an ordinal suffix test. */
  predicate EndsWith(s: string, suffix: string) {
    |suffix| <= |s| && s[|s| - |suffix|..] == suffix
  }

  /** The files the pruning loop keeps: those ending in ".json", in their order. */
  function JsonFiles(files: seq<string>): seq<string> {
    if files == [] then []
    else
      var last := files[|files| - 1];
      JsonFiles(files[..|files| - 1]) + (if EndsWith(last, ".json") then [last] else [])
  }

  /** A file is kept exactly when it is one of the folder's files and ends in ".json". */
  lemma {:induction false} JsonFilesMembers(files: seq<string>, f: string)
    ensures f in JsonFiles(files) <==> f in files && EndsWith(f, ".json")
    decreases |files|
  {
    if files != [] {
      var init := files[..|files| - 1];
      JsonFilesMembers(init, f);
      assert files == init + [files[|files| - 1]];
    }
  }

  /**
   * The pruning keeps the files in their order: it distributes over
   * concatenation, and a single file stays exactly when it ends in ".json".
   */
  lemma {:induction false} JsonFilesOrderPreserving(a: seq<string>, b: seq<string>, f: string)
    ensures JsonFiles(a + b) == JsonFiles(a) + JsonFiles(b)
    ensures JsonFiles([f]) == if EndsWith(f, ".json") then [f] else []
    decreases |b|
  {
    assert [f][..0] == [];
    if b == [] {
      assert a + b == a;
    } else {
      var init := b[..|b| - 1];
      JsonFilesOrderPreserving(a, init, f);
      assert (a + b)[..|a + b| - 1] == a + init;
    }
  }

  /** The installed folder: the archive without its "ignore" and ".github" folders and its non-JSON files. */
  function Pruned(archive: Repo): Repo {
    Repo(JsonFiles(archive.files), archive.folders - {"ignore", ".github"})
  }

  /**
   * The version gate: there is something to install unless the newest
   * version is unknown, or it is the current one and the repository folder
   * is present.
   */
  predicate NeedsUpdate(current: Option<string>, newest: Option<string>, repoExists: bool) {
    newest.Some? && !(newest == current && repoExists)
  }

  /** The genres folder: the contents of version.txt, the repository folder and update.zip, each absent as `None`. */
  class GenresFolder {
    var version: Option<string>
    var repo: Option<Repo>
    var zip: Option<Repo>

    constructor (version: Option<string>, repo: Option<Repo>)
      ensures this.version == version && this.repo == repo && zip == None
    {
      this.version := version;
      this.repo := repo;
      zip := None;
    }

    /**
     * One call. The current version is version.txt, or null when it is
     * missing or cannot be read. Without an update nothing changes. The
     * version is written only once the new folder is extracted and pruned,
     * so a step that throws before that leaves it as it was.
     */
    method Update(versionReadFails: bool, newest: Option<string>, archive: Repo, fails: set<Step>)
      returns (outcome: Outcome)
      modifies this
      ensures var current := if versionReadFails then None else old(version);
        outcome == UpToDate <==> !NeedsUpdate(current, newest, old(repo).Some?)
      ensures outcome == UpToDate ==> version == old(version) && repo == old(repo) && zip == old(zip)
      ensures outcome.Failed? ==> outcome.step in fails
      ensures outcome.Failed? && outcome.step != DeleteZip ==> version == old(version)
      ensures version != old(version) ==> version == newest && repo == Some(Pruned(archive))
      ensures outcome == Updated ==> version == newest && repo == Some(Pruned(archive)) && zip == None
      ensures outcome == Failed(DownloadZip) ==> version == old(version) && repo == old(repo) && zip == old(zip)
      ensures outcome == Failed(DeleteOldRepo) ==> repo == old(repo) && zip == Some(archive)
      ensures outcome == Failed(Extract) ==> repo == None && zip == Some(archive)
      ensures outcome == Failed(DeleteIgnoreFolder) ==> repo == Some(archive) && zip == Some(archive)
      ensures outcome == Failed(DeleteGithubFolder) ==>
        repo == Some(Repo(archive.files, archive.folders - {"ignore"})) && zip == Some(archive)
      ensures outcome.Failed? && outcome.step.DeleteFile? ==>
        && zip == Some(archive) && repo.Some? && repo.value.folders == Pruned(archive).folders
        && exists i | 0 <= i < |archive.files| ::
             archive.files[i] == outcome.step.name && repo.value.files == JsonFiles(archive.files[..i]) + archive.files[i..]
      ensures outcome == Failed(WriteVersion) ==> repo == Some(Pruned(archive)) && zip == Some(archive)
      ensures outcome == Failed(DeleteZip) ==> version == newest && repo == Some(Pruned(archive)) && zip == Some(archive)
    {
      var current := if versionReadFails then None else version;
      if newest.None? {
        return UpToDate;
      }
      if newest == current && repo.Some? {
        return UpToDate;
      }

      if DownloadZip in fails {
        return Failed(DownloadZip);
      }
      zip := Some(archive);

      if repo.Some? {
        if DeleteOldRepo in fails {
          return Failed(DeleteOldRepo);
        }
        repo := None;
      }

      if Extract in fails {
        return Failed(Extract);
      }
      repo := Some(archive);

      var removed := RemoveFolders(fails);
      if removed.Some? {
        return Failed(removed.value);
      }

      ghost var at;
      var failed;
      failed, at := PruneFiles(fails);
      if failed.Some? {
        return Failed(failed.value);
      }

      if WriteVersion in fails {
        return Failed(WriteVersion);
      }
      version := newest;

      if DeleteZip in fails {
        return Failed(DeleteZip);
      }
      zip := None;
      return Updated;
    }

    /** The deletion of the "ignore" and ".github" folders, each when present. */
    method RemoveFolders(fails: set<Step>) returns (failed: Option<Step>)
      requires repo.Some?
      modifies this
      ensures version == old(version) && zip == old(zip) && repo.Some?
      ensures repo.value.files == old(repo).value.files
      ensures failed.None? ==> repo.value.folders == old(repo).value.folders - {"ignore", ".github"}
      ensures failed.Some? ==> failed.value in fails
      ensures failed.Some? ==>
        || (failed.value == DeleteIgnoreFolder && "ignore" in old(repo).value.folders && repo == old(repo))
        || (failed.value == DeleteGithubFolder && ".github" in old(repo).value.folders
            && repo.value.folders == old(repo).value.folders - {"ignore"})
    {
      var files := repo.value.files;
      var folders := repo.value.folders;
      if "ignore" in folders {
        if DeleteIgnoreFolder in fails {
          return Some(DeleteIgnoreFolder);
        }
        folders := folders - {"ignore"};
      }
      assert folders == old(repo).value.folders - {"ignore"};
      if ".github" in folders {
        if DeleteGithubFolder in fails {
          repo := Some(Repo(files, folders));
          return Some(DeleteGithubFolder);
        }
        folders := folders - {".github"};
      }
      assert folders == old(repo).value.folders - {"ignore", ".github"};
      repo := Some(Repo(files, folders));
      return None;
    }

    /**
     * The loop deleting every top-level file of the repository folder that
     * does not end in ".json". A deletion that throws stops it, with the
     * files not yet visited still present: `at` is the position of the file
     * whose deletion threw.
     */
    method PruneFiles(fails: set<Step>) returns (failed: Option<Step>, ghost at: nat)
      requires repo.Some?
      modifies this
      ensures version == old(version) && zip == old(zip) && repo.Some?
      ensures repo.value.folders == old(repo).value.folders
      ensures failed.None? ==> repo.value.files == JsonFiles(old(repo).value.files)
      ensures failed.Some? ==>
        && failed.value in fails && failed.value.DeleteFile?
        && !EndsWith(failed.value.name, ".json") && failed.value.name in old(repo).value.files
      ensures failed.Some? ==>
        && at < |old(repo).value.files| && failed.value == DeleteFile(old(repo).value.files[at])
        && repo.value.files == JsonFiles(old(repo).value.files[..at]) + old(repo).value.files[at..]
    {
      var files := repo.value.files;
      var folders := repo.value.folders;
      var kept: seq<string> := [];
      var i := 0;
      while i < |files|
        invariant 0 <= i <= |files|
        invariant kept == JsonFiles(files[..i])
      {
        var f := files[i];
        assert files[..i + 1][..i] == files[..i];
        if !EndsWith(f, ".json") {
          if DeleteFile(f) in fails {
            repo := Some(Repo(kept + files[i..], folders));
            return Some(DeleteFile(f)), i;
          }
        } else {
          kept := kept + [f];
        }
        i := i + 1;
      }
      assert files[..i] == files;
      repo := Some(Repo(kept, folders));
      return None, 0;
    }
  }
}

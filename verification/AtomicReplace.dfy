/**
 * Replacing a file in one move: the private state file of OpenMuse
 * (open-muse/server/private-file.ts) and the staged disk image
 * (celesto-core/src/disk.rs). Each call is a fixed sequence of file-system
 * changes that may fail at any of them; the methods return every intermediate
 * state, as a crash or another process could see it.
 */
module AtomicReplace {
  import opened Common

  /** In all states the target holds its old content or the complete new one. */
  ghost predicate OldOrNew(targets: seq<Option<bytes>>, old_: Option<bytes>, new_: bytes) {
    forall i :: 0 <= i < |targets| ==> targets[i] == old_ || targets[i] == Some(new_)
  }

  // ---------------------------------------------------------------- the private state file

  datatype PrivateStep = MakeDirectory | WriteTemporary | RenameIntoPlace | ChangeMode | OpenDirectory | SyncDirectory

  function PrivateOrder(s: PrivateStep): nat {
    match s
    case MakeDirectory => 0
    case WriteTemporary => 1
    case RenameIntoPlace => 2
    case ChangeMode => 3
    case OpenDirectory => 4
    case SyncDirectory => 5
  }

  /** The target and the temporary file; `durable` is what the target may hold after a loss of power. */
  datatype PrivateFs = PrivateFs(target: Option<bytes>, temporary: Option<bytes>, durable: set<Option<bytes>>)

  ghost function PrivateTargets(trace: seq<PrivateFs>): seq<Option<bytes>> {
    seq(|trace|, i requires 0 <= i < |trace| => trace[i].target)
  }

  /**
   * Writes `contents` next to the target and renames it into place. `failing` is
   * the step that fails, `torn` what a failing write leaves in the temporary
   * file, and `posix` is false on Windows, where the last three steps do not run.
   */
  method WritePrivateFileAtomically(fs: PrivateFs, contents: bytes, failing: Option<PrivateStep>, torn: bytes,
                                    posix: bool, unlinkWorks: bool)
    returns (ok: bool, trace: seq<PrivateFs>)
    requires fs.temporary.None?
    ensures |trace| > 0 && trace[0] == fs
    ensures OldOrNew(PrivateTargets(trace), fs.target, contents)
    ensures ok <==> failing.None? || (!posix && PrivateOrder(failing.value) > PrivateOrder(RenameIntoPlace))
    ensures var end := trace[|trace| - 1];
      && end.target == (if failing.Some? && PrivateOrder(failing.value) <= PrivateOrder(RenameIntoPlace)
          then fs.target else Some(contents))
      && (ok || unlinkWorks ==> end.temporary.None?)
    ensures failing.Some? && PrivateOrder(failing.value) <= PrivateOrder(RenameIntoPlace) ==>
              forall i :: 0 <= i < |trace| ==> trace[i].target == fs.target && trace[i].durable == fs.durable
    ensures forall i :: 0 <= i < |trace| ==> trace[i].durable <= fs.durable + {Some(contents)}
    ensures ok && posix ==> trace[|trace| - 1].durable == {Some(contents)}
  {
    var now := fs;
    trace := [now];
    if failing == Some(MakeDirectory) {
      return false, trace;
    }
    now := now.(temporary := Some(if failing == Some(WriteTemporary) then torn else contents));
    trace := trace + [now];
    if failing != Some(WriteTemporary) && failing != Some(RenameIntoPlace) {
      now := PrivateFs(now.temporary, None, now.durable + {now.temporary});
      trace := trace + [now];
      if !posix {
        return true, trace;
      }
      if failing.None? {
        now := now.(durable := {now.target});
        trace := trace + [now];
        return true, trace;
      }
    }
    if unlinkWorks {
      now := now.(temporary := None);
    }
    trace := trace + [now];
    return false, trace;
  }

  // ---------------------------------------------------------------- the staged image

  datatype StageStep = MakeStage | OpenStage | CreateData | FillData | SyncData | RenameData | SyncParent

  function StageOrder(s: StageStep): nat {
    match s
    case MakeStage => 0
    case OpenStage => 1
    case CreateData => 2
    case FillData => 3
    case SyncData => 4
    case RenameData => 5
    case SyncParent => 6
  }

  /** The target, whether the staging directory exists, and the staged file in it. */
  datatype StageFs = StageFs(target: Option<bytes>, stage: bool, data: Option<bytes>)

  ghost function StageTargets(trace: seq<StageFs>): seq<Option<bytes>> {
    seq(|trace|, i requires 0 <= i < |trace| => trace[i].target)
  }

  /**
   * Creates a private staging directory, fills a file in it (`partial` are the
   * contents it has on the way to the image), renames it over the target, and
   * cleans up when the stage is dropped. A directory with the staged file still
   * in it cannot be removed.
   */
  method ReplaceStaged(fs: StageFs, image: bytes, partial: seq<bytes>, failing: Option<StageStep>, unlinkWorks: bool,
      rmdirWorks: bool)
    returns (ok: bool, trace: seq<StageFs>)
    requires !fs.stage && fs.data.None?
    ensures |trace| > 0 && trace[0] == fs
    ensures OldOrNew(StageTargets(trace), fs.target, image)
    ensures ok <==> failing.None?
    ensures var end := trace[|trace| - 1];
      && end.target == (if failing.Some? && StageOrder(failing.value) <= StageOrder(RenameData) then fs.target
          else Some(image))
      && (unlinkWorks && rmdirWorks ==> !end.stage && end.data.None?)
    ensures failing.Some? && StageOrder(failing.value) <= StageOrder(RenameData) ==>
              forall i :: 0 <= i < |trace| ==> trace[i].target == fs.target
  {
    var now := fs;
    trace := [now];
    if failing == Some(MakeStage) {
      return false, trace;
    }
    now := now.(stage := true);
    trace := trace + [now];
    if failing != Some(OpenStage) && failing != Some(CreateData) {
      now := now.(data := Some([]));
      trace := trace + [now];
      for i := 0 to |partial|
        invariant now.target == fs.target && now.stage && now.data.Some?
        invariant |trace| > 0 && trace[0] == fs && forall k :: 0 <= k < |trace| ==> trace[k].target == fs.target
      {
        now := now.(data := Some(partial[i]));
        trace := trace + [now];
      }
      if failing != Some(FillData) {
        now := now.(data := Some(image));
        trace := trace + [now];
        if failing != Some(SyncData) && failing != Some(RenameData) {
          now := StageFs(now.data, true, None);
          trace := trace + [now];
        }
      }
      if unlinkWorks {
        now := now.(data := None);
        trace := trace + [now];
      }
    }
    if rmdirWorks && now.data.None? {
      now := now.(stage := false);
      trace := trace + [now];
    }
    return failing.None?, trace;
  }
}

/**
 * The queued writer of the approval protocol and the file it writes: what
 * `WritePrivateFileAtomically` does to the state file, step by step and cut off
 * anywhere, is what the writer's steps of `ApprovalProtocol` allow.
 */
module ApprovalDisk {
  import opened Common
  import opened OperationLifecycle
  import opened ApprovalProtocol
  import opened ApprovalSafety
  import opened AtomicReplace

  /** What the state file may hold when the protocol says that its content is one of `disk`. */
  ghost function Files(disk: set<Snapshot>, encode: Snapshot -> bytes): set<Option<bytes>> {
    set c | c in disk :: Some(encode(c))
  }

  /** Neither a crash of the process nor, where directories are synced, a loss of power shows anything else. */
  ghost predicate ShowsOnly(fs: PrivateFs, disk: set<Snapshot>, encode: Snapshot -> bytes, posix: bool) {
    fs.target in Files(disk, encode) && (posix ==> fs.durable <= Files(disk, encode))
  }

  /** After some of the writer's steps the protocol allows what is seen in `fs`. */
  ghost predicate Allowed(s: State, steps: seq<Step>, fs: PrivateFs, encode: Snapshot -> bytes, posix: bool) {
    exists k :: 0 <= k <= |steps| && Runs(s, steps[..k]) && ShowsOnly(fs, Final(s, steps[..k]).disk, encode, posix)
  }

  lemma OneStep(s: State, a: Step)
    requires Enabled(s, a)
    ensures Runs(s, [a]) && Final(s, [a]) == Apply(s, a)
  {
    hide Apply;
    hide Enabled;
    var t := Apply(s, a);
    assert [a][1..] == [];
    assert Runs(t, []) && Final(t, []) == t;
    assert Runs(s, [a]) && Final(s, [a]) == Final(t, [a][1..]);
  }

  lemma TwoSteps(s: State, a: Step, b: Step)
    requires Enabled(s, a) && Enabled(Apply(s, a), b)
    ensures Runs(s, [a, b]) && Final(s, [a, b]) == Apply(Apply(s, a), b)
  {
    hide Apply;
    hide Enabled;
    var t := Apply(s, a);
    OneStep(t, b);
    assert [a, b][1..] == [b];
    assert Runs(s, [a, b]) && Final(s, [a, b]) == Final(t, [a, b][1..]);
  }

  lemma FilesGrow(disk: set<Snapshot>, c: Snapshot, encode: Snapshot -> bytes)
    ensures Files(disk + {c}, encode) == Files(disk, encode) + {Some(encode(c))}
  {
  }

  /** The disk after each of the writer's steps on a write that has not landed. */
  lemma WriterDisks(s: State)
    requires s.queue != [] && !s.queue[0].landed
    ensures var c := s.queue[0].snapshot;
      var lands, ends, fails := Writer(SaveLands), Writer(SaveSucceeds), Writer(SaveFails);
      && Enabled(s, fails) && Apply(s, fails).disk == s.disk
      && Enabled(s, lands) && Apply(s, lands).disk == s.disk + {c}
      && Enabled(Apply(s, lands), ends) && Apply(Apply(s, lands), ends).disk == {c}
      && Enabled(Apply(s, lands), fails) && Apply(Apply(s, lands), fails).disk == s.disk + {c}
  {
    hide Serialize;
  }

  lemma AllowedAfter(s: State, steps: seq<Step>, k: nat, fs: PrivateFs, encode: Snapshot -> bytes, posix: bool)
    requires k <= |steps| && Runs(s, steps[..k]) && ShowsOnly(fs, Final(s, steps[..k]).disk, encode, posix)
    ensures Allowed(s, steps, fs, encode, posix)
  {
  }

  /**
   * The oldest queued write is performed. It amounts to a failure, to a landing and
   * a failure, or to a landing and a success of the protocol, and it is reported as
   * such; at the end the file holds what the protocol then allows, and cut off at
   * any point it shows only what the protocol allows on the way.
   */
  method PerformSave(s: State, fs: PrivateFs, encode: Snapshot -> bytes, failing: Option<PrivateStep>, torn: bytes,
                     posix: bool, unlinkWorks: bool)
    returns (ok: bool, trace: seq<PrivateFs>, ghost steps: seq<Step>)
    requires s.queue != [] && !s.queue[0].landed
    requires fs.temporary.None? && ShowsOnly(fs, s.disk, encode, posix)
    ensures Runs(s, steps)
    ensures steps in {[Writer(SaveFails)], [Writer(SaveLands), Writer(SaveFails)],
                      [Writer(SaveLands), Writer(SaveSucceeds)]}
    ensures ok <==> steps == [Writer(SaveLands), Writer(SaveSucceeds)]
    ensures |trace| > 0 && ShowsOnly(trace[|trace| - 1], Final(s, steps).disk, encode, posix)
    ensures forall i :: 0 <= i < |trace| ==> Allowed(s, steps, trace[i], encode, posix)
  {
    var c := s.queue[0].snapshot;
    ok, trace := WritePrivateFileAtomically(fs, encode(c), failing, torn, posix, unlinkWorks);
    ghost var lands, ends, fails := Writer(SaveLands), Writer(SaveSucceeds), Writer(SaveFails);
    WriterDisks(s);
    FilesGrow(s.disk, c, encode);
    assert forall i :: 0 <= i < |trace| ==> PrivateTargets(trace)[i] == trace[i].target;
    hide Apply;
    hide Enabled;
    if failing.Some? && PrivateOrder(failing.value) <= PrivateOrder(RenameIntoPlace) {
      steps := [fails];
      OneStep(s, fails);
      assert steps[..0] == [] && steps[..1] == steps;
      forall i | 0 <= i < |trace| ensures Allowed(s, steps, trace[i], encode, posix) {
        AllowedAfter(s, steps, 0, trace[i], encode, posix);
      }
    } else {
      steps := if ok then [lands, ends] else [lands, fails];
      OneStep(s, lands);
      TwoSteps(s, lands, steps[1]);
      assert steps[..1] == [lands];
      forall i | 0 <= i < |trace| ensures Allowed(s, steps, trace[i], encode, posix) {
        AllowedAfter(s, steps, 1, trace[i], encode, posix);
      }
    }
  }
}

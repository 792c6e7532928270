/**
 * Runs in which a restart raises a banner again that Continue had settled. The
 * process dies between the Continue and the checkpoint that would have saved it
 * (`ContinueForgotten`); the restarted server then saves what it loaded
 * (`SavedTooLate`); or the banner itself was never saved, and the restart finds
 * the operation unfinished (`UnsavedBanner`).
 */
module ApprovalForgets {
  import opened Common
  import opened OperationLifecycle
  import opened ApprovalProtocol
  import opened ApprovalSafety
  import opened ApprovalRecovery
  import opened ApprovalContinue

  const CODE := "EXECUTION_FAILED"

  function Approval(s: State): Record {
    ApproveOperation(CheckoutReview, 0, s.nextId + 1)
  }

  function Dispatching(s: State): Record {
    Approval(s).(state := Dispatched, updatedAt := 1)
  }

  function Lost(s: State): Record {
    Dispatching(s).(state := OutcomeUnknown, updatedAt := 2, errorCode := Some(CODE))
  }

  lemma OneRecord(r: Record)
    requires Redact(r) == r
    ensures Upsert([], r) == [r] && Serialize([r]) == [r]
  {
    assert [r][..0] == [];
    assert Serialize([]) == [];
    assert Upsert([], r) == [r] by {
      assert Without([], r.id) == [];
      assert [] + [r] == [r];
      SingleUpsert(r);
    }
  }

  lemma SingleUpsert(r: Record)
    ensures Next([], r) == [r]
    ensures LastN(Terminals([r]), MAX_TERMINAL_OPERATIONS) + LastN(Actives([r]), 1) == [r]
    ensures Sort([r]) == [r]
  {
    assert [r][..0] == [];
    assert Terminals([]) == [] && Actives([]) == [] && Sort([]) == [];
  }

  lemma Replaced(old_: Record, r: Record)
    requires old_.id == r.id
    ensures Upsert([old_], r) == [r]
  {
    assert [old_][..0] == [];
    assert Without([], r.id) == [];
    assert Without([old_], r.id) == [];
    SingleUpsert(r);
  }

  // ---------------------------------------------------------------- runs, step by step

  /** `steps` leads from `s` to `t`. */
  ghost predicate Leads(s: State, steps: seq<Step>, t: State) {
    Runs(s, steps) && Final(s, steps) == t
  }

  lemma {:induction false} LeadsOn(s: State, steps: seq<Step>, t: State, step: Step)
    requires Leads(s, steps, t) && Enabled(t, step)
    ensures Leads(s, steps + [step], Apply(t, step))
    decreases |steps|
  {
    hide Apply;
    hide Enabled;
    var all := steps + [step];
    if steps == [] {
      assert s == t && all[0] == step && all[1..] == [];
      var next := Apply(s, step);
      assert Leads(next, [], next);
      assert Runs(s, all) && Final(s, all) == Final(next, all[1..]);
    } else {
      LeadsOn(Apply(s, steps[0]), steps[1..], t, step);
      assert all[0] == steps[0] && all[1..] == steps[1..] + [step];
    }
  }

  /** The one queued write reaches the disk and its waiter. */
  function Written(t: State, f: nat, c: Snapshot): State
    requires f in t.flows
  {
    t.(queue := [], disk := {c}, flows := t.flows[f := t.flows[f].(save := Saved)],
       persisted := t.persisted + if t.flows[f].stage == SavingDispatched then {t.flows[f].op.id} else {})
  }

  lemma Writes(s: State, steps: seq<Step>, t: State, f: nat, c: Snapshot)
    requires Leads(s, steps, t) && f in t.flows && t.queue == [Save(c, Some(f), false)]
    ensures Leads(s, steps + [Writer(SaveLands), Writer(SaveSucceeds)], Written(t, f, c))
  {
    hide Leads;
    var landed := t.(queue := [Save(c, Some(f), true)], disk := t.disk + {c});
    assert Apply(t, Writer(SaveLands)) == landed;
    LeadsOn(s, steps, t, Writer(SaveLands));
    assert Apply(landed, Writer(SaveSucceeds)) == Written(t, f, c);
    LeadsOn(s, steps + [Writer(SaveLands)], landed, Writer(SaveSucceeds));
    assert steps + [Writer(SaveLands)] + [Writer(SaveSucceeds)] == steps + [Writer(SaveLands), Writer(SaveSucceeds)];
  }

  /** What every state of the run has in common. */
  function Base(s: State, journal: seq<Record>, stage: Stage, op: Record, save: SaveOutcome): State {
    var f := s.nextId;
    s.(ready := true, nextId := f + 2, journal := journal, lease := Some(Lease(f, true)), active := Some(f),
       flows := map[f := Flow(stage, op, 0, save, false)], runState := WaitingForApproval,
       requests := map[f + 1 := f])
  }

  function AtRequest(s: State): State {
    var f := s.nextId;
    s.(ready := true, nextId := f + 1, pending := Some(f), lease := Some(Lease(f, true)), active := Some(f),
       flows := map[f := Flow(Decided(true), NO_RECORD, 0, Saved, false)], runState := WaitingForApproval)
  }

  lemma Requests(s: State)
    requires Initial(s)
    ensures Leads(s, [Control(BrowserReady), Gate(Register), Gate(Decide(s.nextId, true))], AtRequest(s))
  {
    var f := s.nextId;
    var ready := s.(ready := true);
    var asked := ready.(pending := Some(f), lease := Some(Lease(f, false)), nextId := f + 1,
                        flows := map[f := Flow(Waiting, NO_RECORD, 0, Saved, false)], runState := WaitingForApproval);
    assert Leads(s, [], s);
    hide Leads;
    assert Apply(s, Control(BrowserReady)) == ready;
    LeadsOn(s, [], s, Control(BrowserReady));
    assert Apply(ready, Gate(Register)) == asked;
    LeadsOn(s, [] + [Control(BrowserReady)], ready, Gate(Register));
    assert Apply(asked, Gate(Decide(f, true))) == AtRequest(s);
    LeadsOn(s, [] + [Control(BrowserReady)] + [Gate(Register)], asked, Gate(Decide(f, true)));
    assert [] + [Control(BrowserReady)] + [Gate(Register)] + [Gate(Decide(f, true))]
        == [Control(BrowserReady), Gate(Register), Gate(Decide(f, true))];
  }

  // ---------------------------------------------------------------- the approval

  /** The steps up to the saved dispatch. */
  function Dispatches(s: State): seq<Step> {
    var f := s.nextId;
    [Control(BrowserReady), Gate(Register), Gate(Decide(f, true))]
    + [Driver(ResolveApprove(f, CheckoutReview, 0))] + [Writer(SaveLands), Writer(SaveSucceeds)]
    + [Driver(ApprovedSaved(f))] + [Driver(Dispatch(f, 1))] + [Writer(SaveLands), Writer(SaveSucceeds)]
  }

  function FirstCopy(s: State): Snapshot {
    Snapshot([Approval(s)], WaitingForApproval, Agent, 1)
  }

  function SecondCopy(s: State): Snapshot {
    Snapshot([Dispatching(s)], WaitingForApproval, Agent, 2)
  }

  function AtApproval(s: State): State {
    Base(s, [Approval(s)], SavingApproved, Approval(s), Pending)
      .(queue := [Save(FirstCopy(s), Some(s.nextId), false)], saves := 2)
  }

  lemma ApproveStep(s: State)
    requires Initial(s)
    ensures var step := Driver(ResolveApprove(s.nextId, CheckoutReview, 0));
      && Enabled(AtRequest(s), step)
      && Apply(AtRequest(s), step) == AtApproval(s)
  {
    hide Upsert;
    hide Serialize;
    OneRecord(Approval(s));
  }

  function AtCheck(s: State): State {
    Base(s, [Approval(s)], Checking, Approval(s), Saved).(disk := {FirstCopy(s)}, saves := 2)
  }

  /** After the dispatch; `save` is what its checkpoint has come to. */
  function AtDispatch(s: State, save: SaveOutcome): State {
    var f := s.nextId;
    Base(s, [Dispatching(s)], SavingDispatched, Dispatching(s), save)
      .(flows := map[f := Flow(SavingDispatched, Dispatching(s), s.epoch, save, false)],
        disk := {SecondCopy(s)}, saves := 3, persisted := {f + 1})
  }

  lemma DispatchStep(s: State)
    requires Initial(s)
    ensures var step := Driver(Dispatch(s.nextId, 1));
      && Enabled(AtCheck(s), step)
      && Apply(AtCheck(s), step)
         == AtDispatch(s, Pending).(queue := [Save(SecondCopy(s), Some(s.nextId), false)], disk := {FirstCopy(s)},
             persisted := {})
  {
    hide Upsert;
    hide Serialize;
    Replaced(Approval(s), Dispatching(s));
    OneRecord(Dispatching(s));
  }

  lemma CheckStep(s: State)
    requires Initial(s)
    ensures var written := Written(AtApproval(s), s.nextId, FirstCopy(s));
      && Enabled(written, Driver(ApprovedSaved(s.nextId)))
      && Apply(written, Driver(ApprovedSaved(s.nextId))) == AtCheck(s)
  {
  }

  lemma ToCheck(s: State)
    requires Initial(s)
    ensures var f := s.nextId;
      Leads(s, [Control(BrowserReady), Gate(Register), Gate(Decide(f, true))]
               + [Driver(ResolveApprove(f, CheckoutReview, 0))] + [Writer(SaveLands), Writer(SaveSucceeds)]
               + [Driver(ApprovedSaved(f))], AtCheck(s))
  {
    hide Leads;
    hide Apply;
    hide Enabled;
    hide Initial;
    hide AtRequest;
    var f := s.nextId;
    var asking := [Control(BrowserReady), Gate(Register), Gate(Decide(f, true))];
    var approving := asking + [Driver(ResolveApprove(f, CheckoutReview, 0))];
    Requests(s);
    ApproveStep(s);
    LeadsOn(s, asking, AtRequest(s), Driver(ResolveApprove(f, CheckoutReview, 0)));
    Writes(s, approving, AtApproval(s), f, FirstCopy(s));
    CheckStep(s);
    LeadsOn(s, approving + [Writer(SaveLands), Writer(SaveSucceeds)], Written(AtApproval(s), f, FirstCopy(s)),
            Driver(ApprovedSaved(f)));
  }

  lemma ToDispatch(s: State)
    requires Initial(s)
    ensures Leads(s, Dispatches(s), AtDispatch(s, Saved))
  {
    hide Leads;
    hide Apply;
    hide Enabled;
    hide Initial;
    var f := s.nextId;
    var checking := [Control(BrowserReady), Gate(Register), Gate(Decide(f, true))]
      + [Driver(ResolveApprove(f, CheckoutReview, 0))] + [Writer(SaveLands), Writer(SaveSucceeds)]
      + [Driver(ApprovedSaved(f))];
    ToCheck(s);
    DispatchStep(s);
    LeadsOn(s, checking, AtCheck(s), Driver(Dispatch(f, 1)));
    var sent := AtDispatch(s, Pending).(queue := [Save(SecondCopy(s), Some(f), false)], disk := {FirstCopy(s)},
        persisted := {});
    Writes(s, checking + [Driver(Dispatch(f, 1))], sent, f, SecondCopy(s));
    assert Written(sent, f, SecondCopy(s)) == AtDispatch(s, Saved) by { InitialQueue(s); }
  }

  lemma InitialQueue(s: State)
    requires Initial(s)
    ensures s.queue == [] && s.persisted == {}
  {
  }

  // ---------------------------------------------------------------- the lost outcome, Continue, and the crash

  function ThirdCopy(s: State): Snapshot {
    Snapshot([Lost(s)], Interrupted, Agent, 3)
  }

  /** The steps up to the Continue. */
  function Continues(s: State): seq<Step> {
    var f := s.nextId;
    Dispatches(s) + [Driver(Begin(f))] + [Driver(LoseOutcome(f, CODE, 2))] + [Writer(SaveLands), Writer(SaveSucceeds)]
    + [Driver(Finish(f))] + [Control(Continue(3))]
  }

  function AtExecution(s: State): State {
    var f := s.nextId;
    AtDispatch(s, Saved).(flows := map[f := Flow(Executing, Dispatching(s), s.epoch, Saved, false)],
                           effects := multiset{f + 1})
  }

  function AtLoss(s: State): State {
    var f := s.nextId;
    AtExecution(s).(journal := [Lost(s)], recovery := Some(Recovery(RecoverUnknown, Some(f + 1))),
        runState := Interrupted,
                   flows := map[f := Flow(Settling, Lost(s), s.epoch, Pending, false)],
                   queue := [Save(ThirdCopy(s), Some(f), false)], saves := 4)
  }

  function AtFinish(s: State): State {
    AtLoss(s).(flows := map[], lease := None, queue := [], disk := {ThirdCopy(s)})
  }

  lemma LoseStep(s: State)
    requires Initial(s)
    ensures Enabled(AtExecution(s), Driver(LoseOutcome(s.nextId, CODE, 2)))
    ensures Apply(AtExecution(s), Driver(LoseOutcome(s.nextId, CODE, 2))) == AtLoss(s)
  {
    hide Upsert;
    hide Serialize;
    Replaced(Dispatching(s), Lost(s));
    OneRecord(Lost(s));
  }

  lemma BeginStep(s: State)
    requires Initial(s)
    ensures Enabled(AtDispatch(s, Saved), Driver(Begin(s.nextId)))
    ensures Apply(AtDispatch(s, Saved), Driver(Begin(s.nextId))) == AtExecution(s)
  {
  }

  lemma FinishStep(s: State)
    requires Initial(s)
    ensures var written := Written(AtLoss(s), s.nextId, ThirdCopy(s));
      && Enabled(written, Driver(Finish(s.nextId)))
      && Apply(written, Driver(Finish(s.nextId))) == AtFinish(s)
  {
  }

  lemma ToFinish(s: State)
    requires Initial(s)
    ensures var f := s.nextId;
      Leads(s, Dispatches(s) + [Driver(Begin(f))] + [Driver(LoseOutcome(f, CODE, 2))]
               + [Writer(SaveLands), Writer(SaveSucceeds)] + [Driver(Finish(f))], AtFinish(s))
  {
    hide Leads;
    hide Apply;
    hide Enabled;
    hide Initial;
    hide Dispatches;
    hide AtDispatch;
    var f := s.nextId;
    var beginning := Dispatches(s) + [Driver(Begin(f))];
    var losing := beginning + [Driver(LoseOutcome(f, CODE, 2))];
    ToDispatch(s);
    BeginStep(s);
    LeadsOn(s, Dispatches(s), AtDispatch(s, Saved), Driver(Begin(f)));
    LoseStep(s);
    LeadsOn(s, beginning, AtExecution(s), Driver(LoseOutcome(f, CODE, 2)));
    Writes(s, losing, AtLoss(s), f, ThirdCopy(s));
    FinishStep(s);
    LeadsOn(s, losing + [Writer(SaveLands), Writer(SaveSucceeds)], Written(AtLoss(s), f, ThirdCopy(s)),
        Driver(Finish(f)));
  }

  /**
   * The user approved, the browser acted once, its outcome was lost and saved as
   * unknown, and the user chose Continue; a crash now makes the restart show the
   * same banner again, although the live journal had acknowledged it.
   */
  lemma ContinueForgotten(s: State)
    requires Initial(s)
    ensures Runs(s, Continues(s))
    ensures var t := Final(s, Continues(s));
      && t.recovery.None? && t.saves == 4 && t.effects[s.nextId + 1] == 1 && Quiet(t.journal, s.nextId + 1)
      && ThirdCopy(s) in t.disk
      && For(Restore(t, ThirdCopy(s), 4).recovery, s.nextId + 1)
  {
    var done := AtFinish(s);
    ToFinish(s);
    assert Enabled(done, Control(Continue(3)));
    var f := s.nextId;
    var t := Apply(done, Control(Continue(3)));
    assert t.disk == {ThirdCopy(s)} && t.saves == 4 && t.recovery.None? && t.effects == multiset{f + 1};
    assert Quiet(t.journal, f + 1) by { AcknowledgeQuiet(done.journal, f + 1, Some(f + 1), 3); }
    LastBanner(s, t);
    hide Apply;
    hide Enabled;
    hide Dispatches;
    LeadsOn(s, Dispatches(s) + [Driver(Begin(f))] + [Driver(LoseOutcome(f, CODE, 2))]
               + [Writer(SaveLands), Writer(SaveSucceeds)] + [Driver(Finish(f))], done, Control(Continue(3)));
  }

  lemma LastBanner(s: State, t: State)
    ensures For(Restore(t, ThirdCopy(s), 4).recovery, s.nextId + 1)
  {
    RecoverShowsBanner([Lost(s)], 4);
  }

  // ---------------------------------------------------------------- a save that comes too late

  /** The run above, the crash, and a checkpoint of the restarted server that is saved. */
  function SavesLate(s: State): seq<Step> {
    Continues(s) + [Control(Crash(ThirdCopy(s), 4))]
    + [Writer(Checkpoint)] + [Writer(SaveLands)] + [Writer(SaveSucceeds)]
  }

  /** The checkpoint of the restarted server. */
  function LateCopy(s: State): Snapshot {
    Snapshot([Lost(s)], Interrupted, Agent, 4)
  }

  lemma LostJournal(s: State)
    ensures Serialize([Lost(s)]) == [Lost(s)] && Recover([Lost(s)], 4).0 == [Lost(s)] && Canonical([Lost(s)])
    ensures For(Banner([Lost(s)]), s.nextId + 1)
  {
    hide Upsert;
    hide Serialize;
    hide RecoverPrefix;
    hide Canonical;
    OneRecord(Lost(s));
    UpsertIsCanonical([], Lost(s));
    RecoverNone([Lost(s)], 1, 4);
    assert [Lost(s)][0] == Lost(s);
  }

  lemma Restarted(s: State, t: State)
    requires t.saves == 4
    ensures var r := Restore(t, ThirdCopy(s), 4);
      && r.queue == [] && r.disk == t.disk && r.saves == 4 && For(r.recovery, s.nextId + 1)
      && SnapshotOf(r) == LateCopy(s)
  {
    LostJournal(s);
    LastBanner(s, t);
    hide Serialize;
    hide Recover;
  }

  lemma SavedAlone(r: State, c: Snapshot)
    requires r.queue == [] && SnapshotOf(r) == c
    ensures var queued := r.(queue := [Save(c, None, false)], saves := r.saves + 1);
      var landed := queued.(queue := [Save(c, None, true)], disk := r.disk + {c});
      && Enabled(r, Writer(Checkpoint)) && Apply(r, Writer(Checkpoint)) == queued
      && Enabled(queued, Writer(SaveLands)) && Apply(queued, Writer(SaveLands)) == landed
      && Enabled(landed, Writer(SaveSucceeds))
      && Apply(landed, Writer(SaveSucceeds)) == queued.(queue := [], disk := {c})
  {
    hide Serialize;
  }

  /**
   * That a checkpoint was queued after the Continue is not enough: this one was
   * queued by a run that had forgotten it, and once it is saved the banner is
   * shown, live and after every further restart.
   */
  lemma SavedTooLate(s: State)
    requires Initial(s)
    ensures Runs(s, Continues(s)) && Runs(s, SavesLate(s))
    ensures var t, x := Final(s, Continues(s)), Final(s, SavesLate(s));
      && x.disk == {LateCopy(s)} && LateCopy(s).ticket >= t.saves
      && For(x.recovery, s.nextId + 1) && For(Restore(x, LateCopy(s), 5).recovery, s.nextId + 1)
  {
    ContinueForgotten(s);
    hide Continues;
    hide Initial;
    hide Leads;
    hide ThirdCopy;
    hide LateCopy;
    hide Restore;
    hide SnapshotOf;
    hide Runs;
    hide Final;
    var t := Final(s, Continues(s));
    var r := Restore(t, ThirdCopy(s), 4);
    LeadsItself(s, Continues(s));
    Restarted(s, t);
    LeadsToRestart(s, Continues(s), t, ThirdCopy(s), 4);
    SavesAlone(s, Continues(s) + [Control(Crash(ThirdCopy(s), 4))], r, LateCopy(s));
    var x := r.(queue := [], saves := r.saves + 1, disk := {LateCopy(s)});
    LedTo(s, SavesLate(s), x);
    LateBanner(s, x);
    LateTicket(s);
  }

  lemma LeadsToRestart(s: State, steps: seq<Step>, t: State, c: Snapshot, now: int)
    requires Leads(s, steps, t) && c in t.disk
    ensures Leads(s, steps + [Control(Crash(c, now))], Restore(t, c, now))
  {
    hide Leads;
    var crash := Control(Crash(c, now));
    assert Enabled(t, crash) && Apply(t, crash) == Restore(t, c, now);
    LeadsOn(s, steps, t, crash);
  }

  lemma SavesAlone(s: State, steps: seq<Step>, r: State, c: Snapshot)
    requires Leads(s, steps, r) && r.queue == [] && SnapshotOf(r) == c
    ensures Leads(s, steps + [Writer(Checkpoint)] + [Writer(SaveLands)] + [Writer(SaveSucceeds)],
                  r.(queue := [], saves := r.saves + 1, disk := {c}))
  {
    hide Leads;
    hide Apply;
    hide Enabled;
    hide SnapshotOf;
    SavedAlone(r, c);
    var queued := r.(queue := [Save(c, None, false)], saves := r.saves + 1);
    var landed := queued.(queue := [Save(c, None, true)], disk := r.disk + {c});
    LeadsOn(s, steps, r, Writer(Checkpoint));
    LeadsOn(s, steps + [Writer(Checkpoint)], queued, Writer(SaveLands));
    LeadsOn(s, steps + [Writer(Checkpoint)] + [Writer(SaveLands)], landed, Writer(SaveSucceeds));
  }

  lemma LeadsItself(s: State, steps: seq<Step>)
    requires Runs(s, steps)
    ensures Leads(s, steps, Final(s, steps))
  {
  }

  lemma LedTo(s: State, steps: seq<Step>, t: State)
    requires Leads(s, steps, t)
    ensures Runs(s, steps) && Final(s, steps) == t
  {
  }

  lemma LateTicket(s: State)
    ensures LateCopy(s).ticket == 4
  {
  }

  lemma LateBanner(s: State, x: State)
    ensures For(Restore(x, LateCopy(s), 5).recovery, s.nextId + 1)
  {
    LostJournal(s);
    CopyShowsBanner(x, [Lost(s)], LateCopy(s), 5, s.nextId + 1);
  }

  // ---------------------------------------------------------------- a banner that was never saved

  /** The steps up to the banner when the checkpoint that would have saved it fails. */
  function LosesSave(s: State): seq<Step> {
    var f := s.nextId;
    Dispatches(s) + [Driver(Begin(f))] + [Driver(LoseOutcome(f, CODE, 2))] + [Writer(SaveFails)] + [Driver(Finish(f))]
  }

  function Unsaved(s: State): State {
    AtLoss(s).(flows := map[], lease := None, queue := [])
  }

  lemma UnsavedSteps(s: State)
    requires Initial(s)
    ensures var f := s.nextId;
      var failed := AtLoss(s).(queue := [], flows := map[f := Flow(Settling, Lost(s), s.epoch, SaveFailed, false)]);
      && Enabled(AtLoss(s), Writer(SaveFails)) && Apply(AtLoss(s), Writer(SaveFails)) == failed
      && Enabled(failed, Driver(Finish(f))) && Apply(failed, Driver(Finish(f))) == Unsaved(s)
  {
  }

  lemma ToUnsaved(s: State)
    requires Initial(s)
    ensures Leads(s, LosesSave(s), Unsaved(s))
  {
    hide Leads;
    hide Apply;
    hide Enabled;
    hide Initial;
    hide Dispatches;
    hide AtDispatch;
    var f := s.nextId;
    var beginning := Dispatches(s) + [Driver(Begin(f))];
    var losing := beginning + [Driver(LoseOutcome(f, CODE, 2))];
    ToDispatch(s);
    BeginStep(s);
    LeadsOn(s, Dispatches(s), AtDispatch(s, Saved), Driver(Begin(f)));
    LoseStep(s);
    LeadsOn(s, beginning, AtExecution(s), Driver(LoseOutcome(f, CODE, 2)));
    UnsavedSteps(s);
    LeadsOn(s, losing, AtLoss(s), Writer(SaveFails));
    var failed := AtLoss(s).(queue := [], flows := map[f := Flow(Settling, Lost(s), s.epoch, SaveFailed, false)]);
    LeadsOn(s, losing + [Writer(SaveFails)], failed, Driver(Finish(f)));
  }

  lemma UnsavedShows(s: State)
    requires Initial(s)
    ensures Shows(Unsaved(s), s.nextId + 1, 3) && ControlEnabled(Unsaved(s), Continue(3))
    ensures var u := ControlApply(Unsaved(s), Continue(3)); u.disk == {SecondCopy(s)} && u.recovery.None?
  {
    hide Serialize;
    hide Acknowledge;
    LostJournal(s);
    hide Banner;
    var v := Unsaved(s);
    forall c | Known(v, c) ensures c.ticket < 3 {
      assert c in v.disk;
    }
  }

  lemma DispatchedBanner(s: State, u: State)
    ensures For(Restore(u, SecondCopy(s), 4).recovery, s.nextId + 1)
  {
    RecoverShowsBanner([Dispatching(s)], 4);
  }

  /**
   * The checkpoint of the banner fails, which the server accepts, and the user
   * chooses Continue: the content from before the banner neither remembers nor
   * forgets the Continue, and a restart from it raises the banner all the same,
   * because there the operation is still unfinished.
   */
  lemma UnsavedBanner(s: State)
    requires Initial(s)
    ensures Continuation(s, LosesSave(s), s.nextId + 1, 3, [], 3, [])
    ensures var t := Final(Final(s, LosesSave(s)), []);
      var u := Final(ControlApply(t, Continue(3)), []);
      && u.recovery.None? && u.disk == {SecondCopy(s)}
      && Of(Descent(Continued(3, t.saves), ControlApply(t, Continue(3)), []), SecondCopy(s).ticket) == Neither
      && For(Restore(u, SecondCopy(s), 4).recovery, s.nextId + 1)
  {
    ToUnsaved(s);
    LedTo(s, LosesSave(s), Unsaved(s));
    UnsavedShows(s);
    var u := ControlApply(Unsaved(s), Continue(3));
    DispatchedBanner(s, u);
    hide Restore;
    hide Shows;
    hide LosesSave;
    hide ControlApply;
    hide ControlEnabled;
    hide Unsaved;
    assert Final(Unsaved(s), []) == Unsaved(s) && Final(u, []) == u;
  }
}

/**
 * An approval that goes well, and control that changes hands: the protocol is not
 * only safe, it gets there.
 */
module ApprovalCourse {
  import opened Common
  import opened OperationLifecycle
  import opened ApprovalProtocol
  import opened ApprovalSafety
  import opened ApprovalForgets

  function Done(s: State): Record {
    Dispatching(s).(state := Completed, outcome := Some(Succeeded), updatedAt := 2)
  }

  /** The checkpoint of the completed record; `ticket` tells the first from the last. */
  function DoneCopy(s: State, ticket: nat): Snapshot {
    Snapshot([Done(s)], WaitingForApproval, Agent, ticket)
  }

  /** After the browser has acted, in the given stage and with `saves` checkpoints queued so far. */
  function AtDone(s: State, stage: Stage, save: SaveOutcome, saves: nat, disk: Snapshot): State {
    var f := s.nextId;
    AtExecution(s).(journal := [Done(s)], flows := map[f := Flow(stage, Done(s), s.epoch, save, false)],
                    saves := saves, disk := {disk})
  }

  lemma CompleteStep(s: State)
    requires Initial(s)
    ensures var f := s.nextId;
      && Enabled(AtExecution(s), Driver(Complete(f, 2)))
      && Apply(AtExecution(s), Driver(Complete(f, 2)))
         == AtDone(s, SavingCompleted, Pending, 4, SecondCopy(s)).(queue := [Save(DoneCopy(s, 3), Some(f), false)])
  {
    hide Upsert;
    hide Serialize;
    Replaced(Dispatching(s), Done(s));
    OneRecord(Done(s));
  }

  lemma LastStep(s: State)
    requires Initial(s)
    ensures var f := s.nextId;
      var saved := AtDone(s, SavingCompleted, Saved, 4, DoneCopy(s, 3));
      && Enabled(saved, Driver(CompletionSaved(f)))
      && Apply(saved, Driver(CompletionSaved(f)))
         == AtDone(s, SavingFinal, Pending, 5, DoneCopy(s, 3)).(queue := [Save(DoneCopy(s, 4), Some(f), false)])
  {
    hide Serialize;
    hide Upsert;
    OneRecord(Done(s));
    var f := s.nextId;
    var saved := AtDone(s, SavingCompleted, Saved, 4, DoneCopy(s, 3));
    DoneWaits(s, saved);
    hide Await;
    assert saved.flows[f].op == Done(s);
  }

  lemma AwaitAlone(u: State, f: nat, flow: Flow, stage: Stage, op: Record, j: seq<Record>)
    requires u.flows == map[f := flow] && u.queue == [] && Serialize(u.journal) == j
    ensures Await(u, f, stage, op)
         == u.(flows := map[f := flow.(stage := stage, op := op, save := Pending)],
               queue := [Save(Snapshot(j, u.runState, u.owner, u.saves), Some(f), false)], saves := u.saves + 1)
  {
    hide Serialize;
  }

  lemma ExecutionFacts(s: State)
    requires Initial(s)
    ensures var x := AtExecution(s); x.runState == WaitingForApproval && x.owner == Agent && x.queue == []
  {
  }

  /** Waiting for the last checkpoint. */
  lemma DoneWaits(s: State, saved: State)
    requires Initial(s) && saved == AtDone(s, SavingCompleted, Saved, 4, DoneCopy(s, 3))
    ensures s.nextId in saved.flows
    ensures Await(saved, s.nextId, SavingFinal, Done(s))
         == AtDone(s, SavingFinal, Pending, 5, DoneCopy(s, 3))
            .(queue := [Save(DoneCopy(s, 4), Some(s.nextId), false)])
  {
    hide Serialize;
    hide Upsert;
    hide AtExecution;
    hide Await;
    OneRecord(Done(s));
    ExecutionFacts(s);
    hide Initial;
    AwaitAlone(saved, s.nextId, Flow(SavingCompleted, Done(s), s.epoch, Saved, false), SavingFinal, Done(s), [Done(s)]);
  }

  /** The end of a successful approval: the agent goes on, and everything is saved. */
  function AtEnd(s: State): State {
    AtDone(s, SavingFinal, Saved, 5, DoneCopy(s, 4)).(flows := map[], lease := None, runState := ModelTurn)
  }

  lemma OverStep(s: State)
    requires Initial(s)
    ensures var f := s.nextId;
      var saved := AtDone(s, SavingFinal, Saved, 5, DoneCopy(s, 4));
      Enabled(saved, Driver(Finish(f))) && Apply(saved, Driver(Finish(f))) == AtEnd(s)
  {
  }

  lemma InitialIsEmpty(s: State)
    requires Initial(s)
    ensures s.queue == [] && s.recovery.None?
  {
  }

  lemma WrittenDone(s: State, stage: Stage, saves: nat, disk: Snapshot, c: Snapshot)
    requires Initial(s) && stage != SavingDispatched
    ensures Written(AtDone(s, stage, Pending, saves, disk).(queue := [Save(c, Some(s.nextId), false)]), s.nextId, c)
         == AtDone(s, stage, Saved, saves, c)
  {
  }

  /** The steps of an approval that goes well. */
  function Succeeds(s: State): seq<Step> {
    var f := s.nextId;
    Dispatches(s) + [Driver(Begin(f))] + [Driver(Complete(f, 2))] + [Writer(SaveLands), Writer(SaveSucceeds)]
    + [Driver(CompletionSaved(f))] + [Writer(SaveLands), Writer(SaveSucceeds)] + [Driver(Finish(f))]
  }

  /**
   * An approval can run its course: the browser acts once, the record says that it
   * succeeded, live and on disk, no banner is shown, and the agent goes on.
   */
  lemma ApprovalRunsItsCourse(s: State)
    requires Initial(s)
    ensures Runs(s, Succeeds(s))
    ensures var t := Final(s, Succeeds(s));
      && t.journal == [Done(s)] && Success(Done(s)) && t.effects == multiset{Done(s).id} && t.recovery.None?
      && t.flows == map[] && t.lease.None? && t.runState == ModelTurn && t.disk == {DoneCopy(s, 4)}
  {
    InitialIsEmpty(s);
    hide Leads;
    hide Apply;
    hide Enabled;
    hide Initial;
    hide Dispatches;
    hide AtDone;
    hide AtExecution;
    hide AtDispatch;
    var f := s.nextId;
    var beginning := Dispatches(s) + [Driver(Begin(f))];
    ToDispatch(s);
    BeginStep(s);
    LeadsOn(s, Dispatches(s), AtDispatch(s, Saved), Driver(Begin(f)));
    CompleteStep(s);
    LeadsOn(s, beginning, AtExecution(s), Driver(Complete(f, 2)));
    CourseEnds(s, beginning + [Driver(Complete(f, 2))]);
    LedTo(s, Succeeds(s), AtEnd(s));
    SucceededFacts(s);
  }

  lemma CourseEnds(s: State, start: seq<Step>)
    requires Initial(s)
    requires Leads(s, start, AtDone(s, SavingCompleted, Pending, 4, SecondCopy(s))
                             .(queue := [Save(DoneCopy(s, 3), Some(s.nextId), false)]))
    ensures var f := s.nextId;
      Leads(s, start + [Writer(SaveLands), Writer(SaveSucceeds)] + [Driver(CompletionSaved(f))]
               + [Writer(SaveLands), Writer(SaveSucceeds)] + [Driver(Finish(f))], AtEnd(s))
  {
    hide Leads;
    hide Apply;
    hide Enabled;
    var f := s.nextId;
    var writing := [Writer(SaveLands), Writer(SaveSucceeds)];
    var first := AtDone(s, SavingCompleted, Pending, 4, SecondCopy(s))
                 .(queue := [Save(DoneCopy(s, 3), Some(f), false)]);
    var last := AtDone(s, SavingFinal, Pending, 5, DoneCopy(s, 3))
                .(queue := [Save(DoneCopy(s, 4), Some(f), false)]);
    Writes(s, start, first, f, DoneCopy(s, 3));
    WrittenDone(s, SavingCompleted, 4, SecondCopy(s), DoneCopy(s, 3));
    LastStep(s);
    LeadsOn(s, start + writing, AtDone(s, SavingCompleted, Saved, 4, DoneCopy(s, 3)), Driver(CompletionSaved(f)));
    Writes(s, start + writing + [Driver(CompletionSaved(f))], last, f, DoneCopy(s, 4));
    WrittenDone(s, SavingFinal, 5, DoneCopy(s, 3), DoneCopy(s, 4));
    OverStep(s);
    LeadsOn(s, start + writing + [Driver(CompletionSaved(f))] + writing,
            AtDone(s, SavingFinal, Saved, 5, DoneCopy(s, 4)), Driver(Finish(f)));
  }

  lemma SucceededFacts(s: State)
    requires s.recovery.None?
    ensures var t := AtEnd(s);
      && t.journal == [Done(s)] && Success(Done(s)) && t.effects == multiset{Done(s).id} && t.recovery.None?
      && t.flows == map[] && t.lease.None? && t.runState == ModelTurn && t.disk == {DoneCopy(s, 4)}
  {
  }

  /** Control can change hands: taken over it is the human's, and after a resume the agent's again. */
  lemma ControlRunsItsCourse(s: State)
    requires Initial(s)
    ensures Runs(s, [Control(TakeoverStart), Control(TakeoverFinish)])
    ensures Final(s, [Control(TakeoverStart), Control(TakeoverFinish)]).owner == Human
    ensures Runs(s, [Control(TakeoverStart), Control(TakeoverFinish), Control(Resume)])
    ensures Final(s, [Control(TakeoverStart), Control(TakeoverFinish), Control(Resume)]).owner == Agent
  {
    var a, b, c := Control(TakeoverStart), Control(TakeoverFinish), Control(Resume);
    var s1 := Apply(s, a);
    var s2 := Apply(s1, b);
    var s3 := Apply(s2, c);
    assert s2.owner == Human && s3.owner == Agent && Enabled(s, a) && Enabled(s1, b) && Enabled(s2, c);
    hide Apply;
    hide Enabled;
    LeadsItself(s, []);
    LeadsOn(s, [], s, a);
    LeadsOn(s, [] + [a], s1, b);
    LeadsOn(s, [] + [a] + [b], s2, c);
    assert [] + [a] + [b] == [a, b] && [] + [a] + [b] + [c] == [a, b, c];
    LedTo(s, [a, b], s2);
    LedTo(s, [a, b, c], s3);
  }
}

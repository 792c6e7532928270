/**
 * What the approval protocol promises over whole runs: at most one execution per
 * approval, journal entries that never contradict what the browser was told,
 * and executions only under agent control.
 */
module ApprovalSafety {
  import opened Common
  import opened OperationLifecycle
  import opened ApprovalProtocol
  import opened ApprovalInvariant

  ghost predicate Initial(s: State) {
    && s.journal == [] && s.recovery.None? && s.pending.None? && s.lease.None? && s.flows == map[] && s.active.None?
    && s.owner == Agent && s.runState == Idle && !s.ready
    && s.queue == [] && s.disk == {Snapshot([], Idle, Agent, 0)} && s.saves == 1
    && s.effects == multiset{} && s.persisted == {} && s.requests == map[]
  }

  /** `steps` is a run from `s`: each step is enabled where it is taken. */
  ghost predicate Runs(s: State, steps: seq<Step>)
    decreases |steps|
  {
    steps == [] || (Enabled(s, steps[0]) && Runs(Apply(s, steps[0]), steps[1..]))
  }

  ghost function Final(s: State, steps: seq<Step>): State
    requires Runs(s, steps)
    decreases |steps|
  {
    if steps == [] then s else Final(Apply(s, steps[0]), steps[1..])
  }

  lemma {:induction false} RunKeeps(s: State, steps: seq<Step>)
    requires Inv(s) && Runs(s, steps)
    ensures Inv(Final(s, steps))
    decreases |steps|
  {
    if steps != [] {
      StepKeeps(s, steps[0]);
      RunKeeps(Apply(s, steps[0]), steps[1..]);
    }
  }

  lemma InitialInv(s: State)
    requires Initial(s)
    ensures Inv(s)
  {
    assert Canonical([]);
  }

  // ---------------------------------------------------------------- what the journal says is true

  /** The record agrees with the number of times the browser was told to act. */
  ghost predicate Truthful(r: Record, s: State) {
    && (Failed(r) ==> s.effects[r.id] == 0)
    && (Success(r) ==> s.effects[r.id] == 1)
    && (r.id in s.persisted && !Active(r) ==> Success(r) || r.state == OutcomeUnknown)
  }

  /** Truthful live, and truthful after a restart from any content the disk may show. */
  ghost predicate Safe(s: State) {
    && (forall r :: r in s.journal ==> Truthful(r, s))
    && (forall c, now: int, r :: c in s.disk && r in Recover(c.journal, now).0 ==> Truthful(r, s) && !Active(r))
    && (forall id :: s.effects[id] <= 1)
    && (forall id :: s.effects[id] == 1 ==> id in s.persisted)
  }

  lemma SoundIsTruthful(j: seq<Record>, s: State)
    requires EffectsOk(s) && JournalOk(j, s)
    ensures forall r :: r in j ==> Truthful(r, s)
  {
    forall r | r in j ensures Truthful(r, s) {
      assert RecordOk(r, s.effects, s.persisted, s.nextId);
    }
  }

  lemma InvIsSafe(s: State)
    requires Inv(s)
    ensures Safe(s)
  {
    SoundIsTruthful(s.journal, s);
    forall c, now: int, r | c in s.disk && r in Recover(c.journal, now).0 ensures Truthful(r, s) && !Active(r) {
      RestoredJournal(s, c.journal, now);
      SoundIsTruthful(Recover(c.journal, now).0, s);
      RecoverLeavesNoActive(c.journal, now);
    }
  }

  /**
   * In every run, with failing and half-failing saves, concurrent checkpoints and
   * crashes anywhere: a record marked "failed before execution" stands for no
   * execution, a succeeded one for exactly one, every other dispatched one is
   * marked unknown, live or after restart, and nothing is executed twice.
   */
  lemma EveryRunIsSafe(s: State, steps: seq<Step>)
    requires Initial(s) && Runs(s, steps)
    ensures Safe(Final(s, steps))
  {
    InitialInv(s);
    RunKeeps(s, steps);
    InvIsSafe(Final(s, steps));
  }

  /** A driver step ends its own flow or moves it on, and leaves the others alone. */
  lemma DriverTouches(s: State, d: DriverStep)
    requires DriverEnabled(s, d)
    ensures d.f in s.flows
    ensures var t := DriverApply(s, d);
      if d.f in t.flows then t.flows == s.flows[d.f := t.flows[d.f]] else t.flows == s.flows - {d.f}
  {
    hide Upsert;
    hide Serialize;
    hide CompleteOperation;
    hide MarkOutcomeUnknown;
    hide DispatchOperation;
  }

  /** The stages whose flow can still write its own operation into the journal. */
  predicate Holding(stage: Stage) {
    Unfinished(stage) || stage == SavingCompleted
  }

  /** A driver step writes at most the record of its own operation. */
  lemma DriverJournal(s: State, d: DriverStep)
    requires DriverEnabled(s, d)
    ensures d.f in s.flows
    ensures var t := DriverApply(s, d);
      t.journal == s.journal ||
      exists op: Record :: t.journal == Upsert(s.journal, op) &&
        ((d.ResolveApprove? && op.id == s.nextId)
         || (Holding(s.flows[d.f].stage) && op.id == s.flows[d.f].op.id))
  {
    hide Upsert;
    hide Serialize;
  }

  // ---------------------------------------------------------------- a failure verdict is final

  /** No flow can bring operation `id` to execution any more. */
  ghost predicate Dead(s: State, id: nat) {
    && id < s.nextId && id !in s.persisted && s.effects[id] == 0
    && forall f :: f in s.flows && Unfinished(s.flows[f].stage) ==> s.flows[f].op.id != id
  }

  lemma DeadStays(s: State, step: Step, id: nat)
    requires Enabled(s, step) && Dead(s, id)
    ensures Dead(Apply(s, step), id)
  {
    match step
    case Gate(g) => DeadInGate(s, g, id);
    case Driver(d) => DeadInDriver(s, d, id);
    case Writer(w) => DeadInWriter(s, w, id);
    case Control(c) => DeadInControl(s, c, id);
  }

  lemma DeadInGate(s: State, g: GateStep, id: nat)
    requires GateEnabled(s, g) && Dead(s, id)
    ensures Dead(GateApply(s, g), id)
  {
  }

  lemma DeadInControl(s: State, c: ControlStep, id: nat)
    requires ControlEnabled(s, c) && Dead(s, id)
    ensures Dead(ControlApply(s, c), id)
  {
  }

  lemma DeadInDriver(s: State, d: DriverStep, id: nat)
    requires DriverEnabled(s, d) && Dead(s, id)
    ensures Dead(DriverApply(s, d), id)
  {
    hide DriverApply;
    DeadFlows(s, d, id);
    DriverHistory(s, d);
  }

  lemma DriverHistory(s: State, d: DriverStep)
    requires DriverEnabled(s, d)
    ensures var t := DriverApply(s, d);
      && t.nextId >= s.nextId && t.persisted == s.persisted
      && t.effects == if d.Begin? then s.effects + multiset{s.flows[d.f].op.id} else s.effects
  {
    hide Upsert;
    hide Serialize;
    hide CompleteOperation;
    hide MarkOutcomeUnknown;
    hide DispatchOperation;
  }

  lemma DeadFlows(s: State, d: DriverStep, id: nat)
    requires DriverEnabled(s, d) && Dead(s, id)
    ensures forall f :: f in DriverApply(s, d).flows && Unfinished(DriverApply(s, d).flows[f].stage) ==>
              DriverApply(s, d).flows[f].op.id != id
    ensures d.Begin? ==> s.flows[d.f].op.id != id
  {
    hide DriverApply;
    DriverTouches(s, d);
    if d.f in DriverApply(s, d).flows {
      DriverOwnFlow(s, d);
    }
  }

  lemma DriverOwnFlow(s: State, d: DriverStep)
    requires DriverEnabled(s, d) && d.f in s.flows && d.f in DriverApply(s, d).flows
    ensures var next := DriverApply(s, d).flows[d.f];
      Unfinished(next.stage) ==>
        next.op.id == s.nextId || (Unfinished(s.flows[d.f].stage) && next.op.id == s.flows[d.f].op.id)
  {
    hide Upsert;
    hide Serialize;
  }

  lemma DeadInWriter(s: State, w: WriterStep, id: nat)
    requires WriterEnabled(s, w) && Dead(s, id)
    ensures Dead(WriterApply(s, w), id)
  {
    hide Serialize;
  }

  lemma {:induction false} DeadForever(s: State, steps: seq<Step>, id: nat)
    requires Runs(s, steps) && Dead(s, id)
    ensures Final(s, steps).effects[id] == 0
    decreases |steps|
  {
    if steps != [] {
      DeadStays(s, steps[0], id);
      DeadForever(Apply(s, steps[0]), steps[1..], id);
    }
  }

  /** Once the journal says that an approved action did not run, it never runs, whatever happens later. */
  lemma FailedNeverRuns(s: State, before: seq<Step>, r: Record, after: seq<Step>)
    requires Initial(s) && Runs(s, before) && r in Final(s, before).journal && Failed(r)
    requires Runs(Final(s, before), after)
    ensures Final(Final(s, before), after).effects[r.id] == 0
  {
    InitialInv(s);
    RunKeeps(s, before);
    var t := Final(s, before);
    InvIsSafe(t);
    assert RecordOk(r, t.effects, t.persisted, t.nextId);
    forall f | f in t.flows && Unfinished(t.flows[f].stage) ensures t.flows[f].op.id != r.id {
      assert StageOk(t.flows[f], t) && FlowCopies(t.flows[f], t);
    }
    DeadForever(t, after, r.id);
  }

  // ---------------------------------------------------------------- no unfinished record is lost

  /** The life-cycle functions refuse illegal transitions, and the driver never asks for one. */
  lemma LifecycleNeverThrows(s: State, f: nat, code: string, now: int)
    requires Inv(s)
    ensures DriverEnabled(s, FailBefore(f, code, now)) ==>
              CompleteOperation(s.flows[f].op, FailedBeforeExecution, Some(code), now).Ok?
    ensures DriverEnabled(s, Dispatch(f, now)) ==> DispatchOperation(s.flows[f].op, now).Ok?
    ensures DriverEnabled(s, Complete(f, now)) ==> CompleteOperation(s.flows[f].op, Succeeded, None, now).Ok?
    ensures DriverEnabled(s, LoseOutcome(f, code, now)) ==>
              MarkOutcomeUnknown(if s.flows[f].stage == SavingCompleted then DispatchedAgain(s.flows[f].op)
                  else s.flows[f].op,
                                 Some(code), now).Ok?
  {
    hide Canonical;
    if f in s.flows {
      assert StageOk(s.flows[f], s);
    }
  }

  /** Every exit of the driver, every restart and every new approval finds the journal without an unfinished record. */
  lemma QuietBetweenApprovals(s: State, steps: seq<Step>)
    requires Initial(s) && Runs(s, steps)
    ensures var t := Final(s, steps);
      (forall f :: f in t.flows ==> t.flows[f].stage in {Waiting, Decided(true), Decided(false), Rejecting,
          SavingFinal, Settling})
      ==> forall r :: r in t.journal ==> !Active(r)
  {
    InitialInv(s);
    RunKeeps(s, steps);
  }

  lemma UpsertKeepsOwn(s: State, f: nat, op: Record, r: Record)
    requires Inv(s) && f in s.flows && r in s.journal && Active(r) && op.id == s.flows[f].op.id
    ensures op in Upsert(s.journal, op) && op.id == r.id
  {
    OnlyOwnActive(s, f);
    UpsertMembers(s.journal, op);
  }

  /** Keeping only the last unfinished record never drops one: short of a crash its record stays in the journal. */
  lemma NoUnfinishedRecordLost(s: State, steps: seq<Step>, step: Step, r: Record)
    requires Initial(s) && Runs(s, steps) && Enabled(Final(s, steps), step) && !(step.Control? && step.c.Crash?)
    requires r in Final(s, steps).journal && Active(r)
    ensures exists q :: q in Apply(Final(s, steps), step).journal && q.id == r.id
  {
    InitialInv(s);
    RunKeeps(s, steps);
    NoRecordLost(Final(s, steps), step, r);
  }

  lemma NoRecordLost(s: State, step: Step, r: Record)
    requires Inv(s) && Enabled(s, step) && !(step.Control? && step.c.Crash?)
    requires r in s.journal && Active(r)
    ensures exists q :: q in Apply(s, step).journal && q.id == r.id
  {
    if step.Driver? {
      NoRecordLostInDriver(s, step.d, r);
    } else if step.Control? && step.c.Continue? {
      InterruptedIsQuiet(s);
    } else {
      assert Apply(s, step).journal == s.journal;
    }
  }

  lemma NoRecordLostInDriver(s: State, d: DriverStep, r: Record)
    requires Inv(s) && DriverEnabled(s, d) && r in s.journal && Active(r)
    ensures exists q :: q in DriverApply(s, d).journal && q.id == r.id
  {
    hide DriverApply;
    hide Upsert;
    hide Canonical;
    DriverJournal(s, d);
    var t := DriverApply(s, d);
    if d.ResolveApprove? {
      NoActiveLive(s, d.f);
    } else if t.journal != s.journal {
      var op: Record :| t.journal == Upsert(s.journal, op) && op.id == s.flows[d.f].op.id;
      UpsertKeepsOwn(s, d.f, op, r);
    }
  }

  /**
   * After a restart of a conversation that had not ended, the run is interrupted
   * and shows a recovery banner exactly when there is something to recover: an
   * unsettled or unacknowledged record, lost control, or work in progress; and the
   * banner tells what became of the newest such record.
   */
  lemma RestoreShowsRecovery(s: State, saved: Snapshot, now: int)
    requires saved.runState != Stopped && saved.runState != RunFailed
    ensures var t := Restore(s, saved, now);
      && (t.runState == Interrupted <==>
            (exists r :: r in saved.journal && NeedsRecovery(r)) || saved.owner != Agent || saved.runState != Idle)
      && (t.recovery.Some? <==> t.runState == Interrupted)
      && ((exists r :: r in saved.journal && NeedsRecovery(r)) ==>
          t.recovery.value.kind in {RecoverFailed, RecoverUnknown})
      && ((exists r :: r in saved.journal && NeedsRecovery(r)) ==>
          exists i :: 0 <= i < |saved.journal| && NewestNeeds(saved.journal, i)
                      && Describes(t.recovery.value, saved.journal[i]))
  {
    RecoveryDescribes(saved.journal, |saved.journal|, now);
    hide Describes;
    RecoveryIsShown(saved.journal, |saved.journal|, now);
    RecoverBanner(saved.journal, |saved.journal|, now);
    assert saved.journal[..|saved.journal|] == saved.journal;
    BannerKind(saved.journal);
  }

  /** Right after Continue the live record the banner was about needs no recovery any more. */
  lemma ContinueAcknowledges(s: State, now: int, r: Record)
    requires Inv(s) && ControlEnabled(s, Continue(now)) && s.recovery.Some? && s.recovery.value.operation.Some?
    requires r in ControlApply(s, Continue(now)).journal && Some(r.id) == s.recovery.value.operation
    ensures !NeedsRecovery(r)
  {
    hide Acknowledge;
    hide NeedsRecovery;
    InterruptedIsQuiet(s);
    AcknowledgedNeedsNone(s.journal, r.id, now, r);
  }

  lemma {:induction false} BannerKind(j: seq<Record>)
    ensures Banner(j).Some? ==> Banner(j).value.kind in {RecoverFailed, RecoverUnknown}
  {
    if j != [] {
      BannerKind(j[..|j| - 1]);
    }
  }

  // ---------------------------------------------------------------- control

  /**
   * The browser is told to act only while the agent owns control in the epoch in
   * which it dispatched, never after a takeover that followed the request, and
   * for the first time.
   */
  lemma BeginIsControlled(s: State, steps: seq<Step>, f: nat)
    requires Initial(s) && Runs(s, steps) && DriverEnabled(Final(s, steps), Begin(f))
    ensures var t := Final(s, steps);
      && t.owner == Agent && t.epoch == t.flows[f].epoch
      && !t.flows[f].overtaken
      && t.effects[t.flows[f].op.id] == 0 && t.flows[f].op.id in t.persisted
  {
    InitialInv(s);
    RunKeeps(s, steps);
    var t := Final(s, steps);
    assert StageOk(t.flows[f], t);
  }

  /**
   * While a human holds control no approved action is between dispatch and
   * completion, and a request that the takeover overtook stays undecided: it is no
   * longer the pending one.
   */
  lemma HumanControlIsQuiet(s: State, steps: seq<Step>)
    requires Initial(s) && Runs(s, steps) && Final(s, steps).owner == Human
    ensures forall f :: f in Final(s, steps).flows ==> Final(s, steps).flows[f].stage !in {SavingDispatched, Executing}
    ensures var t := Final(s, steps);
      forall f :: f in t.flows && t.flows[f].overtaken ==> t.flows[f].stage == Waiting && t.pending != Some(f)
  {
    InitialInv(s);
    RunKeeps(s, steps);
  }

  /** The confirmation gate lets one approval through at a time. */
  lemma OneFlowAtATime(s: State, steps: seq<Step>, f: nat, g: nat)
    requires Initial(s) && Runs(s, steps) && f in Final(s, steps).flows && g in Final(s, steps).flows
    ensures f == g
  {
    InitialInv(s);
    RunKeeps(s, steps);
  }

  /**
   * Short of a crash a lease ends in exactly one of two ways: undecided, by an
   * interruption, or decided, when its own flow is done.
   */
  lemma LeaseEnds(s: State, step: Step)
    requires GateOk(s) && Enabled(s, step) && s.lease.Some? && !(step.Control? && step.c.Crash?)
    requires Apply(s, step).lease.None? || Apply(s, step).lease.value.id != s.lease.value.id
    ensures Apply(s, step).lease.None? && s.lease.value.id !in Apply(s, step).flows
    ensures (step == Gate(InterruptLease)) == !s.lease.value.decided
    ensures s.lease.value.decided ==>
      step == Driver(Finish(s.lease.value.id)) || step == Driver(ResolveStale(s.lease.value.id))
  {
    hide GateApply;
    hide DriverApply;
    hide WriterApply;
    hide ControlApply;
    match step
    case Gate(g) => LeaseEndsInGate(s, g);
    case Driver(d) => LeaseEndsInDriver(s, d);
    case Writer(w) => LeaseInWriter(s, w);
    case Control(c) => LeaseInControl(s, c);
  }

  lemma LeaseInWriter(s: State, w: WriterStep)
    requires WriterEnabled(s, w)
    ensures WriterApply(s, w).lease == s.lease
  {
    hide Serialize;
  }

  lemma LeaseInControl(s: State, c: ControlStep)
    requires ControlEnabled(s, c) && !c.Crash?
    ensures ControlApply(s, c).lease == s.lease
  {
  }

  lemma LeaseEndsInGate(s: State, g: GateStep)
    requires GateOk(s) && GateEnabled(s, g) && s.lease.Some?
    requires GateApply(s, g).lease.None? || GateApply(s, g).lease.value.id != s.lease.value.id
    ensures g == InterruptLease && !s.lease.value.decided
    ensures GateApply(s, g).lease.None? && s.lease.value.id !in GateApply(s, g).flows
  {
  }

  lemma LeaseEndsInDriver(s: State, d: DriverStep)
    requires GateOk(s) && DriverEnabled(s, d) && s.lease.Some?
    requires DriverApply(s, d).lease.None? || DriverApply(s, d).lease.value.id != s.lease.value.id
    ensures (d == Finish(s.lease.value.id) || d == ResolveStale(s.lease.value.id)) && s.lease.value.decided
    ensures DriverApply(s, d).lease.None? && s.lease.value.id !in DriverApply(s, d).flows
  {
    hide Upsert;
    hide Serialize;
  }
}

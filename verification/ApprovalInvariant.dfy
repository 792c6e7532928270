/**
 * The invariant of the approval protocol: every step of every run keeps it.
 */
module ApprovalInvariant {
  import opened Common
  import opened OperationLifecycle
  import opened ApprovalProtocol

  /** What holds of a record wherever it is kept: live, queued for writing, or on disk. */
  ghost predicate RecordOk(r: Record, effects: multiset<nat>, persisted: set<nat>, nextId: nat) {
    && r.id < nextId
    && (r.id in persisted ==> r.state != Approved && !Failed(r))
    && (Success(r) ==> effects[r.id] == 1)
    && (r.state == Completed ==> Failed(r) || Success(r))
  }

  ghost predicate JournalOk(j: seq<Record>, s: State) {
    && Canonical(j)
    && forall r :: r in j ==> RecordOk(r, s.effects, s.persisted, s.nextId)
  }

  /** In `j` the operation `op` has no record that a restart would call "not executed". */
  ghost predicate NoApproved(j: seq<Record>, op: nat) {
    forall r :: r in j && r.id == op ==> r.state != Approved
  }

  ghost predicate OnlyActive(j: seq<Record>, op: nat) {
    forall r :: r in j && r.id == op ==> Active(r)
  }

  /** Every copy of the journal is sound. */
  ghost predicate CopiesOk(s: State) {
    && JournalOk(s.journal, s)
    && (forall k :: 0 <= k < |s.queue| ==> JournalOk(s.queue[k].snapshot.journal, s))
    && (forall c :: c in s.disk ==> JournalOk(c.journal, s))
  }

  ghost predicate EffectsOk(s: State) {
    && (forall id :: s.effects[id] > 0 ==> s.effects[id] == 1 && id in s.persisted)
    && (forall id :: id in s.persisted ==> id < s.nextId)
  }

  /** The gate admits one flow at a time; only a decided one leaves the waiting stage, and then it is the active one. */
  ghost predicate GateOk(s: State) {
    && (forall f :: f in s.flows <==> s.lease.Some? && s.lease.value.id == f)
    && (forall f :: f in s.flows ==> f < s.nextId && (s.flows[f].stage == Waiting <==> !s.lease.value.decided))
    && (s.pending.Some? ==> s.pending.value < s.nextId)
    && (forall f :: f in s.flows && s.flows[f].stage != Waiting ==> s.active == Some(f))
  }

  ghost predicate QueueOk(s: State) {
    && (forall k :: 0 <= k < |s.queue| && s.queue[k].waiter.Some? ==>
          s.queue[k].waiter.value in s.flows && s.flows[s.queue[k].waiter.value].save == Pending)
    && (forall i, j :: 0 <= i < j < |s.queue| && s.queue[i].waiter.Some? ==> s.queue[i].waiter != s.queue[j].waiter)
    && (forall f :: f in s.flows && s.flows[f].stage in {Waiting, Decided(true), Decided(false), Checking,
        Executing} ==>
          s.flows[f].save != Pending)
  }

  /** The record a flow holds fits its stage. */
  ghost predicate StageOk(flow: Flow, s: State) {
    var id := flow.op.id;
    match flow.stage
    case SavingApproved =>
      flow.op.state == Approved && flow.op.outcome.None? && id < s.nextId && s.effects[id] == 0 && id !in s.persisted
    case Checking =>
      flow.op.state == Approved && flow.op.outcome.None? && id < s.nextId && s.effects[id] == 0 && id !in s.persisted
    case SavingDispatched =>
      flow.op.state == Dispatched && flow.op.outcome.None? && id < s.nextId && s.effects[id] == 0
      && (id in s.persisted <==> flow.save == Saved)
    case Executing =>
      flow.op.state == Dispatched && flow.op.outcome.None? && id < s.nextId && s.effects[id] == 1 && id in s.persisted
    case SavingCompleted => Success(flow.op) && id < s.nextId && s.effects[id] == 1 && id in s.persisted
    case _ => true
  }

  /** Everywhere the record of an unfinished flow is unfinished, and live it is the one the flow holds. */
  ghost predicate FlowCopies(flow: Flow, s: State) {
    var id := flow.op.id;
    && (forall r :: r in s.journal && r.id == id ==> r.state == flow.op.state)
    && (forall k :: 0 <= k < |s.queue| ==> OnlyActive(s.queue[k].snapshot.journal, id))
    && (forall c :: c in s.disk ==> OnlyActive(c.journal, id))
  }

  /** Behind the write a dispatching flow waits for, no queued write still says "approved". */
  ghost predicate DispatchOrder(f: nat, s: State)
    requires f in s.flows
  {
    forall k, j :: 0 <= k <= j < |s.queue| && s.queue[k].waiter == Some(f) ==>
      NoApproved(s.queue[j].snapshot.journal, s.flows[f].op.id)
  }

  ghost predicate FlowsOk(s: State) {
    forall f :: f in s.flows ==>
      && StageOk(s.flows[f], s)
      && (Unfinished(s.flows[f].stage) ==> FlowCopies(s.flows[f], s))
      && (s.flows[f].stage == SavingDispatched && s.flows[f].save == Pending ==> DispatchOrder(f, s))
  }

  /** An unfinished live record belongs to the flow in flight. */
  ghost predicate ActiveOk(s: State) {
    forall r :: r in s.journal && Active(r) ==>
      exists f :: f in s.flows && Unfinished(s.flows[f].stage) && s.flows[f].op.id == r.id
  }

  ghost predicate ControlOk(s: State) {
    && (s.owner == Human ==> forall f :: f in s.flows ==>
          (s.flows[f].overtaken ==> s.flows[f].stage == Waiting) && s.flows[f].stage !in {SavingDispatched, Executing})
    && (forall f :: f in s.flows && s.flows[f].overtaken ==>
          (s.flows[f].stage.Waiting? || s.flows[f].stage.Decided? ==> s.pending != Some(f))
          && (Unfinished(s.flows[f].stage) ==> s.owner != Agent))
    && (forall f :: f in s.flows ==> s.ready)
    && (forall f :: f in s.flows && s.flows[f].stage !in {Rejecting, SavingFinal, Settling} ==>
        s.runState != Interrupted)
  }

  ghost predicate Inv(s: State) {
    && CopiesOk(s)
    && EffectsOk(s)
    && GateOk(s)
    && QueueOk(s)
    && FlowsOk(s)
    && ActiveOk(s)
    && ControlOk(s)
  }

  // ---------------------------------------------------------------- the steps that leave the journals alone

  /** The parts of the state the copies of the journal depend on. */
  ghost predicate SameStore(s: State, t: State) {
    && t.journal == s.journal && t.queue == s.queue && t.disk == s.disk
    && t.effects == s.effects && t.persisted == s.persisted && t.nextId >= s.nextId
  }

  lemma StoreKept(s: State, t: State)
    requires CopiesOk(s) && EffectsOk(s) && SameStore(s, t)
    ensures CopiesOk(t) && EffectsOk(t)
  {
    hide Canonical;
  }

  lemma RegisterKeeps(s: State)
    requires Inv(s) && GateEnabled(s, Register)
    ensures Inv(GateApply(s, Register))
  {
    hide Canonical;
    StoreKept(s, GateApply(s, Register));
  }

  lemma DecideKeeps(s: State, f: nat, approved: bool)
    requires Inv(s) && GateEnabled(s, Decide(f, approved))
    ensures Inv(GateApply(s, Decide(f, approved)))
  {
    hide Canonical;
    StoreKept(s, GateApply(s, Decide(f, approved)));
  }

  lemma EndFlowKeeps(s: State, f: nat, t: State)
    requires Inv(s) && f in s.flows && !Unfinished(s.flows[f].stage) && s.flows[f].save != Pending
    requires t == EndFlow(s, f) || (t == EndFlow(s.(runState := t.runState), f)
        && (t.runState == Interrupted ==> s.runState == Interrupted))
    ensures Inv(t)
  {
    hide Canonical;
    StoreKept(s, t);
  }

  lemma GateKeeps(s: State, step: GateStep)
    requires Inv(s) && GateEnabled(s, step)
    ensures Inv(GateApply(s, step))
  {
    hide GateApply;
    hide Inv;
    match step
    case Register => RegisterKeeps(s);
    case Decide(f, approved) => DecideKeeps(s, f, approved);
    case InterruptLease => InterruptKeeps(s);
    case RegisterBlocked => PendingKeeps(s, step);
    case DropPending => PendingKeeps(s, step);
    case ActionReturns => ActionReturnsKeeps(s);
  }

  lemma InterruptKeeps(s: State)
    requires Inv(s) && GateEnabled(s, InterruptLease)
    ensures Inv(GateApply(s, InterruptLease))
  {
    hide Canonical;
    assert s.lease.value.id in s.flows;
    EndFlowKeeps(s, s.lease.value.id, GateApply(s, InterruptLease));
  }

  lemma PendingKeeps(s: State, step: GateStep)
    requires Inv(s) && GateEnabled(s, step) && (step.RegisterBlocked? || step.DropPending?)
    ensures Inv(GateApply(s, step))
  {
    hide Canonical;
    StoreKept(s, GateApply(s, step));
  }

  lemma ActionReturnsKeeps(s: State)
    requires Inv(s) && GateEnabled(s, ActionReturns)
    ensures Inv(GateApply(s, ActionReturns))
  {
    hide Canonical;
    StoreKept(s, GateApply(s, ActionReturns));
  }

  // ---------------------------------------------------------------- writing records and snapshots

  lemma SnapshotOk(j: seq<Record>, s: State)
    requires JournalOk(j, s)
    ensures JournalOk(Serialize(j), s)
    ensures forall id :: OnlyActive(j, id) ==> OnlyActive(Serialize(j), id)
    ensures forall id :: NoApproved(j, id) ==> NoApproved(Serialize(j), id)
  {
    SerializeIsRedaction(j);
    RedactAllCanonical(j);
    RedactAllMembers(j);
    forall q | q in Serialize(j) ensures exists r :: r in j && q == Redact(r) {}
  }

  lemma UpsertOk(j: seq<Record>, op: Record, s: State)
    requires JournalOk(j, s) && RecordOk(op, s.effects, s.persisted, s.nextId)
    ensures JournalOk(Upsert(j, op), s)
    ensures op in Upsert(j, op) && forall r :: r in Upsert(j, op) ==> r == op || (r in j && r.id != op.id)
  {
    UpsertIsCanonical(j, op);
    UpsertMembers(j, op);
  }

  /** Queueing a snapshot of a sound journal keeps every copy sound. */
  lemma EnqueueCopies(s: State, waiter: Option<nat>)
    requires CopiesOk(s)
    ensures CopiesOk(Enqueue(s, waiter))
  {
    SnapshotOk(s.journal, s);
    var t := Enqueue(s, waiter);
    forall k | 0 <= k < |t.queue| ensures JournalOk(t.queue[k].snapshot.journal, t) {
      assert k < |s.queue| ==> t.queue[k] == s.queue[k];
    }
  }

  lemma EnqueueFlowCopies(flow: Flow, s: State, waiter: Option<nat>)
    requires JournalOk(s.journal, s) && FlowCopies(flow, s) && Active(flow.op)
    ensures FlowCopies(flow, Enqueue(s, waiter))
  {
    var t := Enqueue(s, waiter);
    SnapshotOk(s.journal, s);
    assert OnlyActive(s.journal, flow.op.id);
    forall k | 0 <= k < |t.queue| ensures OnlyActive(t.queue[k].snapshot.journal, flow.op.id) {
      assert k < |s.queue| ==> t.queue[k] == s.queue[k];
    }
  }

  lemma EnqueueDispatchOrder(f: nat, s: State, waiter: Option<nat>)
    requires JournalOk(s.journal, s) && f in s.flows && NoApproved(s.journal, s.flows[f].op.id) && DispatchOrder(f, s)
    ensures DispatchOrder(f, Enqueue(s, waiter))
  {
    var t := Enqueue(s, waiter);
    SnapshotOk(s.journal, s);
    forall k, j | 0 <= k <= j < |t.queue| && t.queue[k].waiter == Some(f)
      ensures NoApproved(t.queue[j].snapshot.journal, t.flows[f].op.id)
    {
      if j < |s.queue| {
        assert t.queue[k] == s.queue[k] && t.queue[j] == s.queue[j];
      }
    }
  }

  lemma EnqueueFlows(s: State, waiter: Option<nat>)
    requires JournalOk(s.journal, s) && FlowsOk(s)
    ensures FlowsOk(Enqueue(s, waiter))
  {
    var t := Enqueue(s, waiter);
    forall f | f in t.flows
      ensures StageOk(t.flows[f], t)
      ensures Unfinished(t.flows[f].stage) ==> FlowCopies(t.flows[f], t)
      ensures t.flows[f].stage == SavingDispatched && t.flows[f].save == Pending ==> DispatchOrder(f, t)
    {
      assert StageOk(s.flows[f], s);
      if Unfinished(t.flows[f].stage) {
        EnqueueFlowCopies(s.flows[f], s, waiter);
      }
      if t.flows[f].stage == SavingDispatched && t.flows[f].save == Pending {
        assert FlowCopies(s.flows[f], s);
        EnqueueDispatchOrder(f, s, waiter);
      }
    }
  }

  /** A checkpoint that no flow waits for. */
  lemma CheckpointKeeps(s: State)
    requires Inv(s)
    ensures Inv(Enqueue(s, None))
  {
    EnqueueCopies(s, None);
    EnqueueFlows(s, None);
    assert QueueOk(Enqueue(s, None));
  }

  // ---------------------------------------------------------------- the driver

  /**
   * The shape shared by the driver's writing steps: flow `f` writes `op` into the
   * journal and waits for a checkpoint of the result.
   */
  lemma AwaitKeeps(s: State, u: State, f: nat, stage: Stage, op: Record)
    requires Inv(s) && f in s.flows && s.flows[f].save != Pending
    requires u == s.(journal := u.journal, recovery := u.recovery, runState := u.runState, pending := u.pending,
                     flows := u.flows, nextId := u.nextId, requests := u.requests)
    requires u.nextId >= s.nextId && (u.pending == s.pending || u.pending.None?)
    requires u.flows.Keys == s.flows.Keys && u.flows[f] == s.flows[f].(epoch := u.flows[f].epoch)
    requires stage !in {Waiting, Decided(true), Decided(false), Checking, Executing}
    requires s.flows[f].stage != Waiting
    requires JournalOk(u.journal, u)
    requires stage in {Rejecting, SavingFinal, Settling} || u.runState != Interrupted
    requires Unfinished(stage) && s.flows[f].overtaken ==> s.owner != Agent
    requires stage == SavingDispatched ==> s.owner == Agent
    requires var flow := s.flows[f].(stage := stage, op := op, save := Pending);
      && StageOk(flow, u)
      && (Unfinished(stage) ==> FlowCopies(flow, u))
    requires forall r :: r in u.journal && Active(r) ==> Unfinished(stage) && r.id == op.id
    ensures Inv(Await(u, f, stage, op))
  {
    hide Upsert;
    hide Serialize;
    hide Canonical;
    var v := u.(flows := u.flows[f := u.flows[f].(stage := stage, op := op, save := Pending)]);
    var t := Await(u, f, stage, op);
    assert t == Enqueue(v, Some(f));
    assert forall g :: g in s.flows ==> g == f;
    AwaitCopies(s, u, v);
    EnqueueCopies(v, Some(f));
    AwaitFlows(s, v, f);
    EnqueueFlows(v, Some(f));
    AwaitGate(s, v, f);
    AwaitQueue(s, v, f);
    AwaitControl(s, v, f);
    AwaitActive(s, v, f);
  }

  lemma AwaitCopies(s: State, u: State, v: State)
    requires CopiesOk(s) && EffectsOk(s) && JournalOk(u.journal, u)
    requires v.journal == u.journal && v.queue == u.queue == s.queue && v.disk == u.disk == s.disk
    requires v.effects == u.effects == s.effects && v.persisted == u.persisted == s.persisted
    requires v.nextId == u.nextId >= s.nextId
    ensures CopiesOk(v) && EffectsOk(v)
  {
    hide Canonical;
  }

  lemma AwaitFlows(s: State, v: State, f: nat)
    requires QueueOk(s) && f in s.flows && s.flows[f].save != Pending
    requires forall g :: g in v.flows <==> g == f
    requires v.queue == s.queue
    requires StageOk(v.flows[f], v) && (Unfinished(v.flows[f].stage) ==> FlowCopies(v.flows[f], v))
    ensures FlowsOk(v)
  {
    assert forall k :: 0 <= k < |s.queue| ==> s.queue[k].waiter != Some(f);
    assert DispatchOrder(f, v);
  }

  /** Flow `f` is the only one; in `v` it has moved to `stage` and waits for a write. */
  ghost predicate Moved(s: State, v: State, f: nat) {
    && f in s.flows && f in v.flows && v.flows == s.flows[f := v.flows[f]]
    && s.flows[f].save != Pending && s.flows[f].stage != Waiting
    && v.flows[f].save == Pending && v.flows[f].overtaken == s.flows[f].overtaken
    && v.flows[f].stage !in {Waiting, Decided(true), Decided(false), Checking, Executing}
  }

  lemma AwaitGate(s: State, v: State, f: nat)
    requires GateOk(s) && Moved(s, v, f)
    requires v.lease == s.lease && v.active == s.active && v.nextId >= s.nextId
    requires v.pending == s.pending || v.pending.None?
    ensures GateOk(Enqueue(v, Some(f)))
  {
    hide Serialize;
  }

  lemma AwaitQueue(s: State, v: State, f: nat)
    requires GateOk(s) && QueueOk(s) && Moved(s, v, f) && v.queue == s.queue
    ensures QueueOk(Enqueue(v, Some(f)))
  {
    hide Serialize;
    assert forall g :: g in s.flows ==> g == f;
    assert forall k :: 0 <= k < |s.queue| ==> s.queue[k].waiter.None?;
    var t := Enqueue(v, Some(f));
    assert forall k :: 0 <= k < |t.queue| && t.queue[k].waiter.Some? ==> k == |s.queue|;
  }

  lemma AwaitControl(s: State, v: State, f: nat)
    requires GateOk(s) && ControlOk(s) && Moved(s, v, f)
    requires v.owner == s.owner && v.ready == s.ready
    requires v.flows[f].stage in {Rejecting, SavingFinal, Settling} || v.runState != Interrupted
    requires Unfinished(v.flows[f].stage) && s.flows[f].overtaken ==> s.owner != Agent
    requires v.flows[f].stage == SavingDispatched ==> s.owner == Agent
    ensures ControlOk(Enqueue(v, Some(f)))
  {
    hide Serialize;
    assert forall g :: g in s.flows ==> g == f;
  }

  lemma AwaitActive(s: State, v: State, f: nat)
    requires Moved(s, v, f)
    requires forall r :: r in v.journal && Active(r) ==> Unfinished(v.flows[f].stage) && r.id == v.flows[f].op.id
    ensures ActiveOk(Enqueue(v, Some(f)))
  {
    hide Serialize;
  }

  /** While no flow is between approval and settlement, the live journal has no unfinished record. */
  lemma NoActiveLive(s: State, f: nat)
    requires GateOk(s) && ActiveOk(s) && f in s.flows && !Unfinished(s.flows[f].stage)
    ensures forall r :: r in s.journal ==> !Active(r)
  {
  }

  /** The one unfinished live record is the one flow `f` is about to replace. */
  lemma OnlyOwnActive(s: State, f: nat)
    requires GateOk(s) && ActiveOk(s) && f in s.flows
    ensures forall r :: r in s.journal && Active(r) ==> r.id == s.flows[f].op.id
  {
  }

  lemma ResolveRejectKeeps(s: State, f: nat)
    requires Inv(s) && DriverEnabled(s, ResolveReject(f))
    ensures Inv(DriverApply(s, ResolveReject(f)))
  {
    hide Upsert;
    hide Serialize;
    hide Canonical;
    NoActiveLive(s, f);
    AwaitKeeps(s, s.(pending := None, runState := Idle), f, Rejecting, NO_RECORD);
  }

  lemma ResolveApproveKeeps(s: State, f: nat, kind: Kind, now: int)
    requires Inv(s) && DriverEnabled(s, ResolveApprove(f, kind, now))
    ensures Inv(DriverApply(s, ResolveApprove(f, kind, now)))
  {
    hide Upsert;
    hide Serialize;
    hide Canonical;
    var op := ApproveOperation(kind, now, s.nextId);
    var w := s.(pending := None, nextId := s.nextId + 1, recovery := None, requests := s.requests[op.id := f]);
    var u := w.(journal := Upsert(s.journal, op));
    NoActiveLive(s, f);
    UpsertOk(s.journal, op, w);
    assert FlowCopies(s.flows[f].(stage := SavingApproved, op := op, save := Pending), u);
    AwaitKeeps(s, u, f, SavingApproved, op);
  }

  lemma DispatchKeeps(s: State, f: nat, now: int)
    requires Inv(s) && DriverEnabled(s, Dispatch(f, now))
    ensures Inv(DriverApply(s, Dispatch(f, now)))
  {
    hide Upsert;
    hide Serialize;
    hide Canonical;
    var op := DispatchOperation(s.flows[f].op, now).value;
    var w := s.(flows := s.flows[f := s.flows[f].(epoch := s.epoch)]);
    var u := w.(journal := Upsert(s.journal, op));
    assert StageOk(s.flows[f], s) && FlowCopies(s.flows[f], s);
    OnlyOwnActive(s, f);
    UpsertOk(s.journal, op, s);
    assert FlowCopies(s.flows[f].(stage := SavingDispatched, op := op, save := Pending), u);
    AwaitKeeps(s, u, f, SavingDispatched, op);
  }

  lemma SettleKeeps(s: State, f: nat, done: Record)
    requires Inv(s) && f in s.flows && s.flows[f].save != Pending && s.flows[f].stage != Waiting
    requires done.id == s.flows[f].op.id && !Active(done) && RecordOk(done, s.effects, s.persisted, s.nextId)
    ensures Inv(SettleFlow(s, f, done))
  {
    hide Upsert;
    hide Serialize;
    hide Canonical;
    var t := SettleFlow(s, f, done);
    var u := s.(journal := Upsert(s.journal, done), recovery := t.recovery, runState := t.runState);
    OnlyOwnActive(s, f);
    UpsertOk(s.journal, done, s);
    AwaitKeeps(s, u, f, Settling, done);
  }

  lemma FailBeforeKeeps(s: State, f: nat, code: string, now: int)
    requires Inv(s) && DriverEnabled(s, FailBefore(f, code, now))
    ensures Inv(DriverApply(s, FailBefore(f, code, now)))
  {
    assert StageOk(s.flows[f], s);
    SettleKeeps(s, f, CompleteOperation(s.flows[f].op, FailedBeforeExecution, Some(code), now).value);
  }

  lemma LoseOutcomeKeeps(s: State, f: nat, code: string, now: int)
    requires Inv(s) && DriverEnabled(s, LoseOutcome(f, code, now))
    ensures Inv(DriverApply(s, LoseOutcome(f, code, now)))
  {
    assert StageOk(s.flows[f], s);
    var op := if s.flows[f].stage == SavingCompleted then DispatchedAgain(s.flows[f].op) else s.flows[f].op;
    SettleKeeps(s, f, MarkOutcomeUnknown(op, Some(code), now).value);
  }

  lemma CompleteKeeps(s: State, f: nat, now: int)
    requires Inv(s) && DriverEnabled(s, Complete(f, now))
    ensures Inv(DriverApply(s, Complete(f, now)))
  {
    hide Upsert;
    hide Serialize;
    hide Canonical;
    assert StageOk(s.flows[f], s);
    var done := CompleteOperation(s.flows[f].op, Succeeded, None, now).value;
    OnlyOwnActive(s, f);
    UpsertOk(s.journal, done, s);
    AwaitKeeps(s, s.(journal := Upsert(s.journal, done)), f, SavingCompleted, done);
  }

  lemma CompletionSavedKeeps(s: State, f: nat)
    requires Inv(s) && DriverEnabled(s, CompletionSaved(f))
    ensures Inv(DriverApply(s, CompletionSaved(f)))
  {
    hide Upsert;
    hide Serialize;
    hide Canonical;
    NoActiveLive(s, f);
    AwaitKeeps(s, s, f, SavingFinal, s.flows[f].op);
  }

  lemma ApprovedSavedKeeps(s: State, f: nat)
    requires Inv(s) && DriverEnabled(s, ApprovedSaved(f))
    ensures Inv(DriverApply(s, ApprovedSaved(f)))
  {
    hide Canonical;
    var t := DriverApply(s, ApprovedSaved(f));
    StoreKept(s, t);
    assert StageOk(s.flows[f], s) && FlowCopies(s.flows[f], s);
    assert StageOk(t.flows[f], t) && FlowCopies(t.flows[f], t);
  }

  /** No copy of the journal can contradict an execution that begins now. */
  lemma BeginCopies(s: State, f: nat, j: seq<Record>)
    requires Inv(s) && DriverEnabled(s, Begin(f)) && JournalOk(j, s) && OnlyActive(j, s.flows[f].op.id)
    ensures JournalOk(j, DriverApply(s, Begin(f)))
  {
  }

  lemma BeginKeeps(s: State, f: nat)
    requires Inv(s) && DriverEnabled(s, Begin(f))
    ensures Inv(DriverApply(s, Begin(f)))
  {
    hide Canonical;
    var t := DriverApply(s, Begin(f));
    var id := s.flows[f].op.id;
    assert StageOk(s.flows[f], s) && FlowCopies(s.flows[f], s);
    BeginCopies(s, f, s.journal);
    forall k | 0 <= k < |s.queue| ensures JournalOk(s.queue[k].snapshot.journal, t) {
      BeginCopies(s, f, s.queue[k].snapshot.journal);
    }
    forall c | c in s.disk ensures JournalOk(c.journal, t) {
      BeginCopies(s, f, c.journal);
    }
    assert StageOk(t.flows[f], t) && FlowCopies(t.flows[f], t);
  }

  lemma DriverKeeps(s: State, step: DriverStep)
    requires Inv(s) && DriverEnabled(s, step)
    ensures Inv(DriverApply(s, step))
  {
    match step
    case ResolveStale(f) => EndFlowKeeps(s, f, DriverApply(s, step));
    case ResolveReject(f) => ResolveRejectKeeps(s, f);
    case ResolveApprove(f, kind, now) => ResolveApproveKeeps(s, f, kind, now);
    case ApprovedSaved(f) => ApprovedSavedKeeps(s, f);
    case FailBefore(f, code, now) => FailBeforeKeeps(s, f, code, now);
    case Dispatch(f, now) => DispatchKeeps(s, f, now);
    case Begin(f) => BeginKeeps(s, f);
    case LoseOutcome(f, code, now) => LoseOutcomeKeeps(s, f, code, now);
    case Complete(f, now) => CompleteKeeps(s, f, now);
    case CompletionSaved(f) => CompletionSavedKeeps(s, f);
    case Finish(f) => EndFlowKeeps(s, f, DriverApply(s, step));
  }

  // ---------------------------------------------------------------- the snapshot writer

  lemma SaveLandsKeeps(s: State)
    requires Inv(s) && WriterEnabled(s, SaveLands)
    ensures Inv(WriterApply(s, SaveLands))
  {
    hide Canonical;
    var t := WriterApply(s, SaveLands);
    assert forall k :: 0 <= k < |t.queue| ==>
      t.queue[k].snapshot == s.queue[k].snapshot && t.queue[k].waiter == s.queue[k].waiter;
    forall f | f in t.flows && Unfinished(t.flows[f].stage) ensures FlowCopies(t.flows[f], t) {
      assert FlowCopies(s.flows[f], s);
    }
    forall f | f in t.flows && t.flows[f].stage == SavingDispatched && t.flows[f].save == Pending
        ensures DispatchOrder(f, t) {
      assert DispatchOrder(f, s);
    }
  }

  lemma TailFacts(s: State, t: State)
    requires s.queue != [] && t.queue == s.queue[1..]
    ensures forall k :: 0 <= k < |t.queue| ==> t.queue[k] == s.queue[k + 1]
  {
  }

  /** Delivering a write result keeps the gate, the queue, control and the live journal in order. */
  lemma NotifyRest(s: State, t: State, outcome: SaveOutcome)
    requires Inv(s) && s.queue != [] && outcome != Pending
    requires t == Notify(s.(disk := t.disk, persisted := t.persisted), outcome)
    ensures GateOk(t) && QueueOk(t) && ControlOk(t) && ActiveOk(t)
  {
    hide Canonical;
    TailFacts(s, t);
    var w := s.queue[0].waiter;
    assert forall k :: 0 < k < |s.queue| && w.Some? ==> s.queue[k].waiter != w;
    forall r | r in t.journal && Active(r)
      ensures exists f :: f in t.flows && Unfinished(t.flows[f].stage) && t.flows[f].op.id == r.id
    {
      var f :| f in s.flows && Unfinished(s.flows[f].stage) && s.flows[f].op.id == r.id;
      assert f in t.flows && t.flows[f].op == s.flows[f].op && t.flows[f].stage == s.flows[f].stage;
    }
  }

  lemma NotifyFlow(s: State, t: State, outcome: SaveOutcome, f: nat)
    requires Inv(s) && s.queue != [] && outcome != Pending && f in s.flows
    requires t == Notify(s.(disk := t.disk, persisted := t.persisted), outcome)
    requires t.disk <= s.disk + {s.queue[0].snapshot}
    ensures f in t.flows
    ensures Unfinished(t.flows[f].stage) ==> FlowCopies(t.flows[f], t)
    ensures t.flows[f].stage == SavingDispatched && t.flows[f].save == Pending ==> DispatchOrder(f, t)
  {
    hide Canonical;
    TailFacts(s, t);
    if Unfinished(s.flows[f].stage) {
      assert FlowCopies(s.flows[f], s);
      assert OnlyActive(s.queue[0].snapshot.journal, s.flows[f].op.id);
      assert FlowCopies(t.flows[f], t);
    }
    if t.flows[f].stage == SavingDispatched && t.flows[f].save == Pending {
      assert DispatchOrder(f, s);
      forall k, j | 0 <= k <= j < |t.queue| && t.queue[k].waiter == Some(f)
        ensures NoApproved(t.queue[j].snapshot.journal, t.flows[f].op.id)
      {
        assert s.queue[k + 1].waiter == Some(f);
      }
    }
  }

  lemma SaveFailsKeeps(s: State)
    requires Inv(s) && WriterEnabled(s, SaveFails)
    ensures Inv(WriterApply(s, SaveFails))
  {
    hide Canonical;
    var t := WriterApply(s, SaveFails);
    TailFacts(s, t);
    NotifyRest(s, t, SaveFailed);
    forall f | f in t.flows
      ensures StageOk(t.flows[f], t)
      ensures Unfinished(t.flows[f].stage) ==> FlowCopies(t.flows[f], t)
      ensures t.flows[f].stage == SavingDispatched && t.flows[f].save == Pending ==> DispatchOrder(f, t)
    {
      NotifyFlow(s, t, SaveFailed, f);
      assert StageOk(s.flows[f], s);
    }
  }

  /** A durable write makes the copies consistent with a dispatch that counts as persisted from now on. */
  lemma SavedJournal(s: State, t: State, j: seq<Record>)
    requires Inv(s) && WriterEnabled(s, SaveSucceeds) && t == WriterApply(s, SaveSucceeds) && JournalOk(j, s)
    requires forall id :: id in DurableDispatch(s) ==> NoApproved(j, id) && OnlyActive(j, id)
    ensures JournalOk(j, t)
  {
  }

  lemma SavedCopies(s: State)
    requires Inv(s) && WriterEnabled(s, SaveSucceeds)
    ensures CopiesOk(WriterApply(s, SaveSucceeds)) && EffectsOk(WriterApply(s, SaveSucceeds))
  {
    hide Canonical;
    var t := WriterApply(s, SaveSucceeds);
    TailFacts(s, t);
    if DurableDispatch(s) != {} {
      var f := s.queue[0].waiter.value;
      assert StageOk(s.flows[f], s) && FlowCopies(s.flows[f], s) && DispatchOrder(f, s);
    }
    SavedJournal(s, t, s.journal);
    forall k | 0 <= k < |s.queue| ensures JournalOk(s.queue[k].snapshot.journal, t) {
      SavedJournal(s, t, s.queue[k].snapshot.journal);
    }
  }

  lemma SavedStage(s: State, f: nat)
    requires Inv(s) && WriterEnabled(s, SaveSucceeds) && f in s.flows
    ensures var t := WriterApply(s, SaveSucceeds); f in t.flows && StageOk(t.flows[f], t)
  {
    assert StageOk(s.flows[f], s);
    assert forall g :: g in s.flows ==> g == f;
  }

  lemma SaveSucceedsKeeps(s: State)
    requires Inv(s) && WriterEnabled(s, SaveSucceeds)
    ensures Inv(WriterApply(s, SaveSucceeds))
  {
    hide Canonical;
    var t := WriterApply(s, SaveSucceeds);
    SavedCopies(s);
    NotifyRest(s, t, Saved);
    forall f | f in t.flows
      ensures StageOk(t.flows[f], t)
      ensures Unfinished(t.flows[f].stage) ==> FlowCopies(t.flows[f], t)
      ensures t.flows[f].stage == SavingDispatched && t.flows[f].save == Pending ==> DispatchOrder(f, t)
    {
      SavedStage(s, f);
      NotifyFlow(s, t, Saved, f);
    }
  }

  lemma WriterKeeps(s: State, step: WriterStep)
    requires Inv(s) && WriterEnabled(s, step)
    ensures Inv(WriterApply(s, step))
  {
    match step
    case Checkpoint => CheckpointKeeps(s);
    case SaveLands => SaveLandsKeeps(s);
    case SaveSucceeds => SaveSucceedsKeeps(s);
    case SaveFails => SaveFailsKeeps(s);
  }

  // ---------------------------------------------------------------- control and restart

  lemma TakeoverStartKeeps(s: State)
    requires Inv(s) && ControlEnabled(s, TakeoverStart)
    ensures Inv(ControlApply(s, TakeoverStart))
  {
    hide Canonical;
    var t := ControlApply(s, TakeoverStart);
    StoreKept(s, t);
    forall f | f in t.flows
      ensures StageOk(t.flows[f], t)
      ensures Unfinished(t.flows[f].stage) ==> FlowCopies(t.flows[f], t)
      ensures t.flows[f].stage == SavingDispatched && t.flows[f].save == Pending ==> DispatchOrder(f, t)
    {
      assert StageOk(s.flows[f], s);
      assert Unfinished(s.flows[f].stage) ==> FlowCopies(s.flows[f], s);
      assert s.flows[f].stage == SavingDispatched && s.flows[f].save == Pending ==> DispatchOrder(f, s);
    }
    forall r | r in t.journal && Active(r)
      ensures exists f :: f in t.flows && Unfinished(t.flows[f].stage) && t.flows[f].op.id == r.id
    {
      var f :| f in s.flows && Unfinished(s.flows[f].stage) && s.flows[f].op.id == r.id;
      assert f in t.flows;
    }
  }

  lemma AcknowledgeOk(j: seq<Record>, id: Option<nat>, now: int, s: State)
    requires JournalOk(j, s)
    ensures JournalOk(Acknowledge(j, id, now), s)
    ensures forall q :: q in Acknowledge(j, id, now) ==> exists r :: r in j && r.id == q.id && r.state == q.state
  {
    hide Acknowledge;
    hide Actives;
    hide Canonical;
    AcknowledgeCanonical(j, id, now);
    AcknowledgeFacts(j, id, now);
    var a := Acknowledge(j, id, now);
    forall q | q in a
      ensures RecordOk(q, s.effects, s.persisted, s.nextId)
      ensures exists r :: r in j && r.id == q.id && r.state == q.state
    {
      var i :| 0 <= i < |a| && a[i] == q;
      assert j[i] in j && RecordOk(j[i], s.effects, s.persisted, s.nextId);
    }
  }

  /** With no unfinished flow the live journal may be exchanged for any sound settled one. */
  lemma SwapJournal(s: State, j: seq<Record>)
    requires Inv(s) && JournalOk(j, s) && forall r :: r in j ==> !Active(r)
    requires forall f :: f in s.flows ==> !Unfinished(s.flows[f].stage)
    ensures Inv(s.(journal := j))
  {
    hide Canonical;
    var t := s.(journal := j);
    forall f | f in t.flows ensures StageOk(t.flows[f], t) {
      assert StageOk(s.flows[f], s);
    }
    assert CopiesOk(t);
  }

  lemma InterruptedIsQuiet(s: State)
    requires ActiveOk(s) && ControlOk(s) && s.runState == Interrupted
    ensures forall f :: f in s.flows ==> !Unfinished(s.flows[f].stage)
    ensures forall r :: r in s.journal ==> !Active(r)
  {
  }

  lemma AcknowledgeActives(j: seq<Record>, id: Option<nat>, now: int)
    requires forall r :: r in j ==> !Active(r)
    ensures forall r :: r in Acknowledge(j, id, now) ==> !Active(r)
  {
    AcknowledgeFacts(j, id, now);
  }

  lemma ContinueKeeps(s: State, now: int)
    requires Inv(s) && ControlEnabled(s, Continue(now))
    ensures Inv(ControlApply(s, Continue(now)))
  {
    hide Canonical;
    var t := ControlApply(s, Continue(now));
    var u := t.(journal := s.journal);
    var id := if s.recovery.Some? then s.recovery.value.operation else None;
    InterruptedIsQuiet(s);
    assert Inv(u) by { SimpleKeeps(s, u); }
    AcknowledgeOk(s.journal, id, now, u);
    AcknowledgeActives(s.journal, id, now);
    SwapJournal(u, t.journal);
  }

  lemma CrashKeeps(s: State, loaded: Snapshot, now: int)
    requires Inv(s) && ControlEnabled(s, Crash(loaded, now))
    ensures Inv(ControlApply(s, Crash(loaded, now)))
  {
    var t := ControlApply(s, Crash(loaded, now));
    StoreKept(s, t.(journal := s.journal, queue := s.queue));
    RestoredJournal(s, loaded.journal, now);
    RecoverLeavesNoActive(loaded.journal, now);
    assert JournalOk(t.journal, t);
    assert CopiesOk(t) && EffectsOk(t);
  }

  /** What a restart makes of a sound copy is sound: its guesses agree with what the browser did. */
  lemma RestoredJournal(s: State, j: seq<Record>, now: int)
    requires EffectsOk(s) && JournalOk(j, s)
    ensures JournalOk(Recover(j, now).0, s)
  {
    RecoverCanonical(j, now);
    FilterMembers(j, 0);
    if Actives(j) != [] {
      var a := Actives(j)[0];
      assert a in Actives(j);
      assert RecordOk(a, s.effects, s.persisted, s.nextId);
      UpsertOk(j, Settle(a, now), s);
    }
  }

  lemma ControlKeeps(s: State, step: ControlStep)
    requires Inv(s) && ControlEnabled(s, step)
    ensures Inv(ControlApply(s, step))
  {
    match step
    case TakeoverStart => TakeoverStartKeeps(s);
    case Continue(now) => ContinueKeeps(s, now);
    case Crash(loaded, now) => CrashKeeps(s, loaded, now);
    case TakeoverFinish => SimpleKeeps(s, ControlApply(s, step));
    case Resume => SimpleKeeps(s, ControlApply(s, step));
    case BrowserReady => SimpleKeeps(s, ControlApply(s, step));
    case ReleaseComputer => SimpleKeeps(s, ControlApply(s, step));
    case LoseComputer => SimpleKeeps(s, ControlApply(s, step));
    case SetRunState(_) => SimpleKeeps(s, ControlApply(s, step));
  }

  lemma SimpleKeeps(s: State, t: State)
    requires Inv(s) && SameStore(s, t) && t.flows == s.flows && t.lease == s.lease && t.active == s.active
    requires t.pending == s.pending
    requires ControlOk(t)
    ensures Inv(t)
  {
    hide Canonical;
    StoreKept(s, t);
    forall f | f in t.flows
      ensures StageOk(t.flows[f], t)
      ensures Unfinished(t.flows[f].stage) ==> FlowCopies(t.flows[f], t)
      ensures t.flows[f].stage == SavingDispatched && t.flows[f].save == Pending ==> DispatchOrder(f, t)
    {
      assert StageOk(s.flows[f], s);
      assert Unfinished(s.flows[f].stage) ==> FlowCopies(s.flows[f], s);
      assert s.flows[f].stage == SavingDispatched && s.flows[f].save == Pending ==> DispatchOrder(f, s);
    }
  }

  /** Every step keeps the invariant. */
  lemma StepKeeps(s: State, step: Step)
    requires Inv(s) && Enabled(s, step)
    ensures Inv(Apply(s, step))
  {
    match step
    case Gate(g) => GateKeeps(s, g);
    case Driver(d) => DriverKeeps(s, d);
    case Writer(w) => WriterKeeps(s, w);
    case Control(c) => ControlKeeps(s, c);
  }
}
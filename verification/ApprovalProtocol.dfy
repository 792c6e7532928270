/**
 * The crash-safe approval protocol of OpenMuse as a state machine.
 *
 * One step is what runs between two awaits of the server: of the driver
 * `resolveApproval` (open-muse/server/broker.ts), of the confirmation gate
 * (open-muse/server/conversation-runtime.ts), of control transfer and restore
 * (open-muse/server/manager.ts), or of the queued writer of the state file
 * (open-muse/server/state-store.ts, open-muse/server/private-file.ts). A run is
 * any interleaving of such steps, with a crash anywhere.
 */
module ApprovalProtocol {
  import opened Common
  import opened OperationLifecycle

  datatype Owner = Agent | PauseRequested | Human

  datatype RunState = Idle | ModelTurn | ToolAction | WaitingForApproval | Interrupted | Stopping | Stopped | RunFailed

  /** Where one approval request stands; the comments name what it is waiting for. */
  datatype Stage =
    | Waiting                    // the user's decision
    | Decided(approved: bool)    // its turn to run
    | Rejecting                  // the checkpoint after a rejection
    | SavingApproved             // the checkpoint of the approved record
    | Checking                   // expiry, tab, page and browser checks
    | SavingDispatched           // the checkpoint of the dispatched record
    | Executing                  // the browser
    | SavingCompleted            // the checkpoint of the completed record
    | SavingFinal                // the last checkpoint of a success
    | Settling                   // the checkpoint of a failed or unknown record

  datatype SaveOutcome = Pending | Saved | SaveFailed

  /** `epoch` is the control epoch captured at dispatch; `overtaken` records that a takeover began after the request. */
  datatype Flow = Flow(stage: Stage, op: Record, epoch: nat, save: SaveOutcome, overtaken: bool)

  datatype Lease = Lease(id: nat, decided: bool)

  /**
   * What a checkpoint writes; `ticket` numbers the checkpoints in the order they were
   * queued and is not in the file.
   */
  datatype Snapshot = Snapshot(journal: seq<Record>, runState: RunState, owner: Owner, ticket: nat)

  /** A queued write; `landed` once the new file has been renamed into place. */
  datatype Save = Save(snapshot: Snapshot, waiter: Option<nat>, landed: bool)

  /**
   * `disk` holds every content the state file may have after a crash: the last
   * synced one and those renamed into place since. `active` is the approval the
   * manager is carrying out (its `activeAction`). Four histories outlive crashes:
   * `effects` counts the browser executions begun per operation, `persisted` holds
   * the operations whose dispatched record was acknowledged by a save, `requests`
   * the request each operation was approved for, and `saves` the number of
   * checkpoints queued.
   */
  datatype State = State(
    journal: seq<Record>,
    recovery: Option<Recovery>,
    pending: Option<nat>,
    lease: Option<Lease>,
    flows: map<nat, Flow>,
    active: Option<nat>,
    owner: Owner,
    epoch: nat,
    runState: RunState,
    ready: bool,
    queue: seq<Save>,
    disk: set<Snapshot>,
    nextId: nat,
    effects: multiset<nat>,
    persisted: set<nat>,
    requests: map<nat, nat>,
    saves: nat)

  /** The confirmation gate and the request that waits at it. */
  datatype GateStep =
    | Register
    | RegisterBlocked
    | Decide(f: nat, approved: bool)
    | ActionReturns
    | InterruptLease
    | DropPending

  /** The awaits of `resolveApproval`. */
  datatype DriverStep =
    | ResolveStale(f: nat)
    | ResolveReject(f: nat)
    | ResolveApprove(f: nat, kind: Kind, now: int)
    | ApprovedSaved(f: nat)
    | FailBefore(f: nat, code: string, now: int)
    | Dispatch(f: nat, now: int)
    | Begin(f: nat)
    | LoseOutcome(f: nat, code: string, now: int)
    | Complete(f: nat, now: int)
    | CompletionSaved(f: nat)
    | Finish(f: nat)

  /** The queued writer of the state file. */
  datatype WriterStep = Checkpoint | SaveLands | SaveSucceeds | SaveFails

  /** Control transfer, the computer, and restart. */
  datatype ControlStep =
    | TakeoverStart
    | TakeoverFinish
    | Resume
    | Continue(now: int)
    | BrowserReady
    | ReleaseComputer
    | LoseComputer
    | SetRunState(runState: RunState)
    | Crash(loaded: Snapshot, now: int)

  datatype Step = Gate(g: GateStep) | Driver(d: DriverStep) | Writer(w: WriterStep) | Control(c: ControlStep)

  const NO_RECORD := ApproveOperation(CheckoutReview, 0, 0)

  predicate Halting(r: RunState) {
    r == Stopping || r == Stopped
  }

  /** A conversation that a restart does not reopen. */
  predicate Ended(r: RunState) {
    r == Stopped || r == RunFailed
  }

  predicate HasFlow(s: State, f: nat, stage: Stage) {
    f in s.flows && s.flows[f].stage == stage
  }

  /** The stages in which the operation's record is still unfinished. */
  predicate Unfinished(stage: Stage) {
    stage in {SavingApproved, Checking, SavingDispatched, Executing}
  }

  // ---------------------------------------------------------------- the driver's moves

  function SnapshotOf(s: State): Snapshot {
    Snapshot(Serialize(s.journal), s.runState, s.owner, s.saves)
  }

  /** Queues a checkpoint of the current state. */
  function Enqueue(s: State, waiter: Option<nat>): State {
    s.(queue := s.queue + [Save(SnapshotOf(s), waiter, false)], saves := s.saves + 1)
  }

  /** Moves flow `f` to `stage`, holding `op`, and lets it wait for a fresh checkpoint. */
  function Await(s: State, f: nat, stage: Stage, op: Record): State
    requires f in s.flows
  {
    Enqueue(s.(flows := s.flows[f := s.flows[f].(stage := stage, op := op, save := Pending)]), Some(f))
  }

  /** Writes the terminal record `done`, raises the banner unless the conversation is stopping, and checkpoints. */
  function SettleFlow(s: State, f: nat, done: Record): State
    requires f in s.flows
  {
    var halting := Halting(s.runState);
    Await(s.(journal := Upsert(s.journal, done),
             recovery := if halting then s.recovery else Some(RecoveryOf(done)),
             runState := if halting then s.runState else Interrupted),
          f, Settling, done)
  }

  function EndFlow(s: State, f: nat): State {
    s.(flows := s.flows - {f}, lease := if s.lease.Some? && s.lease.value.id == f then None else s.lease)
  }

  /** The context built from a saved snapshot after a restart. */
  function Restore(s: State, saved: Snapshot, now: int): State {
    var (journal, banner) := Recover(saved.journal, now);
    var interrupted := !Ended(saved.runState) && (banner.Some? || saved.owner != Agent
                       || saved.runState in {ModelTurn, ToolAction, WaitingForApproval, Stopping, Interrupted});
    s.(journal := journal,
       recovery := if !interrupted then None else if banner.Some? then banner
           else Some(Recovery(RecoverInterrupted, None)),
       runState := if interrupted then Interrupted else saved.runState,
       pending := None, lease := None, flows := map[], active := None, queue := [],
       owner := Agent, epoch := s.nextId, nextId := s.nextId + 1, ready := false)
  }

  predicate AgentControls(s: State, f: nat)
    requires f in s.flows
  {
    s.owner == Agent && s.epoch == s.flows[f].epoch
  }

  predicate GateEnabled(s: State, step: GateStep) {
    match step
    case Register => s.pending.None? && s.lease.None? && s.ready
    case RegisterBlocked => s.pending.None? && s.lease.Some?
    case Decide(f, _) =>
      && s.pending == Some(f) && s.lease.Some? && s.lease.value.id == f && f in s.flows
      && (s.active.None? || s.active == Some(f))
    case ActionReturns => s.active.Some? && s.active.value !in s.flows
    case InterruptLease => s.lease.Some? && !s.lease.value.decided
    case DropPending => true
  }

  predicate DriverEnabled(s: State, step: DriverStep) {
    match step
    case ResolveStale(f) => f in s.flows && s.flows[f].stage.Decided? && s.pending != Some(f)
    case ResolveReject(f) => HasFlow(s, f, Decided(false)) && s.pending == Some(f)
    case ResolveApprove(f, _, _) => HasFlow(s, f, Decided(true)) && s.pending == Some(f)
    case ApprovedSaved(f) => HasFlow(s, f, SavingApproved) && s.flows[f].save == Saved
    case FailBefore(f, _, now) =>
      && f in s.flows
      && (|| (s.flows[f].stage == SavingApproved && s.flows[f].save == SaveFailed)
          || s.flows[f].stage == Checking
          || (s.flows[f].stage == SavingDispatched && s.flows[f].save == SaveFailed))
    case Dispatch(f, _) => HasFlow(s, f, Checking) && s.owner == Agent
    case Begin(f) => HasFlow(s, f, SavingDispatched) && s.flows[f].save == Saved && AgentControls(s, f)
    case LoseOutcome(f, _, _) =>
      && f in s.flows
      && (|| (s.flows[f].stage == SavingDispatched && s.flows[f].save == Saved)
          || s.flows[f].stage == Executing
          || (s.flows[f].stage == SavingCompleted && s.flows[f].save == SaveFailed))
    case Complete(f, _) => HasFlow(s, f, Executing) && AgentControls(s, f)
    case CompletionSaved(f) => HasFlow(s, f, SavingCompleted) && s.flows[f].save == Saved
    case Finish(f) =>
      f in s.flows && s.flows[f].stage in {Rejecting, SavingFinal, Settling} && s.flows[f].save != Pending
  }

  predicate WriterEnabled(s: State, step: WriterStep) {
    match step
    case Checkpoint => true
    case SaveLands => s.queue != [] && !s.queue[0].landed
    case SaveSucceeds => s.queue != [] && s.queue[0].landed
    case SaveFails => s.queue != []
  }

  predicate ControlEnabled(s: State, step: ControlStep) {
    match step
    case TakeoverStart => s.owner == Agent
    case TakeoverFinish => s.owner == PauseRequested && s.active.None? && s.runState != Interrupted
    case Resume => s.owner == Human
    case Continue(_) => s.runState == Interrupted
    case BrowserReady => true
    case ReleaseComputer => s.active.None? && s.lease.None?
    case LoseComputer => !s.ready
    case SetRunState(r) => r != Interrupted
    case Crash(loaded, _) => loaded in s.disk
  }

  /** Delivers the result of the oldest write to the flow that waits for it. */
  function Notify(s: State, outcome: SaveOutcome): State
    requires s.queue != []
  {
    var waiter := s.queue[0].waiter;
    s.(queue := s.queue[1..],
       flows := if waiter.Some? && waiter.value in s.flows
                then s.flows[waiter.value := s.flows[waiter.value].(save := outcome)] else s.flows)
  }

  /** The operation whose dispatched record the oldest write would make durable. */
  function DurableDispatch(s: State): set<nat>
    requires s.queue != []
  {
    var waiter := s.queue[0].waiter;
    if waiter.Some? && HasFlow(s, waiter.value, SavingDispatched) then {s.flows[waiter.value].op.id} else {}
  }

  /** The record a flow falls back to when the outcome of the browser call is lost. */
  function DispatchedAgain(op: Record): Record {
    op.(state := Dispatched, outcome := None)
  }

  function MarkOvertaken(flows: map<nat, Flow>): map<nat, Flow> {
    map f | f in flows :: flows[f].(overtaken := true)
  }

  function GateApply(s: State, step: GateStep): State
    requires GateEnabled(s, step)
  {
    match step
    case Register =>
      s.(pending := Some(s.nextId), lease := Some(Lease(s.nextId, false)), nextId := s.nextId + 1,
         flows := s.flows[s.nextId := Flow(Waiting, NO_RECORD, 0, Saved, false)], runState := WaitingForApproval)
    case RegisterBlocked =>
      s.(pending := Some(s.nextId), nextId := s.nextId + 1, runState := WaitingForApproval)
    case Decide(f, approved) =>
      if s.flows[f].stage == Waiting then
        s.(lease := Some(Lease(f, true)), active := Some(f),
           flows := s.flows[f := s.flows[f].(stage := Decided(approved))])
      else s
    case ActionReturns => s.(active := None)
    case InterruptLease => EndFlow(s, s.lease.value.id)
    case DropPending => s.(pending := None)
  }

  function DriverApply(s: State, step: DriverStep): State
    requires DriverEnabled(s, step)
  {
    match step
    case ResolveStale(f) => EndFlow(s, f)
    case ResolveReject(f) => Await(s.(pending := None, runState := Idle), f, Rejecting, NO_RECORD)
    case ResolveApprove(f, kind, now) =>
      var op := ApproveOperation(kind, now, s.nextId);
      Await(s.(pending := None, nextId := s.nextId + 1, recovery := None, journal := Upsert(s.journal, op),
               requests := s.requests[op.id := f]),
            f, SavingApproved, op)
    case ApprovedSaved(f) => s.(flows := s.flows[f := s.flows[f].(stage := Checking)])
    case FailBefore(f, code, now) =>
      var done := CompleteOperation(s.flows[f].op, FailedBeforeExecution, Some(code), now);
      if done.Ok? then SettleFlow(s, f, done.value) else s
    case Dispatch(f, now) =>
      var op := DispatchOperation(s.flows[f].op, now);
      if op.Ok? then
        Await(s.(journal := Upsert(s.journal, op.value), flows := s.flows[f := s.flows[f].(epoch := s.epoch)]),
              f, SavingDispatched, op.value)
      else s
    case Begin(f) =>
      s.(flows := s.flows[f := s.flows[f].(stage := Executing)], effects := s.effects + multiset{s.flows[f].op.id})
    case LoseOutcome(f, code, now) =>
      var op := if s.flows[f].stage == SavingCompleted then DispatchedAgain(s.flows[f].op) else s.flows[f].op;
      var done := MarkOutcomeUnknown(op, Some(code), now);
      if done.Ok? then SettleFlow(s, f, done.value) else s
    case Complete(f, now) =>
      var done := CompleteOperation(s.flows[f].op, Succeeded, None, now);
      if done.Ok? then Await(s.(journal := Upsert(s.journal, done.value)), f, SavingCompleted, done.value) else s
    case CompletionSaved(f) => Await(s, f, SavingFinal, s.flows[f].op)
    case Finish(f) =>
      EndFlow(s.(runState := if s.runState == Interrupted || Halting(s.runState) then s.runState else ModelTurn), f)
  }

  function WriterApply(s: State, step: WriterStep): State
    requires WriterEnabled(s, step)
  {
    match step
    case Checkpoint => Enqueue(s, None)
    case SaveLands =>
      s.(queue := s.queue[0 := s.queue[0].(landed := true)], disk := s.disk + {s.queue[0].snapshot})
    case SaveSucceeds =>
      Notify(s.(disk := {s.queue[0].snapshot}, persisted := s.persisted + DurableDispatch(s)), Saved)
    case SaveFails => Notify(s, SaveFailed)
  }

  function ControlApply(s: State, step: ControlStep): State
    requires ControlEnabled(s, step)
  {
    match step
    case TakeoverStart =>
      s.(pending := None, owner := PauseRequested, epoch := s.nextId, nextId := s.nextId + 1,
          flows := MarkOvertaken(s.flows))
    case TakeoverFinish => s.(owner := Human, epoch := s.nextId, nextId := s.nextId + 1, runState := Idle)
    case Resume => s.(owner := Agent, epoch := s.nextId, nextId := s.nextId + 1)
    case Continue(now) =>
      s.(owner := Agent, epoch := s.nextId, nextId := s.nextId + 1, runState := ModelTurn, recovery := None,
         journal := Acknowledge(s.journal, if s.recovery.Some? then s.recovery.value.operation else None, now))
    case BrowserReady => s.(ready := true)
    case ReleaseComputer => s.(ready := false)
    case LoseComputer => s.(runState := Interrupted, recovery := Some(Recovery(RecoverComputer, None)))
    case SetRunState(r) => s.(runState := r)
    case Crash(loaded, now) => Restore(s, loaded, now)
  }

  predicate Enabled(s: State, step: Step) {
    match step
    case Gate(g) => GateEnabled(s, g)
    case Driver(d) => DriverEnabled(s, d)
    case Writer(w) => WriterEnabled(s, w)
    case Control(c) => ControlEnabled(s, c)
  }

  /**
   * The state after a step. A life-cycle call that would throw leaves the state
   * as it is; `LifecycleNeverThrows` shows that none does.
   */
  function Apply(s: State, step: Step): State
    requires Enabled(s, step)
  {
    match step
    case Gate(g) => GateApply(s, g)
    case Driver(d) => DriverApply(s, d)
    case Writer(w) => WriterApply(s, w)
    case Control(c) => ControlApply(s, c)
  }
}

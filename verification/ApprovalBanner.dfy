/**
 * What the recovery banner says is true: it tells whether the approved action did
 * not run or may have completed, as the journal has it.
 */
module ApprovalBanner {
  import opened Common
  import opened OperationLifecycle
  import opened ApprovalProtocol
  import opened ApprovalInvariant
  import opened ApprovalSafety
  import opened ApprovalRecovery
  import opened RecoveryBanner

  /** If the banner is about record `r`, it says "did not run" or "may have completed", and `r` says the same. */
  ghost predicate Tells(banner: Option<Recovery>, r: Record) {
    For(banner, r.id) ==>
      && (banner.value.kind == RecoverFailed || banner.value.kind == RecoverUnknown)
      && (banner.value.kind == RecoverFailed <==> Failed(r))
      && (banner.value.kind == RecoverUnknown <==> r.state == OutcomeUnknown)
  }

  /** The live banner agrees with the journal, and no flow is about to write the operation it is about. */
  ghost predicate BannerTells(s: State) {
    && (forall r :: r in s.journal ==> Tells(s.recovery, r))
    && (forall f :: f in s.flows && Holding(s.flows[f].stage) ==> !For(s.recovery, s.flows[f].op.id))
  }

  // ---------------------------------------------------------------- restart

  lemma SettledTells(r: Record, now: int)
    requires NeedsRecovery(r)
    ensures Tells(Some(RecoveryOf(r)), if Active(r) then Settle(r, now) else r)
  {
  }

  /** What becomes of a record of a canonical journal in recovery. */
  lemma RecoveredRecord(j: seq<Record>, now: int, q: Record, r: Record)
    requires Canonical(j) && q in j && r in Recover(j, now).0 && r.id == q.id
    ensures r == if Active(q) then Settle(q, now) else q
  {
    RecoverCanonical(j, now);
    FilterMembers(j, 0);
    if Actives(j) == [] {
      UniqueById(j, q, r);
    } else {
      var a := Actives(j)[0];
      assert a in Actives(j);
      hide Recover;
      UpsertMembers(j, Settle(a, now));
      SettleEnds(a, now);
      hide Settle;
      hide Upsert;
      if q.id == a.id {
        UniqueById(j, q, a);
      } else {
        assert r in j;
        UniqueById(j, q, r);
        if Active(q) {
          ActiveMember(j, q);
        }
      }
    }
  }

  lemma RestoredTells(s: State, c: Snapshot, now: int)
    requires Canonical(c.journal)
    ensures BannerTells(Restore(s, c, now))
  {
    var t := Restore(s, c, now);
    RecoverShowsBanner(c.journal, now);
    BannerIsMember(c.journal);
    hide Recover;
    hide Banner;
    hide Canonical;
    forall r | r in t.journal ensures Tells(t.recovery, r) {
      if For(t.recovery, r.id) {
        var q :| q in c.journal && NeedsRecovery(q) && Banner(c.journal) == Some(RecoveryOf(q));
        RecoveredRecord(c.journal, now, q, r);
        SettledTells(q, now);
      }
    }
  }

  // ---------------------------------------------------------------- steps

  /** A flow that settles, in a conversation that goes on, raises the banner of its own record. */
  predicate Raises(s: State, d: DriverStep) {
    (d.FailBefore? || d.LoseOutcome?) && !Halting(s.runState)
  }

  lemma NoBannerRaised(s: State, d: DriverStep)
    requires DriverEnabled(s, d) && !Raises(s, d)
    ensures DriverApply(s, d).recovery == s.recovery || DriverApply(s, d).recovery.None?
  {
    hide Upsert;
    hide Serialize;
  }

  lemma DriverTells(s: State, d: DriverStep)
    requires Inv(s) && Unacknowledged(s) && BannerOk(s) && BannerTells(s) && DriverEnabled(s, d)
    ensures BannerTells(DriverApply(s, d))
  {
    if Raises(s, d) {
      RaisedTells(s, d);
    } else {
      KeptTells(s, d);
    }
  }

  lemma RaisedTells(s: State, d: DriverStep)
    requires Inv(s) && Unacknowledged(s) && DriverEnabled(s, d) && Raises(s, d)
    ensures BannerTells(DriverApply(s, d))
  {
    hide DriverApply;
    hide Upsert;
    SettledRecord(s, d);
    DriverTouches(s, d);
    RaisedStage(s, d);
    var done :| IsSettled(s, d, done);
    UpsertAnyMembers(s.journal, done);
    SettledTells(done, 0);
    assert forall g :: g in s.flows ==> g == d.f by { OneFlow(s, d.f); }
    hide Inv;
  }

  lemma OneFlow(s: State, f: nat)
    requires Inv(s) && f in s.flows
    ensures forall g :: g in s.flows ==> g == f
  {
  }

  lemma RaisedStage(s: State, d: DriverStep)
    requires DriverEnabled(s, d) && Raises(s, d)
    requires Inv(s)
    ensures d.f in DriverApply(s, d).flows && DriverApply(s, d).flows[d.f].stage == Settling
  {
    hide Upsert;
    hide Serialize;
    hide Canonical;
    assert StageOk(s.flows[d.f], s);
  }

  lemma KeptTells(s: State, d: DriverStep)
    requires BannerTells(s) && BannerOk(s) && DriverEnabled(s, d) && !Raises(s, d)
    ensures BannerTells(DriverApply(s, d))
  {
    hide DriverApply;
    NoBannerRaised(s, d);
    DriverJournal(s, d);
    DriverTouches(s, d);
    var t := DriverApply(s, d);
    if t.journal != s.journal {
      var op: Record :| t.journal == Upsert(s.journal, op) &&
        ((d.ResolveApprove? && op.id == s.nextId)
         || (Holding(s.flows[d.f].stage) && op.id == s.flows[d.f].op.id));
      UpsertAnyMembers(s.journal, op);
      assert !For(s.recovery, op.id);
    }
    hide Upsert;
    if d.f in t.flows {
      DriverHolds(s, d);
    }
  }

  lemma ControlTells(s: State, c: ControlStep)
    requires Inv(s) && BannerTells(s) && ControlEnabled(s, c)
    ensures BannerTells(ControlApply(s, c))
  {
    hide Acknowledge;
    hide Tells;
    if c.Crash? {
      assert Canonical(c.loaded.journal) by { DiskCanonical(s, c.loaded); }
      RestoredTells(s, c.loaded, c.now);
    } else {
      ControlHolds(s, c);
      NoOneTold(ControlApply(s, c));
    }
  }

  lemma DiskCanonical(s: State, c: Snapshot)
    requires Inv(s) && c in s.disk
    ensures Canonical(c.journal)
  {
  }

  /** A banner about no operation says nothing about any record. */
  lemma NoOneTold(s: State)
    ensures s.recovery.None? || s.recovery.value.operation.None? ==> BannerTells(s)
  {
  }

  lemma StepTells(s: State, step: Step)
    requires Inv(s) && Unacknowledged(s) && BannerOk(s) && BannerTells(s) && Enabled(s, step)
    ensures BannerTells(Apply(s, step))
  {
    hide GateApply;
    hide DriverApply;
    hide WriterApply;
    hide ControlApply;
    hide Inv;
    hide Tells;
    match step
    case Gate(g) =>
      GateContents(s, g);
      GateHolds(s, g);
    case Driver(d) => DriverTells(s, d);
    case Writer(w) =>
      WriterBanner(s, w);
      WriterHolds(s, w);
    case Control(c) => ControlTells(s, c);
  }

  lemma {:induction false} RunTells(s: State, steps: seq<Step>)
    requires Inv(s) && TicketsOk(s) && Unacknowledged(s) && BannerOk(s) && BannerTells(s) && Runs(s, steps)
    ensures BannerTells(Final(s, steps))
    decreases |steps|
  {
    hide Inv;
    hide TicketsOk;
    hide BannerOk;
    hide Unacknowledged;
    hide BannerTells;
    hide Apply;
    if steps != [] {
      StepTells(s, steps[0]);
      StepKeeps(s, steps[0]);
      StepFollows(s, steps[0]);
      BannerStaysOk(s, steps[0]);
      UnacknowledgedStays(s, steps[0]);
      RunTells(Apply(s, steps[0]), steps[1..]);
    }
  }

  /**
   * In every reachable state, and after a restart from every content the disk may
   * show, the banner about a record of the journal says "did not run" exactly when
   * the record says so, and then it did not run, and "may have completed" exactly
   * when the outcome is unknown.
   */
  lemma BannerIsTrue(s: State, steps: seq<Step>, c: Snapshot, later: int, r: Record)
    requires Initial(s) && Runs(s, steps) && c in Final(s, steps).disk
    ensures var t := Final(s, steps);
      && (r in t.journal ==> TellsTruth(t.recovery, r, t))
      && (r in Restore(t, c, later).journal ==> TellsTruth(Restore(t, c, later).recovery, r, t))
  {
    hide Restore;
    hide Recover;
    hide Canonical;
    assert BannerTells(Final(s, steps)) by { ReachableTells(s, steps); }
    var t := Final(s, steps);
    RestoredTells(t, c, later) by { DiskIsCanonical(s, steps, c); }
    EveryRunIsSafe(s, steps);
    RestoredJournalIs(t, c, later);
    hide Initial;
    hide Runs;
    hide Final;
    assert r in t.journal ==> Truthful(r, t);
    assert r in Recover(c.journal, later).0 ==> Truthful(r, t);
  }

  lemma ReachableTells(s: State, steps: seq<Step>)
    requires Initial(s) && Runs(s, steps)
    ensures BannerTells(Final(s, steps))
  {
    InitialInv(s);
    RunTells(s, steps);
  }

  lemma DiskIsCanonical(s: State, steps: seq<Step>, c: Snapshot)
    requires Initial(s) && Runs(s, steps) && c in Final(s, steps).disk
    ensures Canonical(c.journal)
  {
    hide Inv;
    InitialInv(s);
    RunKeeps(s, steps);
    DiskCanonical(Final(s, steps), c);
  }

  /** The banner agrees with the record, and "did not run" means that nothing was executed. */
  ghost predicate TellsTruth(banner: Option<Recovery>, r: Record, s: State) {
    Tells(banner, r) && (For(banner, r.id) && banner.value.kind == RecoverFailed ==> s.effects[r.id] == 0)
  }

  /**
   * However an approval fails, its record says so, with the code and the time it
   * was given: not executed when it fails before dispatch was saved, unknown
   * afterwards. Unless the conversation is stopping, the run is interrupted and the
   * banner says the same.
   */
  lemma SettlementTells(s: State, before: seq<Step>, d: DriverStep)
    requires Initial(s) && Runs(s, before) && DriverEnabled(Final(s, before), d) && (d.FailBefore? || d.LoseOutcome?)
    ensures var s := Final(s, before);
      var t, id := DriverApply(s, d), s.flows[d.f].op.id;
      && (exists r :: r in t.journal && r.id == id && r.updatedAt == d.now
                      && (d.code != "" ==> r.errorCode == Some(d.code))
                      && (d.FailBefore? ==> Failed(r)) && (d.LoseOutcome? ==> r.state == OutcomeUnknown))
      && (if Halting(s.runState) then t.recovery == s.recovery && t.runState == s.runState
          else t.recovery == Some(Recovery(if d.FailBefore? then RecoverFailed else RecoverUnknown, Some(id)))
               && t.runState == Interrupted)
  {
    hide DriverApply;
    hide DriverEnabled;
    hide Inv;
    InitialInv(s);
    RunKeeps(s, before);
    SettlesAs(Final(s, before), d);
  }

  lemma SettlesAs(s: State, d: DriverStep)
    requires Inv(s) && DriverEnabled(s, d) && (d.FailBefore? || d.LoseOutcome?)
    ensures var t, id := DriverApply(s, d), s.flows[d.f].op.id;
      && (exists r :: r in t.journal && r.id == id && r.updatedAt == d.now
                      && (d.code != "" ==> r.errorCode == Some(d.code))
                      && (d.FailBefore? ==> Failed(r)) && (d.LoseOutcome? ==> r.state == OutcomeUnknown))
      && (if Halting(s.runState) then t.recovery == s.recovery && t.runState == s.runState
          else t.recovery == Some(Recovery(if d.FailBefore? then RecoverFailed else RecoverUnknown, Some(id)))
               && t.runState == Interrupted)
  {
    hide DriverApply;
    hide Upsert;
    hide Serialize;
    hide SettleFlow;
    var done := SettledWith(s, d);
    SettleFlowIs(s, d.f, done);
    CanonicalUnique(s.journal) by { InvCanonical(s); }
    hide Inv;
    hide DriverEnabled;
    UpsertMembers(s.journal, done);
  }

  lemma SettleFlowIs(s: State, f: nat, done: Record)
    requires f in s.flows
    ensures var t := SettleFlow(s, f, done);
      && t.journal == Upsert(s.journal, done)
      && (if Halting(s.runState) then t.recovery == s.recovery && t.runState == s.runState
          else t.recovery == Some(RecoveryOf(done)) && t.runState == Interrupted)
  {
    hide Upsert;
    hide Serialize;
  }

  /** The record with which a failing approval is settled. */
  lemma SettledWith(s: State, d: DriverStep) returns (done: Record)
    requires Inv(s) && DriverEnabled(s, d) && (d.FailBefore? || d.LoseOutcome?)
    ensures d.f in s.flows && DriverApply(s, d) == SettleFlow(s, d.f, done)
    ensures done.id == s.flows[d.f].op.id && done.updatedAt == d.now
    ensures d.code != "" ==> done.errorCode == Some(d.code)
    ensures (d.FailBefore? ==> Failed(done)) && (d.LoseOutcome? ==> done.state == OutcomeUnknown)
  {
    hide SettleFlow;
    hide Canonical;
    hide Upsert;
    assert StageOk(s.flows[d.f], s);
    hide Inv;
    if d.FailBefore? {
      done := CompleteOperation(s.flows[d.f].op, FailedBeforeExecution, Some(d.code), d.now).value;
    } else {
      var op := if s.flows[d.f].stage == SavingCompleted then DispatchedAgain(s.flows[d.f].op) else s.flows[d.f].op;
      done := MarkOutcomeUnknown(op, Some(d.code), d.now).value;
    }
  }

  lemma CanonicalUnique(j: seq<Record>)
    requires Canonical(j)
    ensures UniqueIds(j)
  {
  }

  lemma RestoredJournalIs(s: State, c: Snapshot, now: int)
    ensures Restore(s, c, now).journal == Recover(c.journal, now).0
  {
  }

  // ---------------------------------------------------------------- how a request ends

  /** A refusal writes no record, touches no banner, and leaves the run idle with nothing pending. */
  lemma RefusalLeavesNothing(s: State, f: nat)
    requires DriverEnabled(s, ResolveReject(f))
    ensures var t := DriverApply(s, ResolveReject(f));
      && t.journal == s.journal && t.recovery == s.recovery && t.effects == s.effects && t.requests == s.requests
      && t.pending.None? && t.runState == Idle
  {
    hide Serialize;
  }

  /** A new approval takes down the old banner and writes an approved record of the given kind and time. */
  lemma ApprovalIsRecorded(s: State, f: nat, kind: Kind, now: int)
    requires Inv(s) && DriverEnabled(s, ResolveApprove(f, kind, now))
    ensures var t := DriverApply(s, ResolveApprove(f, kind, now));
      && t.recovery.None? && t.pending.None?
      && exists r :: r in t.journal && r.id == s.nextId && r.kind == kind && r.state == Approved
                     && r.createdAt == now && r.updatedAt == now && r.outcome.None? && r.acknowledgedAt.None?
  {
    hide Upsert;
    hide Serialize;
    CanonicalUnique(s.journal) by { InvCanonical(s); }
    hide Canonical;
    UpsertMembers(s.journal, ApproveOperation(kind, now, s.nextId));
  }

  /** A success is recorded as such, without an error and without a banner. */
  lemma SuccessIsRecorded(s: State, f: nat, now: int)
    requires Inv(s) && DriverEnabled(s, Complete(f, now))
    ensures var t := DriverApply(s, Complete(f, now));
      && t.recovery == s.recovery && t.runState == s.runState
      && exists r :: r in t.journal && r.id == s.flows[f].op.id && Success(r) && r.updatedAt == now
  {
    hide Upsert;
    hide Serialize;
    CanonicalUnique(s.journal) by { InvCanonical(s); }
    hide Canonical;
    assert StageOk(s.flows[f], s);
    UpsertMembers(s.journal, CompleteOperation(s.flows[f].op, Succeeded, None, now).value);
  }

  /** When a request is over, the agent goes on, unless the run is interrupted or stopping; and the next may come. */
  lemma RequestIsOver(s: State, f: nat)
    requires GateOk(s) && DriverEnabled(s, Finish(f))
    ensures var t := DriverApply(s, Finish(f));
      && f !in t.flows && t.lease.None? && t.journal == s.journal && t.recovery == s.recovery
      && t.runState == if s.runState in {Interrupted, Stopping, Stopped} then s.runState else ModelTurn
  {
  }

  /** Control changes hands under a new epoch each time, so that what was dispatched under an old one stops. */
  lemma ControlTransfers(s: State, c: ControlStep)
    requires ControlEnabled(s, c) && (c.TakeoverStart? || c.TakeoverFinish? || c.Resume? || c.Continue? || c.Crash?)
    ensures var t := ControlApply(s, c);
      && t.epoch == s.nextId < t.nextId
      && t.owner == (if c.TakeoverStart? then PauseRequested else if c.TakeoverFinish? then Human else Agent)
      && (c.Continue? ==> t.recovery.None? && t.runState == ModelTurn)
      && (c.TakeoverStart? ==> t.pending.None?) && (c.TakeoverFinish? ==> t.runState == Idle)
  {
  }
}

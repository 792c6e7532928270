/**
 * Checkpoints, banners and the journals they show: the facts about single steps
 * from which `ApprovalContinue` derives what a Continue promises.
 */
module ApprovalRecovery {
  import opened Common
  import opened OperationLifecycle
  import opened ApprovalProtocol
  import opened ApprovalInvariant
  import opened ApprovalSafety

  /** Every content that is, or may still get, on disk. */
  ghost predicate Known(s: State, c: Snapshot) {
    c in s.disk || exists k :: 0 <= k < |s.queue| && s.queue[k].snapshot == c
  }

  predicate For(banner: Option<Recovery>, id: nat) {
    banner.Some? && banner.value.operation == Some(id)
  }

  /** In `j` operation `id` has no record that needs recovery. */
  ghost predicate Quiet(j: seq<Record>, id: nat) {
    forall r :: r in j && r.id == id ==> !NeedsRecovery(r)
  }

  // ---------------------------------------------------------------- checkpoints are numbered

  /** Numbers are not reused, and they grow along the queue. */
  ghost predicate TicketsOk(s: State) {
    && (forall c :: Known(s, c) ==> c.ticket < s.saves)
    && (forall j, k :: 0 <= j < k < |s.queue| ==> s.queue[j].snapshot.ticket < s.queue[k].snapshot.ticket)
  }

  /** A banner names an operation that exists. */
  ghost predicate BannerOk(s: State) {
    s.recovery.Some? && s.recovery.value.operation.Some? ==> s.recovery.value.operation.value < s.nextId
  }

  /** The contents after a step: the old ones, and at most a checkpoint of the state the step leads to. */
  ghost predicate Follows(s: State, t: State) {
    && s.saves <= t.saves <= s.saves + 1
    && forall c :: Known(t, c) ==> Known(s, c) || (c.ticket == s.saves < t.saves && c.journal == Serialize(t.journal))
  }

  lemma EnqueueFollows(s: State, u: State, waiter: Option<nat>)
    requires u.queue == s.queue && u.disk == s.disk && u.saves == s.saves
    ensures Follows(s, Enqueue(u, waiter))
    ensures TicketsOk(s) ==> TicketsOk(Enqueue(u, waiter))
  {
    hide Serialize;
    var t := Enqueue(u, waiter);
    forall c | Known(t, c) ensures Known(s, c) || c == SnapshotOf(u) {
      if c !in t.disk {
        var k :| 0 <= k < |t.queue| && t.queue[k].snapshot == c;
        assert k < |s.queue| ==> s.queue[k].snapshot == c;
      }
    }
  }

  /** A driver step queues one checkpoint of the state it leads to, or none. */
  lemma DriverWrites(s: State, d: DriverStep)
    requires DriverEnabled(s, d)
    ensures var t := DriverApply(s, d);
      var u := t.(queue := s.queue, saves := s.saves);
      u.disk == s.disk && (t == u || t == Enqueue(u, Some(d.f)))
  {
    hide Upsert;
    hide Serialize;
    hide CompleteOperation;
    hide MarkOutcomeUnknown;
    hide DispatchOperation;
  }

  lemma WriterFollows(s: State, w: WriterStep)
    requires WriterEnabled(s, w)
    ensures Follows(s, WriterApply(s, w))
    ensures TicketsOk(s) ==> TicketsOk(WriterApply(s, w))
  {
    hide Serialize;
    var t := WriterApply(s, w);
    if w.Checkpoint? {
      EnqueueFollows(s, s, None);
    } else {
      assert Known(s, s.queue[0].snapshot);
      assert |t.queue| <= |s.queue|;
      var gone := |s.queue| - |t.queue|;
      assert forall k :: 0 <= k < |t.queue| ==> t.queue[k].snapshot == s.queue[k + gone].snapshot;
      forall c | Known(t, c) ensures Known(s, c) {
        if c !in t.disk {
          var k :| 0 <= k < |t.queue| && t.queue[k].snapshot == c;
          assert s.queue[k + gone].snapshot == c;
        }
      }
    }
  }

  lemma SameContents(s: State, t: State)
    requires t.queue == s.queue && t.disk == s.disk && t.saves == s.saves
    ensures Follows(s, t)
    ensures TicketsOk(s) ==> TicketsOk(t)
  {
    assert forall c :: Known(t, c) <==> Known(s, c);
  }

  lemma GateContents(s: State, g: GateStep)
    requires GateEnabled(s, g)
    ensures var t := GateApply(s, g);
      t.queue == s.queue && t.disk == s.disk && t.saves == s.saves && t.recovery == s.recovery
    ensures GateApply(s, g).journal == s.journal && GateApply(s, g).nextId >= s.nextId
  {
  }

  lemma ControlFollows(s: State, c: ControlStep)
    requires ControlEnabled(s, c)
    ensures Follows(s, ControlApply(s, c))
    ensures TicketsOk(s) ==> TicketsOk(ControlApply(s, c))
  {
    var t := ControlApply(s, c);
    if c.Crash? {
      assert t.queue == [] && t.disk == s.disk && t.saves == s.saves;
      assert forall c :: Known(t, c) ==> Known(s, c);
    } else {
      assert t.queue == s.queue && t.disk == s.disk && t.saves == s.saves;
      SameContents(s, t);
    }
  }

  lemma StepFollows(s: State, step: Step)
    requires Enabled(s, step)
    ensures Follows(s, Apply(s, step))
    ensures TicketsOk(s) ==> TicketsOk(Apply(s, step))
  {
    hide Follows;
    hide TicketsOk;
    hide DriverApply;
    hide GateApply;
    hide WriterApply;
    hide ControlApply;
    match step
    case Gate(g) =>
      GateContents(s, g);
      SameContents(s, GateApply(s, g));
    case Driver(d) =>
      DriverWrites(s, d);
      var t := DriverApply(s, d);
      var u := t.(queue := s.queue, saves := s.saves);
      if t == u {
        SameContents(s, t);
      } else {
        EnqueueFollows(s, u, Some(d.f));
      }
    case Writer(w) => WriterFollows(s, w);
    case Control(c) => ControlFollows(s, c);
  }

  // ---------------------------------------------------------------- banners

  lemma {:induction false} BannerIsMember(j: seq<Record>)
    ensures Banner(j).Some? ==> exists r :: r in j && NeedsRecovery(r) && Banner(j) == Some(RecoveryOf(r))
  {
    if j != [] {
      BannerIsMember(j[..|j| - 1]);
    }
  }

  lemma RecoverShowsBanner(j: seq<Record>, now: int)
    ensures Recover(j, now).1 == Banner(j)
  {
    RecoverBanner(j, |j|, now);
    assert j[..|j|] == j;
  }

  lemma QuietHasNoBanner(j: seq<Record>, id: nat, now: int)
    requires Quiet(j, id)
    ensures !For(Recover(j, now).1, id)
  {
    RecoverShowsBanner(j, now);
    BannerIsMember(j);
  }

  /** A driver step shows the banner of its own operation, or takes the banner away, or leaves it. */
  lemma DriverBanner(s: State, d: DriverStep)
    requires DriverEnabled(s, d)
    ensures d.f in s.flows
    ensures var t := DriverApply(s, d);
      && t.nextId >= s.nextId
      && (t.recovery == s.recovery || t.recovery.None?
          || (Holding(s.flows[d.f].stage) && t.recovery.value.operation == Some(s.flows[d.f].op.id)))
  {
    hide Upsert;
    hide Serialize;
  }

  /** A record that a flow is about to settle has not been acknowledged. */
  ghost predicate Unacknowledged(s: State) {
    forall f :: f in s.flows && Holding(s.flows[f].stage) ==> s.flows[f].op.acknowledgedAt.None?
  }

  lemma UnacknowledgedStays(s: State, step: Step)
    requires Unacknowledged(s) && Enabled(s, step)
    ensures Unacknowledged(Apply(s, step))
  {
    hide GateApply;
    hide DriverApply;
    hide WriterApply;
    hide ControlApply;
    match step
    case Gate(g) => GateHolds(s, g);
    case Driver(d) =>
      DriverTouches(s, d);
      if d.f in DriverApply(s, d).flows {
        DriverUnacknowledged(s, d);
      }
    case Writer(w) => WriterHolds(s, w);
    case Control(c) => ControlHolds(s, c);
  }

  lemma ControlHolds(s: State, c: ControlStep)
    requires ControlEnabled(s, c)
    ensures forall f :: f in ControlApply(s, c).flows ==>
              && f in s.flows && ControlApply(s, c).flows[f].stage == s.flows[f].stage
              && ControlApply(s, c).flows[f].op == s.flows[f].op
  {
  }

  lemma DriverUnacknowledged(s: State, d: DriverStep)
    requires DriverEnabled(s, d) && d.f in s.flows && d.f in DriverApply(s, d).flows
    requires Holding(s.flows[d.f].stage) ==> s.flows[d.f].op.acknowledgedAt.None?
    ensures var next := DriverApply(s, d).flows[d.f]; Holding(next.stage) ==> next.op.acknowledgedAt.None?
  {
    hide Upsert;
    hide Serialize;
  }

  lemma BannerStaysOk(s: State, step: Step)
    requires Inv(s) && BannerOk(s) && Enabled(s, step)
    ensures BannerOk(Apply(s, step))
  {
    hide GateApply;
    hide DriverApply;
    hide WriterApply;
    hide ControlApply;
    match step
    case Gate(g) => GateContents(s, g);
    case Driver(d) =>
      DriverBanner(s, d);
      assert StageOk(s.flows[d.f], s);
    case Writer(w) => WriterBanner(s, w);
    case Control(c) => ControlBanner(s, c);
  }

  lemma ControlBanner(s: State, c: ControlStep)
    requires CopiesOk(s) && BannerOk(s) && ControlEnabled(s, c)
    ensures BannerOk(ControlApply(s, c))
  {
    hide Canonical;
    hide Acknowledge;
    if c.Crash? {
      RestoredBanner(s, c.loaded, c.now);
    }
  }

  lemma WriterBanner(s: State, w: WriterStep)
    requires WriterEnabled(s, w)
    ensures var t := WriterApply(s, w); t.recovery == s.recovery && t.nextId == s.nextId && t.journal == s.journal
  {
    hide Serialize;
  }

  lemma RestoredBanner(s: State, loaded: Snapshot, now: int)
    requires JournalOk(loaded.journal, s)
    ensures BannerOk(Restore(s, loaded, now))
  {
    hide Canonical;
    RecoverShowsBanner(loaded.journal, now);
    BannerIsMember(loaded.journal);
    if Banner(loaded.journal).Some? {
      var r :| r in loaded.journal && NeedsRecovery(r) && Banner(loaded.journal) == Some(RecoveryOf(r));
      assert RecordOk(r, s.effects, s.persisted, s.nextId);
    }
  }

  lemma {:induction false} RunKeepsTickets(s: State, steps: seq<Step>)
    requires Inv(s) && TicketsOk(s) && BannerOk(s) && Unacknowledged(s) && Runs(s, steps)
    ensures var t := Final(s, steps); Inv(t) && TicketsOk(t) && BannerOk(t) && Unacknowledged(t)
    decreases |steps|
  {
    hide Inv;
    hide TicketsOk;
    hide BannerOk;
    hide Unacknowledged;
    hide Apply;
    if steps != [] {
      StepKeeps(s, steps[0]);
      StepFollows(s, steps[0]);
      BannerStaysOk(s, steps[0]);
      UnacknowledgedStays(s, steps[0]);
      RunKeepsTickets(Apply(s, steps[0]), steps[1..]);
    }
  }

  lemma ReachableTickets(s: State, steps: seq<Step>)
    requires Initial(s) && Runs(s, steps)
    ensures var t := Final(s, steps); Inv(t) && TicketsOk(t) && BannerOk(t) && Unacknowledged(t)
  {
    InitialInv(s);
    RunKeepsTickets(s, steps);
  }

  // ---------------------------------------------------------------- journals without the operation's banner

  lemma {:induction false} SerializeMembers(j: seq<Record>)
    ensures forall r :: r in Serialize(j) ==> exists q :: q in j && r == Redact(q)
  {
    if j != [] {
      var init, last := j[..|j| - 1], j[|j| - 1];
      SerializeMembers(init);
      UpsertAnyMembers(Serialize(init), Redact(last));
    }
  }

  lemma SerializeQuiet(j: seq<Record>, id: nat)
    requires Quiet(j, id)
    ensures Quiet(Serialize(j), id)
  {
    SerializeMembers(j);
  }

  lemma UpsertQuiet(j: seq<Record>, op: Record, id: nat)
    requires Quiet(j, id) && op.id != id
    ensures Quiet(Upsert(j, op), id)
  {
    UpsertAnyMembers(j, op);
  }

  lemma {:induction false} RecoverQuiet(j: seq<Record>, k: nat, id: nat, now: int)
    requires k <= |j| && Quiet(j, id)
    ensures Quiet(RecoverPrefix(j, k, now).0, id)
  {
    if k > 0 {
      RecoverQuiet(j, k - 1, id, now);
      if Active(j[k - 1]) {
        assert j[k - 1] in j;
        UpsertQuiet(RecoverPrefix(j, k - 1, now).0, Settle(j[k - 1], now), id);
      }
    }
  }

  lemma AcknowledgeQuiet(j: seq<Record>, id: nat, which: Option<nat>, now: int)
    requires Quiet(j, id) || (which == Some(id) && forall r :: r in j ==> !Active(r))
    ensures Quiet(Acknowledge(j, which, now), id)
  {
    hide Acknowledge;
    hide Actives;
    AcknowledgeFacts(j, which, now);
    var a := Acknowledge(j, which, now);
    forall r | r in a && r.id == id ensures !NeedsRecovery(r) {
      var i :| 0 <= i < |a| && a[i] == r;
      assert j[i] in j;
    }
  }

  // ---------------------------------------------------------------- flows that can still write

  lemma DriverHolds(s: State, d: DriverStep)
    requires DriverEnabled(s, d) && d.f in s.flows && d.f in DriverApply(s, d).flows
    ensures var next := DriverApply(s, d).flows[d.f];
      Holding(next.stage) ==>
        next.op.id == s.nextId || (Holding(s.flows[d.f].stage) && next.op.id == s.flows[d.f].op.id)
  {
    hide Upsert;
    hide Serialize;
  }

  lemma GateHolds(s: State, g: GateStep)
    requires GateEnabled(s, g)
    ensures forall f :: f in GateApply(s, g).flows && Holding(GateApply(s, g).flows[f].stage) ==>
              f in s.flows && Holding(s.flows[f].stage) && GateApply(s, g).flows[f].op == s.flows[f].op
  {
  }

  lemma WriterHolds(s: State, w: WriterStep)
    requires WriterEnabled(s, w)
    ensures forall f :: f in WriterApply(s, w).flows ==>
              && f in s.flows && WriterApply(s, w).flows[f].stage == s.flows[f].stage
              && WriterApply(s, w).flows[f].op == s.flows[f].op
  {
    hide Serialize;
  }

  lemma NoBannerFrom(s: State, c: Snapshot, later: int, id: nat)
    requires Quiet(c.journal, id)
    ensures !For(Restore(s, c, later).recovery, id)
  {
    QuietHasNoBanner(c.journal, id, later);
  }

  // ---------------------------------------------------------------- while the banner is shown

  /** The steps between showing the banner and Continue: no new approval, no Continue, no restart. */
  predicate Waits(step: Step) {
    !(step.Driver? && step.d.ResolveApprove?) && !(step.Control? && (step.c.Continue? || step.c.Crash?))
  }

  /** Since checkpoint `m` was queued the journal has been `j`, and nothing is about to change it. */
  ghost predicate Unchanged(s: State, m: nat, j: seq<Record>) {
    && s.journal == j && m <= s.saves
    && (forall c :: Known(s, c) && c.ticket >= m ==> c.journal == Serialize(j))
    && (forall f :: f in s.flows ==> !Holding(s.flows[f].stage))
  }

  lemma DriverIdles(s: State, d: DriverStep)
    requires DriverEnabled(s, d) && !d.ResolveApprove? && d.f in s.flows && !Holding(s.flows[d.f].stage)
    ensures var t := DriverApply(s, d);
      t.journal == s.journal && (d.f in t.flows ==> !Holding(t.flows[d.f].stage))
  {
    hide Upsert;
    hide Serialize;
  }

  lemma UnchangedLive(s: State, step: Step)
    requires Enabled(s, step) && Waits(step) && forall f :: f in s.flows ==> !Holding(s.flows[f].stage)
    ensures Apply(s, step).journal == s.journal
    ensures forall f :: f in Apply(s, step).flows ==> !Holding(Apply(s, step).flows[f].stage)
  {
    hide GateApply;
    hide DriverApply;
    hide WriterApply;
    match step
    case Gate(g) =>
      GateContents(s, g);
      GateHolds(s, g);
    case Driver(d) =>
      DriverTouches(s, d);
      DriverIdles(s, d);
    case Writer(w) =>
      WriterBanner(s, w);
      WriterHolds(s, w);
    case Control(c) =>
  }

  lemma UnchangedStays(s: State, step: Step, m: nat, j: seq<Record>)
    requires Unchanged(s, m, j) && Enabled(s, step) && Waits(step)
    ensures Unchanged(Apply(s, step), m, j)
  {
    hide Apply;
    hide Enabled;
    hide Known;
    hide Serialize;
    UnchangedLive(s, step);
    StepFollows(s, step);
  }

  lemma {:induction false} RunUnchanged(s: State, steps: seq<Step>, m: nat, j: seq<Record>)
    requires Unchanged(s, m, j) && Runs(s, steps) && forall step :: step in steps ==> Waits(step)
    ensures Unchanged(Final(s, steps), m, j)
    decreases |steps|
  {
    hide Unchanged;
    hide Apply;
    if steps != [] {
      assert steps[0] in steps;
      UnchangedStays(s, steps[0], m, j);
      RunUnchanged(Apply(s, steps[0]), steps[1..], m, j);
    }
  }

  lemma {:induction false} RedactedBanner(j: seq<Record>)
    ensures Banner(RedactAll(j)) == Banner(j)
  {
    if j != [] {
      RedactedBanner(j[..|j| - 1]);
      assert RedactAll(j)[..|j| - 1] == RedactAll(j[..|j| - 1]) by { RedactAllFacts(j[..|j| - 1]); }
    }
  }

  // ---------------------------------------------------------------- a banner that a restart would show

  /**
   * The banner for operation `id` is shown, it is the one a restart would show,
   * and every content queued as checkpoint `m` or later is a copy of the journal.
   */
  ghost predicate Shows(s: State, id: nat, m: nat) {
    && s.runState == Interrupted && For(s.recovery, id) && For(Banner(s.journal), id)
    && m <= s.saves
    && forall c :: Known(s, c) && c.ticket >= m ==> c.journal == Serialize(s.journal)
  }

  lemma ShownIsUnchanged(s: State, id: nat, m: nat)
    requires Inv(s) && Shows(s, id, m)
    ensures Unchanged(s, m, s.journal)
  {
    hide Serialize;
    hide Known;
  }

  lemma CopyShowsBanner(s: State, j: seq<Record>, c: Snapshot, later: int, id: nat)
    requires Canonical(j) && For(Banner(j), id) && c.journal == Serialize(j) && !Ended(c.runState)
    ensures For(Restore(s, c, later).recovery, id)
  {
    SerializeIsRedaction(j);
    RedactedBanner(j);
    RecoverShowsBanner(c.journal, later);
  }

  lemma InvCanonical(s: State)
    requires Inv(s)
    ensures Canonical(s.journal)
  {
  }

  lemma ContinueReaches(s: State, now: int)
    requires Inv(s) && TicketsOk(s) && BannerOk(s) && Unacknowledged(s) && ControlEnabled(s, Continue(now))
    ensures var t := ControlApply(s, Continue(now)); Inv(t) && TicketsOk(t) && BannerOk(t) && Unacknowledged(t)
  {
    hide Inv;
    hide TicketsOk;
    hide BannerOk;
    hide Unacknowledged;
    var step := Control(Continue(now));
    StepKeeps(s, step);
    StepFollows(s, step);
    BannerStaysOk(s, step);
    UnacknowledgedStays(s, step);
  }

  // ---------------------------------------------------------------- a settled operation shows its banner

  lemma {:induction false} BannerOfNewest(j: seq<Record>, i: nat)
    requires i < |j| && NeedsRecovery(j[i]) && forall k :: i < k < |j| ==> !NeedsRecovery(j[k])
    ensures Banner(j) == Some(RecoveryOf(j[i]))
  {
    if i < |j| - 1 {
      BannerOfNewest(j[..|j| - 1], i);
    }
  }

  lemma UpsertShows(j: seq<Record>, done: Record)
    requires Canonical(j) && NeedsRecovery(done)
    requires forall r :: r in j && r.id != done.id && NeedsRecovery(r) ==> r.createdAt < done.createdAt
    ensures Banner(Upsert(j, done)) == Some(RecoveryOf(done))
  {
    var u := Upsert(j, done);
    UpsertIsCanonical(j, done);
    UpsertMembers(j, done);
    hide Upsert;
    hide NeedsRecovery;
    var i :| 0 <= i < |u| && u[i] == done;
    forall k | i < k < |u| ensures !NeedsRecovery(u[k]) {
      assert u[k] in u && u[i].createdAt <= u[k].createdAt;
    }
    BannerOfNewest(u, i);
  }

  /** An approval that ends failed or unknown shows its banner, and its own checkpoint is the first copy that does. */
  lemma SettledShows(s: State, before: seq<Step>, d: DriverStep)
    requires Initial(s) && Runs(s, before)
    requires var t := Final(s, before);
      && DriverEnabled(t, d) && (d.FailBefore? || d.LoseOutcome?) && !Halting(t.runState)
      && forall r :: r in t.journal && r.id != t.flows[d.f].op.id && NeedsRecovery(r) ==>
           r.createdAt < t.flows[d.f].op.createdAt
    ensures var t := Final(s, before); Shows(DriverApply(t, d), t.flows[d.f].op.id, t.saves)
  {
    hide DriverApply;
    hide DriverEnabled;
    hide Inv;
    hide Shows;
    ReachableTickets(s, before);
    SettlingShows(Final(s, before), d);
  }

  lemma SettlingShows(s: State, d: DriverStep)
    requires Inv(s) && TicketsOk(s) && Unacknowledged(s)
    requires DriverEnabled(s, d) && (d.FailBefore? || d.LoseOutcome?) && !Halting(s.runState)
    requires forall r :: r in s.journal && r.id != s.flows[d.f].op.id && NeedsRecovery(r) ==>
               r.createdAt < s.flows[d.f].op.createdAt
    ensures Shows(DriverApply(s, d), s.flows[d.f].op.id, s.saves)
  {
    hide DriverApply;
    hide Upsert;
    hide Serialize;
    hide Banner;
    InvCanonical(s);
    SettledRecord(s, d);
    hide Inv;
    var done :| IsSettled(s, d, done);
    UpsertShows(s.journal, done);
    hide Canonical;
    hide NeedsRecovery;
    StepFollows(s, Driver(d));
    assert Follows(s, DriverApply(s, d));
    hide Known;
  }

  /** Step `d` settles its flow with the record `done`. */
  ghost predicate IsSettled(s: State, d: DriverStep, done: Record)
    requires d.f in s.flows && DriverEnabled(s, d)
  {
    && done.id == s.flows[d.f].op.id && done.createdAt == s.flows[d.f].op.createdAt
    && NeedsRecovery(done) && !Active(done)
    && DriverApply(s, d).journal == Upsert(s.journal, done)
    && DriverApply(s, d).recovery == Some(RecoveryOf(done)) && DriverApply(s, d).runState == Interrupted
    && DriverApply(s, d).saves == s.saves + 1
  }

  lemma SettledRecord(s: State, d: DriverStep)
    requires Inv(s) && Unacknowledged(s)
    requires DriverEnabled(s, d) && (d.FailBefore? || d.LoseOutcome?) && !Halting(s.runState)
    ensures exists done :: IsSettled(s, d, done)
  {
    hide Upsert;
    hide Serialize;
    hide Canonical;
    hide SettleFlow;
    assert StageOk(s.flows[d.f], s);
    hide Inv;
    if d.FailBefore? {
      var done := CompleteOperation(s.flows[d.f].op, FailedBeforeExecution, Some(d.code), d.now);
      SettleFlowFacts(s, d.f, done.value);
      assert IsSettled(s, d, done.value);
    } else {
      var op := if s.flows[d.f].stage == SavingCompleted then DispatchedAgain(s.flows[d.f].op) else s.flows[d.f].op;
      var done := MarkOutcomeUnknown(op, Some(d.code), d.now);
      SettleFlowFacts(s, d.f, done.value);
      assert IsSettled(s, d, done.value);
    }
  }

  lemma SettleFlowFacts(s: State, f: nat, done: Record)
    requires f in s.flows && !Halting(s.runState)
    ensures var t := SettleFlow(s, f, done);
      && t.journal == Upsert(s.journal, done) && t.recovery == Some(RecoveryOf(done))
      && t.runState == Interrupted && t.saves == s.saves + 1
  {
    hide Upsert;
    hide Serialize;
  }
}

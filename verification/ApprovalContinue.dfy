/**
 * What Continue promises about later restarts, whatever happens in between: from
 * which contents of the state file the banner it was chosen for comes back.
 */
module ApprovalContinue {
  import opened Common
  import opened OperationLifecycle
  import opened ApprovalProtocol
  import opened ApprovalInvariant
  import opened ApprovalSafety
  import opened ApprovalRecovery

  // ---------------------------------------------------------------- who remembers

  /**
   * The run that continues remembers the Continue, and so does every content it
   * queues and every run restarted from one of these. A content queued while the
   * banner was shown forgets it, and so does a run restarted from one, with what
   * it queues, until somebody chooses Continue or approves an action there. The
   * rest is neither: older than the banner, or changed by such a later step.
   */
  datatype Memory = Remembers | Forgets | Neither

  /** What the live run is, and every content by its ticket. */
  datatype Lineage = Lineage(live: Memory, contents: map<nat, Memory>)

  predicate Restarts(step: Step) {
    step.Control? && step.c.Crash?
  }

  function Of(l: Lineage, ticket: nat): Memory {
    if ticket in l.contents then l.contents[ticket] else Neither
  }

  /** A restart takes over the memory of the content it loads. */
  function Live(l: Lineage, step: Step): Memory {
    if Restarts(step) then Of(l, step.c.loaded.ticket)
    else if l.live == Forgets && !Waits(step) then Neither
    else l.live
  }

  /** A checkpoint takes over the memory of the run that queues it. */
  function Inherit(l: Lineage, s: State, step: Step): Lineage
    requires Enabled(s, step)
  {
    var live := Live(l, step);
    Lineage(live, if Apply(s, step).saves > s.saves then l.contents[s.saves := live] else l.contents)
  }

  ghost function Descent(l: Lineage, s: State, steps: seq<Step>): Lineage
    requires Runs(s, steps)
    decreases |steps|
  {
    if steps == [] then l else Descent(Inherit(l, s, steps[0]), Apply(s, steps[0]), steps[1..])
  }

  /** Right after a Continue: the banner was shown from checkpoint `m` on, and `n` is the next one. */
  function Continued(m: nat, n: nat): Lineage {
    Lineage(Remembers, Forgetful(m, n))
  }

  function Forgetful(m: nat, n: nat): (r: map<nat, Memory>)
    ensures forall k: nat :: k in r <==> m <= k < n
    ensures forall k: nat :: k in r ==> r[k] == Forgets
  {
    if n <= m then map[] else Forgetful(m, n - 1)[n - 1 := Forgets]
  }

  ghost predicate Labelled(l: Lineage, s: State) {
    forall k :: k in l.contents ==> k < s.saves
  }

  /** Entering a checkpoint under a fresh number changes no other label. */
  lemma Enters(l: Lineage, live: Memory, from: nat, to: nat)
    requires (forall k :: k in l.contents ==> k < from) && from <= to
    ensures var next := Lineage(live, if to > from then l.contents[from := live] else l.contents);
      && (forall k :: k in next.contents ==> k < to)
      && (forall k: nat :: k < from ==> Of(next, k) == Of(l, k))
      && (to > from ==> Of(next, from) == live)
  {
  }

  /** What a step does to the labels: old contents keep theirs, and a new one gets that of the live run. */
  lemma Inherits(l: Lineage, s: State, step: Step)
    requires Labelled(l, s) && Enabled(s, step)
    ensures var t, next := Apply(s, step), Inherit(l, s, step);
      && Labelled(next, t) && next.live == Live(l, step)
      && (forall k: nat :: k < s.saves ==> Of(next, k) == Of(l, k))
      && (t.saves > s.saves ==> Of(next, s.saves) == next.live)
  {
    hide Apply;
    hide Enabled;
    hide Live;
    hide Known;
    hide Serialize;
    hide TicketsOk;
    hide Of;
    StepFollows(s, step);
    Enters(l, Live(l, step), s.saves, Apply(s, step).saves);
  }

  // ---------------------------------------------------------------- what remembers needs no recovery

  /** The live run needs no recovery for operation `id`, and no flow can write it again. */
  ghost predicate Settled(s: State, id: nat) {
    && Quiet(s.journal, id) && !For(s.recovery, id)
    && (forall f :: f in s.flows && Holding(s.flows[f].stage) ==> s.flows[f].op.id != id)
  }

  lemma IdsGrow(s: State, step: Step)
    requires Enabled(s, step)
    ensures Apply(s, step).nextId >= s.nextId
  {
    hide GateApply;
    hide DriverApply;
    hide WriterApply;
    match step
    case Gate(g) => GateContents(s, g);
    case Driver(d) => DriverBanner(s, d);
    case Writer(w) => WriterBanner(s, w);
    case Control(c) =>
  }

  lemma DriverSettled(s: State, d: DriverStep, id: nat)
    requires Settled(s, id) && id < s.nextId && DriverEnabled(s, d)
    ensures Settled(DriverApply(s, d), id)
  {
    hide DriverApply;
    hide NeedsRecovery;
    DriverBanner(s, d);
    DriverJournal(s, d);
    DriverTouches(s, d);
    var t := DriverApply(s, d);
    if t.journal != s.journal {
      var op: Record :| t.journal == Upsert(s.journal, op) &&
        ((d.ResolveApprove? && op.id == s.nextId)
         || (Holding(s.flows[d.f].stage) && op.id == s.flows[d.f].op.id));
      UpsertQuiet(s.journal, op, id);
    }
    hide Upsert;
    if d.f in t.flows {
      DriverHolds(s, d);
    }
  }

  lemma ControlSettled(s: State, c: ControlStep, id: nat)
    requires Settled(s, id) && ControlEnabled(s, c) && !c.Crash?
    ensures Settled(ControlApply(s, c), id)
  {
    hide NeedsRecovery;
    if c.Continue? {
      AcknowledgeQuiet(s.journal, id, if s.recovery.Some? then s.recovery.value.operation else None, c.now);
    }
  }

  lemma RestartSettled(s: State, loaded: Snapshot, now: int, id: nat)
    requires Quiet(loaded.journal, id)
    ensures Settled(Restore(s, loaded, now), id)
  {
    hide NeedsRecovery;
    RecoverQuiet(loaded.journal, |loaded.journal|, id, now);
    QuietHasNoBanner(loaded.journal, id, now);
  }

  lemma SettledStays(s: State, step: Step, id: nat)
    requires Settled(s, id) && id < s.nextId && Enabled(s, step) && !Restarts(step)
    ensures Settled(Apply(s, step), id)
  {
    hide GateApply;
    hide DriverApply;
    hide WriterApply;
    hide ControlApply;
    hide NeedsRecovery;
    match step
    case Gate(g) =>
      GateContents(s, g);
      GateHolds(s, g);
    case Driver(d) => DriverSettled(s, d, id);
    case Writer(w) =>
      WriterBanner(s, w);
      WriterHolds(s, w);
    case Control(c) => ControlSettled(s, c, id);
  }

  /** Whatever remembers the Continue needs no recovery for operation `id`. */
  ghost predicate Remembering(s: State, id: nat, l: Lineage) {
    && id < s.nextId && Labelled(l, s)
    && (l.live == Remembers ==> Settled(s, id))
    && (forall c :: Known(s, c) && Of(l, c.ticket) == Remembers ==> Quiet(c.journal, id))
  }

  lemma LiveStaysSettled(s: State, step: Step, id: nat, l: Lineage)
    requires Remembering(s, id, l) && Enabled(s, step) && Live(l, step) == Remembers
    ensures Settled(Apply(s, step), id)
  {
    if Restarts(step) {
      assert Known(s, step.c.loaded);
      RestartSettled(s, step.c.loaded, step.c.now, id);
    } else {
      SettledStays(s, step, id);
    }
  }

  lemma RememberingStays(s: State, step: Step, id: nat, l: Lineage)
    requires Remembering(s, id, l) && TicketsOk(s) && Enabled(s, step)
    ensures Remembering(Apply(s, step), id, Inherit(l, s, step))
  {
    var t, next := Apply(s, step), Inherit(l, s, step);
    IdsGrow(s, step);
    Inherits(l, s, step);
    StepFollows(s, step);
    if next.live == Remembers {
      LiveStaysSettled(s, step, id, l);
      SerializeQuiet(t.journal, id);
    }
    hide Apply;
    hide Inherit;
    hide Enabled;
    hide Of;
    hide Known;
    hide Serialize;
    hide NeedsRecovery;
  }

  // ---------------------------------------------------------------- what forgets still shows the banner

  /** Whatever forgets the Continue is a copy of the journal `j` of the time when the banner was shown. */
  ghost predicate Forgetting(s: State, j: seq<Record>, l: Lineage) {
    && Labelled(l, s)
    && (l.live == Forgets ==>
          Serialize(s.journal) == Serialize(j) && forall f :: f in s.flows ==> !Holding(s.flows[f].stage))
    && (forall c :: Known(s, c) && Of(l, c.ticket) == Forgets ==> c.journal == Serialize(j))
  }

  lemma {:induction false} RedactTwice(j: seq<Record>)
    ensures RedactAll(RedactAll(j)) == RedactAll(j)
  {
    if j != [] {
      RedactTwice(j[..|j| - 1]);
      assert RedactAll(j)[..|j| - 1] == RedactAll(j[..|j| - 1]) by { RedactAllFacts(j[..|j| - 1]); }
    }
  }

  /** A copy of a journal without unfinished records is restored as it is. */
  lemma CopyRestored(j: seq<Record>, now: int)
    requires Canonical(j) && forall r :: r in j ==> !Active(r)
    ensures var copy := Serialize(j); Recover(copy, now).0 == copy && Serialize(copy) == copy
  {
    var copy := Serialize(j);
    SerializeIsRedaction(j);
    RedactAllCanonical(j);
    RedactAllMembers(j);
    RedactTwice(j);
    SerializeIsRedaction(copy);
    hide RedactAll;
    hide Serialize;
    hide Canonical;
    RecoverNone(copy, |copy|, now);
  }

  lemma LiveStaysForgetful(s: State, step: Step, j: seq<Record>, l: Lineage)
    requires Canonical(j) && forall r :: r in j ==> !Active(r)
    requires Forgetting(s, j, l) && Enabled(s, step) && Live(l, step) == Forgets
    ensures var t := Apply(s, step);
      Serialize(t.journal) == Serialize(j) && forall f :: f in t.flows ==> !Holding(t.flows[f].stage)
  {
    hide Canonical;
    hide Serialize;
    hide Recover;
    if Restarts(step) {
      assert Known(s, step.c.loaded);
      CopyRestored(j, step.c.now);
    } else {
      hide Apply;
      UnchangedLive(s, step);
    }
  }

  lemma ForgettingStays(s: State, step: Step, j: seq<Record>, l: Lineage)
    requires Canonical(j) && forall r :: r in j ==> !Active(r)
    requires Forgetting(s, j, l) && TicketsOk(s) && Enabled(s, step)
    ensures Forgetting(Apply(s, step), j, Inherit(l, s, step))
  {
    hide Canonical;
    hide Serialize;
    hide Apply;
    hide Inherit;
    hide Enabled;
    hide Of;
    var next := Inherit(l, s, step);
    Inherits(l, s, step);
    StepFollows(s, step);
    if next.live == Forgets {
      LiveStaysForgetful(s, step, j, l);
    }
    hide Known;
  }

  lemma {:induction false} RunRemembers(s: State, steps: seq<Step>, id: nat, l: Lineage)
    requires Remembering(s, id, l) && TicketsOk(s) && Runs(s, steps)
    ensures Remembering(Final(s, steps), id, Descent(l, s, steps))
    decreases |steps|
  {
    hide Remembering;
    hide TicketsOk;
    hide Apply;
    hide Inherit;
    if steps != [] {
      RememberingStays(s, steps[0], id, l);
      StepFollows(s, steps[0]);
      RunRemembers(Apply(s, steps[0]), steps[1..], id, Inherit(l, s, steps[0]));
    }
  }

  lemma {:induction false} RunForgets(s: State, steps: seq<Step>, j: seq<Record>, l: Lineage)
    requires Canonical(j) && forall r :: r in j ==> !Active(r)
    requires Forgetting(s, j, l) && TicketsOk(s) && Runs(s, steps)
    ensures Forgetting(Final(s, steps), j, Descent(l, s, steps))
    decreases |steps|
  {
    hide Canonical;
    hide Forgetting;
    hide TicketsOk;
    hide Apply;
    hide Inherit;
    if steps != [] {
      ForgettingStays(s, steps[0], j, l);
      StepFollows(s, steps[0]);
      RunForgets(Apply(s, steps[0]), steps[1..], j, Inherit(l, s, steps[0]));
    }
  }

  // ---------------------------------------------------------------- the theorems

  lemma ContinueSettles(s: State, now: int, id: nat, m: nat)
    requires Inv(s) && TicketsOk(s) && BannerOk(s) && ControlEnabled(s, Continue(now)) && For(s.recovery, id)
    ensures var t := ControlApply(s, Continue(now)); TicketsOk(t) && Remembering(t, id, Continued(m, s.saves))
  {
    hide Canonical;
    var t := ControlApply(s, Continue(now));
    InterruptedIsQuiet(s);
    AcknowledgeQuiet(s.journal, id, Some(id), now);
    SameContents(s, t);
    hide Acknowledge;
    hide Inv;
    hide Known;
    hide NeedsRecovery;
  }

  lemma ShownIsForgetting(s: State, now: int, m: nat, j: seq<Record>)
    requires Unchanged(s, m, j) && ControlEnabled(s, Continue(now))
    ensures Forgetting(ControlApply(s, Continue(now)), j, Continued(m, s.saves))
  {
    hide Serialize;
    hide Acknowledge;
    var t := ControlApply(s, Continue(now));
    assert forall c :: Known(t, c) <==> Known(s, c);
    hide Known;
  }

  lemma ShownIsSettled(s: State, id: nat, m: nat)
    requires Inv(s) && Shows(s, id, m)
    ensures Canonical(s.journal) && (forall r :: r in s.journal ==> !Active(r)) && Unchanged(s, m, s.journal)
  {
    InvCanonical(s);
    hide Canonical;
    InterruptedIsQuiet(s);
    ShownIsUnchanged(s, id, m);
  }

  /**
   * From `s` the run `before` shows the banner for operation `id`, every content
   * from checkpoint `m` on being a copy; it is still shown after `shown`, when the
   * user chooses Continue at `now`; and `after` is any continuation of that.
   */
  ghost predicate Continuation(s: State, before: seq<Step>, id: nat, m: nat, shown: seq<Step>, now: int,
                               after: seq<Step>)
  {
    && Initial(s) && Runs(s, before) && Shows(Final(s, before), id, m)
    && Runs(Final(s, before), shown) && (forall step :: step in shown ==> Waits(step))
    && var t := Final(Final(s, before), shown);
    && ControlEnabled(t, Continue(now)) && t.recovery == Final(s, before).recovery
    && Runs(ControlApply(t, Continue(now)), after)
  }

  /** What holds after every continuation of a Continue. */
  lemma AfterContinue(s: State, before: seq<Step>, id: nat, m: nat, shown: seq<Step>, now: int, after: seq<Step>)
    requires Continuation(s, before, id, m, shown, now, after)
    ensures var j, t := Final(s, before).journal, Final(Final(s, before), shown);
      var u := ControlApply(t, Continue(now));
      var w, l := Final(u, after), Descent(Continued(m, t.saves), u, after);
      && Canonical(j) && (forall r :: r in j ==> !Active(r)) && For(Banner(j), id)
      && TicketsOk(w) && Remembering(w, id, l) && Forgetting(w, j, l)
  {
    hide Serialize;
    hide Banner;
    hide ControlApply;
    hide Inv;
    hide TicketsOk;
    hide BannerOk;
    hide Canonical;
    hide Continued;
    hide Runs;
    hide Final;
    hide Descent;
    hide Remembering;
    hide Forgetting;
    var v := Final(s, before);
    var t := Final(v, shown);
    var u := ControlApply(t, Continue(now));
    ReachableTickets(s, before);
    RunKeepsTickets(v, shown);
    ShownIsSettled(v, id, m);
    RunUnchanged(v, shown, m, v.journal);
    ContinueSettles(t, now, id, m);
    ShownIsForgetting(t, now, m, v.journal);
    RunRemembers(u, after, id, Continued(m, t.saves));
    RunForgets(u, after, v.journal, Continued(m, t.saves));
    RunTickets(u, after);
  }

  /** Of the records that need recovery, the newest belongs to operation `id`. */
  ghost predicate NewestFor(j: seq<Record>, id: nat) {
    exists i :: 0 <= i < |j| && j[i].id == id && NeedsRecovery(j[i])
                && forall k :: i < k < |j| ==> !NeedsRecovery(j[k])
  }

  lemma {:induction false} BannerIffNewest(j: seq<Record>, id: nat)
    ensures For(Banner(j), id) <==> NewestFor(j, id)
  {
    if j != [] {
      var init, last := j[..|j| - 1], j[|j| - 1];
      BannerIffNewest(init, id);
      if NeedsRecovery(last) {
        assert last.id == id ==> NewestFor(j, id);
      } else {
        if NewestFor(init, id) {
          var i :| 0 <= i < |init| && init[i].id == id && NeedsRecovery(init[i])
                   && forall k :: i < k < |init| ==> !NeedsRecovery(init[k]);
          assert j[i] == init[i];
        }
        if NewestFor(j, id) {
          var i :| 0 <= i < |j| && j[i].id == id && NeedsRecovery(j[i])
                   && forall k :: i < k < |j| ==> !NeedsRecovery(j[k]);
          assert init[i] == j[i];
        }
      }
    }
  }

  /** A restart shows the banner of the newest record that needs recovery, unless the conversation had ended. */
  lemma RestartShows(s: State, c: Snapshot, later: int, id: nat)
    ensures For(Restore(s, c, later).recovery, id) <==> !Ended(c.runState) && NewestFor(c.journal, id)
  {
    hide Banner;
    hide Recover;
    RecoverShowsBanner(c.journal, later);
    BannerIffNewest(c.journal, id);
    hide NewestFor;
  }

  /**
   * The server acknowledges before it saves, so a restart may raise a banner again
   * that Continue was chosen for. For every continuation of the Continue, restarts
   * from any content included, and every content `c` the disk may then show: a
   * restart from `c` raises the banner for that operation if and only if the
   * conversation had not ended and `c` forgets the Continue, or neither remembers
   * nor forgets it and the operation is the newest in it that needs recovery.
   */
  lemma RestartAfterContinue(s: State, before: seq<Step>, id: nat, m: nat, shown: seq<Step>, now: int,
                             after: seq<Step>, c: Snapshot, later: int)
    requires Continuation(s, before, id, m, shown, now, after)
    requires c in Final(ControlApply(Final(Final(s, before), shown), Continue(now)), after).disk
    ensures var t := Final(Final(s, before), shown);
      var u := ControlApply(t, Continue(now));
      var memory := Of(Descent(Continued(m, t.saves), u, after), c.ticket);
      For(Restore(Final(u, after), c, later).recovery, id) <==>
        !Ended(c.runState) && (memory == Forgets || (memory == Neither && NewestFor(c.journal, id)))
  {
    hide Restore;
    hide Serialize;
    hide Banner;
    hide Canonical;
    hide Of;
    hide NewestFor;
    hide TicketsOk;
    AfterContinue(s, before, id, m, shown, now, after);
    hide Continuation;
    hide ControlApply;
    hide Runs;
    hide Final;
    hide Descent;
    hide Continued;
    var t := Final(Final(s, before), shown);
    var u := ControlApply(t, Continue(now));
    var w := Final(u, after);
    assert Known(w, c);
    RestartShows(w, c, later, id);
    var memory := Of(Descent(Continued(m, t.saves), u, after), c.ticket);
    if memory == Remembers {
      NoBannerFrom(w, c, later, id);
    } else if memory == Forgets && !Ended(c.runState) {
      CopyShowsBanner(w, Final(s, before).journal, c, later, id);
    }
  }

  // ---------------------------------------------------------------- restarts that lose nothing

  /** Every restart of the run loads a content queued as checkpoint `n` or later. */
  predicate LoadsSince(steps: seq<Step>, n: nat) {
    forall i :: 0 <= i < |steps| && Restarts(steps[i]) ==> steps[i].c.loaded.ticket >= n
  }

  /** Contents from checkpoint `m` on forget the Continue, those from `n` on remember it, and so does the live run. */
  ghost predicate Parted(l: Lineage, s: State, m: nat, n: nat) {
    && m <= n <= s.saves && l.live == Remembers
    && forall k: nat :: m <= k < s.saves ==> Of(l, k) == if k < n then Forgets else Remembers
  }

  lemma {:induction false} RunParted(l: Lineage, s: State, steps: seq<Step>, m: nat, n: nat)
    requires Parted(l, s, m, n) && Labelled(l, s) && TicketsOk(s) && Runs(s, steps) && LoadsSince(steps, n)
    ensures Parted(Descent(l, s, steps), Final(s, steps), m, n)
    decreases |steps|
  {
    hide Apply;
    hide Inherit;
    hide Known;
    hide Serialize;
    hide Of;
    if steps != [] {
      Inherits(l, s, steps[0]);
      StepFollows(s, steps[0]);
      PartedLive(l, s, steps[0], m, n);
      RunParted(Inherit(l, s, steps[0]), Apply(s, steps[0]), steps[1..], m, n);
    }
  }

  lemma PartedLive(l: Lineage, s: State, step: Step, m: nat, n: nat)
    requires Parted(l, s, m, n) && TicketsOk(s) && Enabled(s, step)
    requires Restarts(step) ==> step.c.loaded.ticket >= n
    ensures Live(l, step) == Remembers
  {
    if Restarts(step) {
      assert Known(s, step.c.loaded);
    }
  }

  /**
   * As long as no restart loads a content queued before the Continue, the contents
   * queued before it are the ones that forget it: among those queued since the
   * banner was shown, exactly these bring it back.
   */
  lemma RestartUnforgotten(s: State, before: seq<Step>, id: nat, m: nat, shown: seq<Step>, now: int,
                           after: seq<Step>, c: Snapshot, later: int)
    requires Continuation(s, before, id, m, shown, now, after)
    requires LoadsSince(after, Final(Final(s, before), shown).saves)
    requires c in Final(ControlApply(Final(Final(s, before), shown), Continue(now)), after).disk
    requires m <= c.ticket && !Ended(c.runState)
    ensures var t := Final(Final(s, before), shown);
      For(Restore(Final(ControlApply(t, Continue(now)), after), c, later).recovery, id) <==> c.ticket < t.saves
  {
    hide Restore;
    hide Inv;
    hide BannerOk;
    hide Acknowledge;
    hide Serialize;
    var v := Final(s, before);
    var t := Final(v, shown);
    var u := ControlApply(t, Continue(now));
    ReachableTickets(s, before);
    RunKeepsTickets(v, shown);
    ContinueReaches(t, now);
    RunKeepsTickets(u, after);
    ShownIsSettled(v, id, m);
    RunUnchanged(v, shown, m, v.journal);
    assert u.saves == t.saves;
    hide ControlApply;
    RunParted(Continued(m, t.saves), u, after, m, t.saves);
    RestartAfterContinue(s, before, id, m, shown, now, after, c, later);
    assert Known(Final(u, after), c);
  }

  // ---------------------------------------------------------------- a saved Continue

  /** Behind a queued checkpoint that remembers the Continue only such checkpoints are queued. */
  ghost predicate QueueRemembers(s: State, l: Lineage) {
    forall i, k :: 0 <= i <= k < |s.queue| && Of(l, s.queue[i].snapshot.ticket) == Remembers ==>
      Of(l, s.queue[k].snapshot.ticket) == Remembers && l.live == Remembers
  }

  /** The queue loses entries at its head, and gains at most one, under the next number. */
  ghost predicate Shifts(s: State, t: State, gone: nat) {
    && gone <= |s.queue| && |s.queue| - gone <= |t.queue| <= |s.queue| - gone + 1
    && (forall k :: 0 <= k < |s.queue| - gone ==> t.queue[k].snapshot == s.queue[k + gone].snapshot)
    && (|t.queue| > |s.queue| - gone ==>
          t.saves > s.saves && t.queue[|t.queue| - 1].snapshot.ticket == s.saves)
  }

  lemma StepShifts(s: State, step: Step) returns (gone: nat)
    requires Enabled(s, step)
    ensures Shifts(s, Apply(s, step), gone)
    ensures Restarts(step) ==> Apply(s, step).queue == []
  {
    hide GateApply;
    hide DriverApply;
    hide Serialize;
    match step {
      case Gate(g) =>
        GateContents(s, g);
        gone := 0;
      case Driver(d) =>
        DriverWrites(s, d);
        gone := 0;
      case Writer(w) => gone := if w.SaveSucceeds? || w.SaveFails? then 1 else 0;
      case Control(c) => gone := if c.Crash? then |s.queue| else 0;
    }
  }

  lemma QueueStaysRemembering(s: State, step: Step, l: Lineage)
    requires QueueRemembers(s, l) && Labelled(l, s) && TicketsOk(s) && Enabled(s, step)
    ensures QueueRemembers(Apply(s, step), Inherit(l, s, step))
  {
    hide Apply;
    hide Inherit;
    hide Enabled;
    hide Of;
    var t, next := Apply(s, step), Inherit(l, s, step);
    var gone := StepShifts(s, step);
    Inherits(l, s, step);
    if !Restarts(step) {
      QueueTickets(s);
      forall i, k | 0 <= i <= k < |t.queue| && Of(next, t.queue[i].snapshot.ticket) == Remembers
        ensures Of(next, t.queue[k].snapshot.ticket) == Remembers && next.live == Remembers
      {
        if i < |s.queue| - gone {
          assert Of(l, s.queue[i + gone].snapshot.ticket) == Remembers;
          assert l.live == Remembers;
          if k < |s.queue| - gone {
            assert Of(l, s.queue[k + gone].snapshot.ticket) == Remembers;
          }
        }
      }
    }
  }

  lemma QueueTickets(s: State)
    requires TicketsOk(s)
    ensures forall k :: 0 <= k < |s.queue| ==> s.queue[k].snapshot.ticket < s.saves
  {
    forall k | 0 <= k < |s.queue| ensures s.queue[k].snapshot.ticket < s.saves {
      assert Known(s, s.queue[k].snapshot);
    }
  }

  lemma {:induction false} RunQueueRemembers(s: State, steps: seq<Step>, l: Lineage)
    requires QueueRemembers(s, l) && Labelled(l, s) && TicketsOk(s) && Runs(s, steps)
    ensures QueueRemembers(Final(s, steps), Descent(l, s, steps))
    decreases |steps|
  {
    hide QueueRemembers;
    hide TicketsOk;
    hide Apply;
    hide Inherit;
    if steps != [] {
      QueueStaysRemembering(s, steps[0], l);
      Inherits(l, s, steps[0]);
      StepFollows(s, steps[0]);
      RunQueueRemembers(Apply(s, steps[0]), steps[1..], Inherit(l, s, steps[0]));
    }
  }

  /** The live run and every content that is, or may still get, on disk remember the Continue. */
  ghost predicate AllRemember(s: State, l: Lineage) {
    l.live == Remembers && forall c :: Known(s, c) ==> Of(l, c.ticket) == Remembers
  }

  lemma AllStillRemember(s: State, step: Step, l: Lineage)
    requires AllRemember(s, l) && Labelled(l, s) && TicketsOk(s) && Enabled(s, step)
    ensures AllRemember(Apply(s, step), Inherit(l, s, step))
  {
    hide Of;
    if Restarts(step) {
      assert Known(s, step.c.loaded);
    }
    assert Live(l, step) == Remembers;
    hide Apply;
    hide Inherit;
    hide Enabled;
    hide Known;
    hide Serialize;
    Inherits(l, s, step);
    StepFollows(s, step);
  }

  lemma {:induction false} RunAllRemember(s: State, steps: seq<Step>, l: Lineage)
    requires AllRemember(s, l) && Labelled(l, s) && TicketsOk(s) && Runs(s, steps)
    ensures AllRemember(Final(s, steps), Descent(l, s, steps))
    decreases |steps|
  {
    hide AllRemember;
    hide TicketsOk;
    hide Apply;
    hide Inherit;
    if steps != [] {
      AllStillRemember(s, steps[0], l);
      Inherits(l, s, steps[0]);
      StepFollows(s, steps[0]);
      RunAllRemember(Apply(s, steps[0]), steps[1..], Inherit(l, s, steps[0]));
    }
  }

  lemma SavedAllRemember(s: State, l: Lineage)
    requires QueueRemembers(s, l) && Labelled(l, s) && TicketsOk(s) && WriterEnabled(s, SaveSucceeds)
    requires Of(l, s.queue[0].snapshot.ticket) == Remembers
    ensures AllRemember(Apply(s, Writer(SaveSucceeds)), Inherit(l, s, Writer(SaveSucceeds)))
  {
    hide Of;
    hide Serialize;
    var step := Writer(SaveSucceeds);
    var t := Apply(s, step);
    assert l.live == Remembers;
    Inherits(l, s, step);
    QueueTickets(s);
    hide Inherit;
    forall c | Known(t, c) ensures Of(l, c.ticket) == Remembers && c.ticket < s.saves {
      if c !in t.disk {
        var k :| 0 <= k < |t.queue| && t.queue[k].snapshot == c;
        assert s.queue[k + 1].snapshot == c;
      }
    }
  }

  /**
   * Once a checkpoint that remembers the Continue has been saved, no run whatsoever
   * shows the banner for that operation again, live or after a restart from any
   * content the disk may show. (`SavedTooLate` shows that it is not enough for the
   * checkpoint to be queued after the Continue.)
   */
  lemma SavedContinueIsFinal(s: State, before: seq<Step>, id: nat, now: int, after: seq<Step>, rest: seq<Step>,
                             c: Snapshot, later: int)
    requires Initial(s) && Runs(s, before)
    requires var t := Final(s, before);
      && ControlEnabled(t, Continue(now)) && For(t.recovery, id)
      && var u := ControlApply(t, Continue(now));
      && Runs(u, after)
      && var w := Final(u, after);
      && WriterEnabled(w, SaveSucceeds)
      && Of(Descent(Continued(t.saves, t.saves), u, after), w.queue[0].snapshot.ticket) == Remembers
      && Runs(Apply(w, Writer(SaveSucceeds)), rest)
      && c in Final(Apply(w, Writer(SaveSucceeds)), rest).disk
    ensures var x := Apply(Final(ControlApply(Final(s, before), Continue(now)), after), Writer(SaveSucceeds));
      !For(Final(x, rest).recovery, id) && !For(Restore(Final(x, rest), c, later).recovery, id)
  {
    hide Restore;
    hide Inv;
    hide BannerOk;
    hide TicketsOk;
    hide Apply;
    hide ControlApply;
    hide Of;
    var t := Final(s, before);
    var u := ControlApply(t, Continue(now));
    var start := Continued(t.saves, t.saves);
    ReachableTickets(s, before);
    ContinueSettles(t, now, id, t.saves);
    assert QueueRemembers(u, start) by { NoneRemembers(u, t.saves); }
    RunRemembers(u, after, id, start);
    RunQueueRemembers(u, after, start);
    RunTickets(u, after);
    SavedStays(Final(u, after), id, Descent(start, u, after), rest, c, later);
  }

  lemma NoneRemembers(s: State, n: nat)
    ensures QueueRemembers(s, Continued(n, n))
  {
  }

  lemma {:induction false} RunTickets(s: State, steps: seq<Step>)
    requires TicketsOk(s) && Runs(s, steps)
    ensures TicketsOk(Final(s, steps))
    decreases |steps|
  {
    hide TicketsOk;
    hide Apply;
    if steps != [] {
      StepFollows(s, steps[0]);
      RunTickets(Apply(s, steps[0]), steps[1..]);
    }
  }

  lemma SavedStays(s: State, id: nat, l: Lineage, rest: seq<Step>, c: Snapshot, later: int)
    requires Remembering(s, id, l) && QueueRemembers(s, l) && TicketsOk(s)
    requires WriterEnabled(s, SaveSucceeds) && Of(l, s.queue[0].snapshot.ticket) == Remembers
    requires Runs(Apply(s, Writer(SaveSucceeds)), rest) && c in Final(Apply(s, Writer(SaveSucceeds)), rest).disk
    ensures var x := Apply(s, Writer(SaveSucceeds));
      !For(Final(x, rest).recovery, id) && !For(Restore(Final(x, rest), c, later).recovery, id)
  {
    hide Restore;
    hide Apply;
    hide Inherit;
    hide Of;
    var step := Writer(SaveSucceeds);
    assert Enabled(s, step);
    var x, next := Apply(s, step), Inherit(l, s, step);
    SavedAllRemember(s, l);
    Inherits(l, s, step);
    StepFollows(s, step);
    RememberingStays(s, step, id, l);
    RunAllRemember(x, rest, next);
    RunRemembers(x, rest, id, next);
    assert Known(Final(x, rest), c);
    NoBannerFrom(Final(x, rest), c, later, id);
  }

  // ---------------------------------------------------------------- starting over

  lemma CopyShows(s: State, j: seq<Record>, c: Snapshot, later: int, id: nat)
    requires TicketsOk(s) && Canonical(j) && (forall r :: r in j ==> !Active(r)) && For(Banner(j), id)
    requires c in s.disk && c.journal == Serialize(j) && !Ended(c.runState)
    ensures Shows(Restore(s, c, later), id, s.saves)
  {
    var t := Restore(s, c, later);
    CopyShowsBanner(s, j, c, later, id);
    CopyRestored(j, later);
    SerializeIsRedaction(j);
    RedactedBanner(j);
    RecoverShowsBanner(c.journal, later);
    hide Serialize;
    hide Banner;
    hide Canonical;
    assert t.journal == c.journal && t.runState == Interrupted;
    assert forall d :: Known(t, d) ==> Known(s, d);
    assert t.saves == s.saves;
    hide Known;
  }

  /**
   * A restart from a content that forgets the Continue shows the banner afresh, as
   * it was shown before the Continue; so `RestartAfterContinue` applies again to
   * the next Continue.
   */
  lemma ForgottenShows(s: State, before: seq<Step>, id: nat, m: nat, shown: seq<Step>, now: int,
                       after: seq<Step>, c: Snapshot, later: int)
    requires Continuation(s, before, id, m, shown, now, after)
    requires var t := Final(Final(s, before), shown);
      var u := ControlApply(t, Continue(now));
      && c in Final(u, after).disk && !Ended(c.runState)
      && Of(Descent(Continued(m, t.saves), u, after), c.ticket) == Forgets
    ensures var w := Final(ControlApply(Final(Final(s, before), shown), Continue(now)), after);
      Shows(Restore(w, c, later), id, w.saves)
  {
    hide Restore;
    hide Serialize;
    hide Banner;
    hide Canonical;
    hide Of;
    hide Shows;
    hide TicketsOk;
    AfterContinue(s, before, id, m, shown, now, after);
    hide Continuation;
    hide ControlApply;
    hide Final;
    hide Descent;
    hide Continued;
    var w := Final(ControlApply(Final(Final(s, before), shown), Continue(now)), after);
    assert Known(w, c);
    CopyShows(w, Final(s, before).journal, c, later, id);
  }
}

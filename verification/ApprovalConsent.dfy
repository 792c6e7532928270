/**
 * Nothing is executed without the user's approval: over whole runs, the first
 * decision on a request settles what may become of it.
 */
module ApprovalConsent {
  import opened Common
  import opened OperationLifecycle
  import opened ApprovalProtocol
  import opened ApprovalInvariant
  import opened ApprovalSafety

  predicate Decides(step: Step, f: nat) {
    step.Gate? && step.g.Decide? && step.g.f == f
  }

  /** The first decision the user made on request `f`. */
  function FirstDecision(steps: seq<Step>, f: nat): Option<bool> {
    if steps == [] then None
    else
      var before := FirstDecision(steps[..|steps| - 1], f);
      var last := steps[|steps| - 1];
      if before.Some? then before else if Decides(last, f) then Some(last.g.approved) else None
  }

  lemma FirstDecisionSnoc(past: seq<Step>, step: Step)
    ensures forall f :: FirstDecision(past + [step], f) ==
              if FirstDecision(past, f).Some? then FirstDecision(past, f)
              else if Decides(step, f) then Some(step.g.approved) else None
  {
    assert (past + [step])[..|past|] == past;
  }

  /** The decision that has brought a request to a stage. */
  function Verdict(stage: Stage): Option<bool> {
    match stage
    case Waiting => None
    case Decided(approved) => Some(approved)
    case Rejecting => Some(false)
    case _ => Some(true)
  }

  /** The stages before a request has become an operation. */
  predicate Fresh(stage: Stage) {
    stage.Waiting? || stage.Decided?
  }

  /** Where every request stands follows from the first decision on it. */
  ghost predicate FlowsTraced(past: seq<Step>, s: State) {
    && (forall f :: f in s.flows ==> f < s.nextId && FirstDecision(past, f) == Verdict(s.flows[f].stage))
    && (forall f :: f >= s.nextId ==> FirstDecision(past, f).None?)
  }

  /** Every operation belongs to a request whose first decision approved it, and no request has two. */
  ghost predicate RequestsTraced(past: seq<Step>, s: State) {
    && (forall id :: id in s.requests ==> id < s.nextId && FirstDecision(past, s.requests[id]) == Some(true))
    && (forall a, b :: a in s.requests && b in s.requests && s.requests[a] == s.requests[b] ==> a == b)
    && (forall id :: id in s.requests && s.requests[id] in s.flows ==> !Fresh(s.flows[s.requests[id]].stage))
    && (forall f :: f in s.flows && Unfinished(s.flows[f].stage) ==>
          s.flows[f].op.id in s.requests && s.requests[s.flows[f].op.id] == f)
    && (forall id :: s.effects[id] > 0 ==> id in s.requests)
  }

  lemma FlowsStayTraced(past: seq<Step>, s: State, step: Step)
    requires GateOk(s) && FlowsTraced(past, s) && Enabled(s, step)
    ensures FlowsTraced(past + [step], Apply(s, step))
  {
    hide FirstDecision;
    hide DriverApply;
    hide WriterApply;
    hide ControlApply;
    hide GateApply;
    FirstDecisionSnoc(past, step);
    match step
    case Gate(g) => GateVerdicts(past, s, g);
    case Driver(d) => DriverVerdicts(s, d);
    case Writer(w) => WriterVerdicts(s, w);
    case Control(c) => ControlVerdicts(s, c);
  }

  lemma GateVerdicts(past: seq<Step>, s: State, g: GateStep)
    requires GateOk(s) && FlowsTraced(past, s) && GateEnabled(s, g)
    ensures FlowsTraced(past + [Gate(g)], GateApply(s, g))
  {
    hide FirstDecision;
    FirstDecisionSnoc(past, Gate(g));
  }

  lemma ControlVerdicts(s: State, c: ControlStep)
    requires ControlEnabled(s, c)
    ensures var t := ControlApply(s, c);
      && t.nextId >= s.nextId
      && forall f :: f in t.flows ==> f in s.flows && t.flows[f].stage == s.flows[f].stage
  {
  }

  lemma DriverMoves(s: State, d: DriverStep)
    requires DriverEnabled(s, d) && d.f in DriverApply(s, d).flows
    ensures d.f in s.flows && Verdict(DriverApply(s, d).flows[d.f].stage) == Verdict(s.flows[d.f].stage)
  {
    hide Upsert;
    hide Serialize;
    hide CompleteOperation;
    hide MarkOutcomeUnknown;
    hide DispatchOperation;
  }

  /** Only an approval adds a request, and only the browser call an execution. */
  lemma DriverCounts(s: State, d: DriverStep)
    requires DriverEnabled(s, d)
    ensures var t := DriverApply(s, d);
      && t.nextId >= s.nextId
      && (!d.ResolveApprove? ==> t.requests == s.requests)
      && (!d.Begin? ==> t.effects == s.effects)
  {
    hide Upsert;
    hide Serialize;
    hide CompleteOperation;
    hide MarkOutcomeUnknown;
    hide DispatchOperation;
  }

  lemma DriverVerdicts(s: State, d: DriverStep)
    requires DriverEnabled(s, d)
    ensures var t := DriverApply(s, d);
      && t.nextId >= s.nextId
      && forall f :: f in t.flows ==> f in s.flows && Verdict(t.flows[f].stage) == Verdict(s.flows[f].stage)
  {
    hide DriverApply;
    hide Verdict;
    DriverTouches(s, d);
    DriverCounts(s, d);
    if d.f in DriverApply(s, d).flows {
      DriverMoves(s, d);
    }
  }

  lemma WriterVerdicts(s: State, w: WriterStep)
    requires WriterEnabled(s, w)
    ensures var t := WriterApply(s, w);
      && t.nextId == s.nextId && t.requests == s.requests && t.effects == s.effects
      && t.flows.Keys == s.flows.Keys
      && forall f :: f in t.flows ==> t.flows[f].stage == s.flows[f].stage && t.flows[f].op == s.flows[f].op
  {
    hide Serialize;
  }

  /** From `past` to `more` no approval is taken back. */
  ghost predicate Extends(past: seq<Step>, more: seq<Step>) {
    forall f :: FirstDecision(past, f) == Some(true) ==> FirstDecision(more, f) == Some(true)
  }

  /** The steps that neither approve nor execute leave requests and operations as they are. */
  ghost predicate SameRequests(s: State, t: State) {
    && t.requests == s.requests && t.effects == s.effects && t.nextId >= s.nextId
    && forall f :: f in t.flows ==>
         || (f == s.nextId && t.flows[f].stage == Waiting)
         || (&& f in s.flows && (Fresh(t.flows[f].stage) ==> Fresh(s.flows[f].stage))
             && (Unfinished(t.flows[f].stage) ==>
                   Unfinished(s.flows[f].stage) && t.flows[f].op.id == s.flows[f].op.id))
  }

  lemma RequestsKept(past: seq<Step>, more: seq<Step>, s: State, t: State)
    requires FlowsTraced(past, s) && RequestsTraced(past, s) && Extends(past, more) && SameRequests(s, t)
    ensures RequestsTraced(more, t)
  {
    hide FirstDecision;
  }

  lemma GateSameRequests(s: State, g: GateStep)
    requires GateEnabled(s, g)
    ensures SameRequests(s, GateApply(s, g))
  {
  }

  lemma ControlSameRequests(s: State, c: ControlStep)
    requires ControlEnabled(s, c)
    ensures SameRequests(s, ControlApply(s, c))
  {
  }

  lemma DriverKeepsOperation(s: State, d: DriverStep)
    requires DriverEnabled(s, d) && !d.ResolveApprove? && d.f in s.flows && d.f in DriverApply(s, d).flows
    ensures var flow, next := s.flows[d.f], DriverApply(s, d).flows[d.f];
      && (Fresh(next.stage) ==> Fresh(flow.stage))
      && (Unfinished(next.stage) ==> Unfinished(flow.stage) && next.op.id == flow.op.id)
  {
    hide Upsert;
    hide Serialize;
  }

  lemma DriverSameRequests(s: State, d: DriverStep)
    requires DriverEnabled(s, d) && !d.ResolveApprove? && !d.Begin?
    ensures SameRequests(s, DriverApply(s, d))
  {
    hide DriverApply;
    DriverTouches(s, d);
    DriverCounts(s, d);
    if d.f in DriverApply(s, d).flows {
      DriverKeepsOperation(s, d);
    }
  }

  lemma ApproveCounts(s: State, f: nat, kind: Kind, now: int)
    requires DriverEnabled(s, ResolveApprove(f, kind, now))
    ensures var t := DriverApply(s, ResolveApprove(f, kind, now));
      && t.requests == s.requests[s.nextId := f] && t.effects == s.effects && t.nextId == s.nextId + 1
      && f in t.flows && t.flows[f].op.id == s.nextId && t.flows[f].stage == SavingApproved
      && t.flows.Keys == s.flows.Keys
  {
    hide Upsert;
    hide Serialize;
  }

  lemma ApproveTraced(past: seq<Step>, more: seq<Step>, s: State, f: nat, kind: Kind, now: int)
    requires GateOk(s) && FlowsTraced(past, s) && RequestsTraced(past, s) && Extends(past, more)
    requires DriverEnabled(s, ResolveApprove(f, kind, now))
    ensures RequestsTraced(more, DriverApply(s, ResolveApprove(f, kind, now)))
  {
    hide FirstDecision;
    hide DriverApply;
    ApproveCounts(s, f, kind, now);
    var t := DriverApply(s, ResolveApprove(f, kind, now));
    assert forall id :: id in s.requests ==> s.requests[id] != f;
    assert FirstDecision(more, f) == Some(true);
    assert forall g :: g in t.flows ==> g in s.flows && g == f;
  }

  lemma BeginTraced(past: seq<Step>, more: seq<Step>, s: State, f: nat)
    requires RequestsTraced(past, s) && Extends(past, more) && DriverEnabled(s, Begin(f))
    ensures RequestsTraced(more, DriverApply(s, Begin(f)))
  {
    hide FirstDecision;
    assert s.flows[f].op.id in s.requests;
  }

  lemma RequestsStayTraced(past: seq<Step>, s: State, step: Step)
    requires GateOk(s) && FlowsTraced(past, s) && RequestsTraced(past, s) && Enabled(s, step)
    ensures RequestsTraced(past + [step], Apply(s, step))
  {
    hide FirstDecision;
    FirstDecisionSnoc(past, step);
    var more := past + [step];
    assert Extends(past, more);
    hide GateApply;
    hide DriverApply;
    hide WriterApply;
    hide ControlApply;
    hide RequestsTraced;
    hide FlowsTraced;
    match step
    case Gate(g) =>
      GateSameRequests(s, g);
      RequestsKept(past, more, s, GateApply(s, g));
    case Driver(ResolveApprove(f, kind, now)) => ApproveTraced(past, more, s, f, kind, now);
    case Driver(Begin(f)) => BeginTraced(past, more, s, f);
    case Driver(d) =>
      DriverSameRequests(s, d);
      RequestsKept(past, more, s, DriverApply(s, d));
    case Writer(w) =>
      WriterVerdicts(s, w);
      RequestsKept(past, more, s, WriterApply(s, w));
    case Control(c) =>
      ControlSameRequests(s, c);
      RequestsKept(past, more, s, ControlApply(s, c));
  }

  lemma {:induction false} RunTraced(past: seq<Step>, s: State, steps: seq<Step>)
    requires Inv(s) && FlowsTraced(past, s) && RequestsTraced(past, s) && Runs(s, steps)
    ensures FlowsTraced(past + steps, Final(s, steps)) && RequestsTraced(past + steps, Final(s, steps))
    decreases |steps|
  {
    hide Inv;
    hide FlowsTraced;
    hide RequestsTraced;
    hide Apply;
    if steps == [] {
      assert past + steps == past;
    } else {
      assert GateOk(s) by { InvGate(s); }
      StepKeeps(s, steps[0]);
      FlowsStayTraced(past, s, steps[0]);
      RequestsStayTraced(past, s, steps[0]);
      RunTraced(past + [steps[0]], Apply(s, steps[0]), steps[1..]);
      assert past + [steps[0]] + steps[1..] == past + steps;
    }
  }

  lemma InvGate(s: State)
    requires Inv(s)
    ensures GateOk(s)
  {
  }

  lemma TracedFromStart(s: State, steps: seq<Step>)
    requires Initial(s) && Runs(s, steps)
    ensures FlowsTraced(steps, Final(s, steps)) && RequestsTraced(steps, Final(s, steps))
  {
    InitialInv(s);
    RunTraced([], s, steps);
    assert [] + steps == steps;
  }

  /**
   * The first decision wins, and nothing is executed without approval: in every
   * run each executed operation belongs to a request whose first decision was to
   * approve it, and no other operation belongs to that request.
   */
  lemma FirstDecisionWins(s: State, steps: seq<Step>, id: nat)
    requires Initial(s) && Runs(s, steps) && Final(s, steps).effects[id] > 0
    ensures var t := Final(s, steps);
      && id in t.requests && FirstDecision(steps, t.requests[id]) == Some(true)
      && forall other :: other in t.requests && t.requests[other] == t.requests[id] ==> other == id
  {
    TracedFromStart(s, steps);
  }

  /** The browser is told to act only for a request whose first decision was to approve it. */
  lemma BeginIsApproved(s: State, steps: seq<Step>, f: nat)
    requires Initial(s) && Runs(s, steps) && DriverEnabled(Final(s, steps), Begin(f))
    ensures FirstDecision(steps, f) == Some(true)
  {
    TracedFromStart(s, steps);
  }

  lemma {:induction false} FirstDecisionStands(before: seq<Step>, after: seq<Step>, f: nat)
    requires FirstDecision(before, f).Some?
    ensures FirstDecision(before + after, f) == FirstDecision(before, f)
    decreases |after|
  {
    if after == [] {
      assert before + after == before;
    } else {
      var init := after[..|after| - 1];
      FirstDecisionStands(before, init, f);
      assert (before + after)[..|before + after| - 1] == before + init;
    }
  }

  /** A request that was first refused never becomes an operation, let alone an executed one, whatever happens later. */
  lemma RefusedNeverRuns(s: State, before: seq<Step>, f: nat, after: seq<Step>)
    requires Initial(s) && Runs(s, before + after) && FirstDecision(before, f) == Some(false)
    ensures f !in Final(s, before + after).requests.Values
    ensures !DriverEnabled(Final(s, before + after), Begin(f))
  {
    TracedFromStart(s, before + after);
    FirstDecisionStands(before, after, f);
  }
}

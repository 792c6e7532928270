/**
 * What the operations of the trace server record (open-muse/server/trace.ts): the
 * fields of turns and steps after each of them, and when a turn is recorded at all.
 */
module TraceSteps {
  import opened Common
  import opened TraceModel
  import opened TraceServer
  import opened TraceReplica

  // ---------------------------------------------------------------- lists of steps

  lemma {:induction false} GetPutStep(steps: seq<Step>, id: nat, step: Step, other: nat)
    requires step.id == id
    ensures GetStep(PutStep(steps, id, step), other)
         == if other == id && GetStep(steps, id).Some? then Some(step) else GetStep(steps, other)
  {
    if steps != [] && steps[0].id != id {
      GetPutStep(steps[1..], id, step, other);
    }
  }

  lemma {:induction false} GetAppendStep(steps: seq<Step>, step: Step, other: nat)
    ensures GetStep(steps + [step], other) ==
              if GetStep(steps, other).Some? then GetStep(steps, other) else if step.id == other then Some(step)
                  else None
  {
    if steps == [] {
      assert steps + [step] == [step];
    } else {
      GetAppendStep(steps[1..], step, other);
      assert (steps + [step])[1..] == steps[1..] + [step];
    }
  }

  // ---------------------------------------------------------------- one step

  /** The fields that no change of a step touches. */
  ghost predicate SameStep(a: Step, b: Step) {
    b.id == a.id && b.turnId == a.turnId && b.kind == a.kind && b.text == a.text && b.startedAt == a.startedAt
  }

  /**
   * Completing a step makes it completed now, with the output if there is one;
   * failing it makes it failed now, with the error; cancelling it, cancelled now;
   * new input changes only the input. Every change counts as a revision.
   */
  ghost predicate Reflects(a: Step, change: StepChange, b: Step) {
    && SameStep(a, b) && b.revision == a.revision + 1
    && match change
       case SetInput(input) =>
         && b.input == Some(input)
         && b.state == a.state && b.completedAt == a.completedAt && b.output == a.output && b.error == a.error
       case CompleteStep(at, output) =>
         && b.state == StepCompleted && b.completedAt == Some(at)
         && (output.Some? ==> b.output == output) && (output.None? ==> b.output == a.output)
         && b.input == a.input && b.error == a.error
       case FailStep(at, error) =>
         && b.state == StepFailed && b.completedAt == Some(at) && b.error == Some(error)
         && b.input == a.input && b.output == a.output
       case CancelStep(at) =>
         && b.state == StepCancelled && b.completedAt == Some(at)
         && b.input == a.input && b.output == a.output && b.error == a.error
  }

  lemma ChangedReflects(step: Step, change: StepChange)
    ensures Reflects(step, change, Changed(step, change))
  {
  }

  /** The turn is live and recorded, and it has this step. */
  ghost predicate HasStep(s: Server, id: nat, stepId: nat) {
    id !in s.disabled && Get(s.turns, id).Some? && GetStep(Get(s.turns, id).value.steps, stepId).Some?
  }

  /** The fields of a turn that belong to the turn and not to its steps. */
  ghost predicate SameTurn(a: Turn, b: Turn) {
    && b.turnId == a.turnId && b.userMessageId == a.userMessageId && b.state == a.state && b.startedAt == a.startedAt
    && b.completedAt == a.completedAt && b.activeStartedAt == a.activeStartedAt
    && b.accumulatedActiveMs == a.accumulatedActiveMs
  }

  /**
   * An update of a step does to it what was asked, and nothing to any other step or
   * turn; it is published, unless it exceeds the budget: then the turn is disabled.
   */
  lemma StepUpdated(cfg: Config, s: Server, id: nat, stepId: nat, change: StepChange, at: int)
    requires ServerOk(s) && HasStep(s, id, stepId)
    ensures var out := Do(cfg, s, UpdateStep(id, stepId, change, at));
      var a, b := Get(s.turns, id).value, Get(out.server.turns, id);
      && b.Some? && SameTurn(a, b.value)
      && var old_, new_ := GetStep(a.steps, stepId).value, GetStep(b.value.steps, stepId);
      && new_.Some? && Reflects(old_, change, new_.value)
      && (forall k: nat :: k != stepId && k <= s.stepCursor ==> GetStep(b.value.steps, k) == GetStep(a.steps, k))
      && (forall x: nat :: x != id ==> Get(out.server.turns, x) == Get(s.turns, x))
      && (id in out.server.disabled <==>
            s.canonicalBytes + cfg.stepBytes(new_.value) - cfg.stepBytes(old_) > cfg.maxCanonicalBytes)
      && (id !in out.server.disabled ==>
            out.bodies == [StepUpsert(id, b.value.revision, new_.value)] && b.value.revision == a.revision + 1
            && |b.value.steps| == |a.steps| && out.server.stepCount == s.stepCount
            && out.server.canonicalBytes == s.canonicalBytes + cfg.stepBytes(new_.value) - cfg.stepBytes(old_))
  {
    hide Changed;
    hide Disable;
    hide StepIdsBelow;
    var turn := Get(s.turns, id).value;
    var step := GetStep(turn.steps, stepId).value;
    var next := Changed(step, change);
    ChangedReflects(step, change);
    ChangedId(step, change);
    GetIs(s.turns, id);
    FoundStep(turn.steps, stepId);
    var changed := turn.(steps := PutStep(turn.steps, stepId, next), revision := turn.revision + 1);
    StepReplaced(turn.steps, stepId, next);
    TurnReplaced(s.turns, id, changed);
    hide PutStep;
    hide Put;
    hide Reflects;
    var t := s.(turns := Put(s.turns, id, changed),
                canonicalBytes := s.canonicalBytes + cfg.stepBytes(next) - cfg.stepBytes(step));
    if t.canonicalBytes > cfg.maxCanonicalBytes {
      assert GetStep(changed.steps, stepId).Some?;
      StepIdWithin(s, id, stepId);
      DisabledTurn(t, id, "Additional run details were omitted.", at);
    }
  }

  lemma {:induction false} FoundStep(steps: seq<Step>, id: nat)
    requires GetStep(steps, id).Some?
    ensures GetStep(steps, id).value.id == id
  {
    if steps[0].id != id {
      FoundStep(steps[1..], id);
    }
  }

  lemma {:induction false} PutStepSize(steps: seq<Step>, id: nat, step: Step)
    ensures |PutStep(steps, id, step)| == |steps|
  {
    if steps != [] && steps[0].id != id {
      PutStepSize(steps[1..], id, step);
    }
  }

  lemma StepReplaced(steps: seq<Step>, id: nat, step: Step)
    requires step.id == id && GetStep(steps, id).Some?
    ensures var p := PutStep(steps, id, step);
      && GetStep(p, id) == Some(step) && |p| == |steps|
      && forall k: nat :: k != id ==> GetStep(p, k) == GetStep(steps, k)
  {
    PutStepSize(steps, id, step);
    forall k: nat ensures GetStep(PutStep(steps, id, step), k) == if k == id then Some(step) else GetStep(steps, k) {
      GetPutStep(steps, id, step, k);
    }
  }

  lemma TurnReplaced(turns: seq<Turn>, id: nat, turn: Turn)
    requires turn.turnId == id && Get(turns, id).Some?
    ensures var p := Put(turns, id, turn);
      Get(p, id) == Some(turn) && forall x: nat :: x != id ==> Get(p, x) == Get(turns, x)
  {
    forall x: nat ensures Get(Put(turns, id, turn), x) == if x == id then Some(turn) else Get(turns, x) {
      GetPut(turns, id, turn, x);
    }
  }

  lemma StepIdWithin(s: Server, id: nat, stepId: nat)
    requires ServerOk(s) && HasStep(s, id, stepId)
    ensures stepId <= s.stepCursor
  {
    GetStepIs(Get(s.turns, id).value.steps, stepId, s.stepCursor);
  }

  // ---------------------------------------------------------------- turns that are no longer recorded

  /** A turn that is disabled gets one last step, which says why; nothing else changes. */
  lemma DisabledTurn(s: Server, id: nat, text: string, at: int)
    requires id !in s.disabled && Get(s.turns, id).Some?
    ensures var out := Disable(s, id, text, at);
      var a, b := Get(s.turns, id).value, Get(out.server.turns, id);
      && out.server.disabled == s.disabled + {id} && b.Some? && SameTurn(a, b.value)
      && |b.value.steps| == |a.steps| + 1 && b.value.steps[..|a.steps|] == a.steps
      && var last := b.value.steps[|a.steps|];
      && last.kind == SystemStep && last.text == text && last.state == StepCompleted
      && last.completedAt == Some(at) && last.startedAt == at && last.id == s.stepCursor + 1
      && (forall k: nat :: k <= s.stepCursor ==> GetStep(b.value.steps, k) == GetStep(a.steps, k))
      && (forall x: nat :: x != id ==> Get(out.server.turns, x) == Get(s.turns, x))
  {
    var turn := Get(s.turns, id).value;
    GetIs(s.turns, id);
    var step := Step(s.stepCursor + 1, id, 1, SystemStep, text, StepCompleted, at, Some(at), None, None, None);
    var changed := turn.(steps := turn.steps + [step], revision := turn.revision + 1);
    TurnReplaced(s.turns, id, changed);
    hide Put;
    hide Get;
    forall k: nat | k <= s.stepCursor ensures GetStep(changed.steps, k) == GetStep(turn.steps, k) {
      GetAppendStep(turn.steps, step, k);
    }
  }

  /** Operations on a disabled turn do nothing at all. */
  lemma DisabledIsFrozen(cfg: Config, s: Server, op: Op)
    requires op.turnId in s.disabled
    ensures Do(cfg, s, op) == Out(s, [])
  {
  }

  // ---------------------------------------------------------------- room

  /** Nothing is evicted while the bytes fit. */
  lemma NothingEvicted(cfg: Config, s: Server, required: nat)
    requires s.canonicalBytes + required <= cfg.maxCanonicalBytes
    ensures EvictFinished(cfg, s, required) == Out(s, [])
  {
  }

  predicate IsOver(t: Turn) {
    t.state in {Completed, Failed, Cancelled, Interrupted}
  }

  /** The turn evicted first is the first of the finished ones. */
  lemma {:induction false} FirstIsOldest(turns: seq<Turn>)
    ensures FirstFinished(turns).None? <==> forall i :: 0 <= i < |turns| ==> !IsOver(turns[i])
    ensures FirstFinished(turns).Some? ==>
      exists i :: 0 <= i < |turns| && turns[i] == FirstFinished(turns).value && IsOver(turns[i])
                  && forall k :: 0 <= k < i ==> !IsOver(turns[k])
  {
    if turns != [] {
      var rest := turns[1..];
      FirstIsOldest(rest);
      assert IsOver(turns[0]) <==> TraceServer.Finished(turns[0].state);
      hide IsOver;
      if !IsOver(turns[0]) {
        assert forall i :: 0 < i < |turns| ==> turns[i] == rest[i - 1];
        if FirstFinished(rest).Some? {
          var i :| 0 <= i < |rest| && rest[i] == FirstFinished(rest).value && IsOver(rest[i])
                   && forall k :: 0 <= k < i ==> !IsOver(rest[k]);
          assert turns[i + 1] == FirstFinished(turns).value;
        }
      }
    }
  }

  /** Eviction goes on until the bytes fit or no finished turn is left. */
  lemma {:induction false} EvictionStops(cfg: Config, s: Server, required: nat)
    ensures var t := EvictFinished(cfg, s, required).server;
      t.canonicalBytes + required <= cfg.maxCanonicalBytes || FirstFinished(t.turns).None?
    decreases |s.turns|
  {
    hide Bury;
    if s.canonicalBytes + required > cfg.maxCanonicalBytes && FirstFinished(s.turns).Some? {
      RemoveShrinks(s.turns, FirstFinished(s.turns).value);
      EvictionStops(cfg, EvictOne(cfg, s, FirstFinished(s.turns).value), required);
    }
  }

  /** What eviction leaves of a turn: all of it or nothing. */
  lemma {:induction false} KeptOrGone(cfg: Config, s: Server, required: nat, id: nat)
    ensures var t := EvictFinished(cfg, s, required).server;
      && (Get(t.turns, id) == Get(s.turns, id) || Get(t.turns, id).None?)
      && t.disabled == s.disabled && t.stepCursor == s.stepCursor
    decreases |s.turns|
  {
    hide Bury;
    if s.canonicalBytes + required > cfg.maxCanonicalBytes && FirstFinished(s.turns).Some? {
      var oldest := FirstFinished(s.turns).value;
      RemoveShrinks(s.turns, oldest);
      GetRemove(s.turns, oldest.turnId, id);
      KeptOrGone(cfg, EvictOne(cfg, s, oldest), required, id);
    }
  }

  /**
   * What an eviction leaves of the oldest finished turn, in the server's list and in
   * every client that shows it: an expired turn without steps. The list keeps the
   * newest hundred.
   */
  lemma EvictedTurn(cfg: Config, s: Server, oldest: Turn, clients: seq<Turn>)
    requires Get(s.expired, oldest.turnId).None?
    ensures var t := EvictOne(cfg, s, oldest);
      && |t.expired| <= 100 && |t.expired| > 0 && IsTombstone(oldest, t.expired[|t.expired| - 1])
      && (|s.expired| < 100 ==> t.expired[..|s.expired|] == s.expired)
      && Get(t.turns, oldest.turnId).None?
      && (s.canonicalBytes >= cfg.turnBytes(oldest) ==> t.canonicalBytes == s.canonicalBytes - cfg.turnBytes(oldest))
      && (s.stepCount >= |oldest.steps| ==> t.stepCount == s.stepCount - |oldest.steps|)
    ensures Get(clients, oldest.turnId).Some? ==>
      var shown := Get(ApplyBody(clients, TurnEvict(oldest.turnId)), oldest.turnId);
      shown.Some? && IsTombstone(Get(clients, oldest.turnId).value, shown.value)
  {
    GetExpireAll(clients, oldest.turnId, oldest.turnId);
    GetRemove(s.turns, oldest.turnId, oldest.turnId);
  }

  ghost predicate IsTombstone(a: Turn, b: Turn) {
    && b.state == Expired && b.steps == [] && b.activeStartedAt.None? && b.revision == a.revision + 1
    && b.turnId == a.turnId && b.userMessageId == a.userMessageId && b.startedAt == a.startedAt
    && b.completedAt == a.completedAt && b.accumulatedActiveMs == a.accumulatedActiveMs
  }

  // ---------------------------------------------------------------- starting

  /** The step that starting one records. */
  function NewStep(s: Server, id: nat, kind: StepKind, text: string, at: int, input: Option<string>): Step {
    Step(s.stepCursor + 1, id, 1, kind, text, StepRunning, at, None, input, None, None)
  }

  /**
   * A step that is started is recorded as a running step with the given kind, text
   * and input, behind the steps there are, under a new number, and published.
   */
  lemma StepStarted(cfg: Config, s: Server, id: nat, kind: StepKind, text: string, at: int, input: Option<string>)
    requires ServerOk(s) && id !in s.disabled && Get(s.turns, id).Some?
    requires var t := Do(cfg, s, StartStep(id, kind, text, at, input)).server;
      id !in t.disabled && Get(t.turns, id).Some?
    ensures var out := Do(cfg, s, StartStep(id, kind, text, at, input));
      var a, b := Get(s.turns, id).value, Get(out.server.turns, id).value;
      && SameTurn(a, b) && b.revision == a.revision + 1
      && |b.steps| == |a.steps| + 1 && b.steps[..|a.steps|] == a.steps
      && var last := b.steps[|a.steps|];
      && last.id == s.stepCursor + 1 && last.turnId == id && last.revision == 1 && last.kind == kind
      && last.text == text && last.state == StepRunning && last.startedAt == at && last.completedAt.None?
      && last.input == input && last.output.None? && last.error.None?
      && out.bodies != [] && out.bodies[|out.bodies| - 1] == StepUpsert(id, b.revision, last)
  {
    hide EvictFinished;
    hide Disable;
    var turn := Get(s.turns, id).value;
    var step := NewStep(s, id, kind, text, at, input);
    GetIs(s.turns, id);
    var start := s.(stepCursor := s.stepCursor + 1);
    var room := Reserve(cfg, start, cfg.stepBytes(step));
    KeptOrGone(cfg, start, cfg.stepBytes(step), id);
    DisableEnters(room.0.server, id, "Additional run details were omitted.", at);
    DisableEnters(s, id, "Additional run details were omitted.", at);
    var changed := turn.(steps := turn.steps + [step], revision := turn.revision + 1);
    GetPut(room.0.server.turns, id, changed, id);
  }

  lemma DisableEnters(s: Server, id: nat, text: string, at: int)
    ensures id in Disable(s, id, text, at).server.disabled
  {
  }

  /** As long as there is room, a step is recorded, and nothing is evicted for it. */
  lemma StepFits(cfg: Config, s: Server, id: nat, kind: StepKind, text: string, at: int, input: Option<string>)
    requires id !in s.disabled && Get(s.turns, id).Some? && s.stepCount < cfg.maxSteps
    requires s.canonicalBytes + cfg.stepBytes(NewStep(s, id, kind, text, at, input)) <= cfg.maxCanonicalBytes
    ensures var out := Do(cfg, s, StartStep(id, kind, text, at, input));
      && out.server.disabled == s.disabled && Get(out.server.turns, id).Some? && out.server.expired == s.expired
      && |out.bodies| == 1 && (forall x: nat :: x != id ==> Get(out.server.turns, x) == Get(s.turns, x))
      && out.server.stepCount == s.stepCount + 1
      && out.server.canonicalBytes == s.canonicalBytes + cfg.stepBytes(NewStep(s, id, kind, text, at, input))
  {
    var turn := Get(s.turns, id).value;
    var step := NewStep(s, id, kind, text, at, input);
    GetIs(s.turns, id);
    NothingEvicted(cfg, s.(stepCursor := s.stepCursor + 1), cfg.stepBytes(step));
    hide EvictFinished;
    TurnReplaced(s.turns, id, turn.(steps := turn.steps + [step], revision := turn.revision + 1));
  }

  /** A step goes unrecorded, and its turn is disabled, only for lack of steps or of bytes. */
  lemma StepRefused(cfg: Config, s: Server, id: nat, kind: StepKind, text: string, at: int, input: Option<string>)
    requires id !in s.disabled && Get(s.turns, id).Some?
    requires id in Do(cfg, s, StartStep(id, kind, text, at, input)).server.disabled
    ensures var required := cfg.stepBytes(NewStep(s, id, kind, text, at, input));
      var t := EvictFinished(cfg, s.(stepCursor := s.stepCursor + 1), required).server;
      s.stepCount >= cfg.maxSteps
      || (FirstFinished(t.turns).None? && t.canonicalBytes + required > cfg.maxCanonicalBytes)
  {
    hide EvictFinished;
    hide Disable;
    var required := cfg.stepBytes(NewStep(s, id, kind, text, at, input));
    EvictionStops(cfg, s.(stepCursor := s.stepCursor + 1), required);
    KeptOrGone(cfg, s.(stepCursor := s.stepCursor + 1), required, id);
  }

  /** The turn that starting one records: running since now, with nothing booked and no steps. */
  function NewTurn(id: nat, userMessageId: nat, at: int): Turn {
    Turn(id, userMessageId, 1, Running, at, None, Some(at), 0, [])
  }

  /**
   * A new turn is recorded and published unless its bytes do not fit even without
   * any finished turn; as long as they fit, nothing is evicted for it.
   */
  lemma TurnStarted(cfg: Config, s: Server, id: nat, userMessageId: nat, at: int)
    requires id !in s.disabled && Get(s.turns, id).None?
    ensures var out := Do(cfg, s, StartTurn(id, userMessageId, at));
      var turn := NewTurn(id, userMessageId, at);
      var t := EvictFinished(cfg, s, cfg.turnBytes(turn)).server;
      && (id in out.server.disabled <==> t.canonicalBytes + cfg.turnBytes(turn) > cfg.maxCanonicalBytes)
      && (id in out.server.disabled ==> FirstFinished(t.turns).None? && Get(out.server.turns, id).None?)
      && (id !in out.server.disabled ==>
            Get(out.server.turns, id) == Some(turn) && out.bodies != []
                && out.bodies[|out.bodies| - 1] == TurnUpsert(turn))
      && (s.canonicalBytes + cfg.turnBytes(turn) <= cfg.maxCanonicalBytes ==>
            id !in out.server.disabled && out.server.turns == s.turns + [turn] && out.server.expired == s.expired
            && out.server.canonicalBytes == s.canonicalBytes + cfg.turnBytes(turn))
  {
    var turn := NewTurn(id, userMessageId, at);
    if s.canonicalBytes + cfg.turnBytes(turn) <= cfg.maxCanonicalBytes {
      NothingEvicted(cfg, s, cfg.turnBytes(turn));
    }
    EvictionStops(cfg, s, cfg.turnBytes(turn));
    KeptOrGone(cfg, s, cfg.turnBytes(turn), id);
    hide EvictFinished;
    GetAppend(EvictFinished(cfg, s, cfg.turnBytes(turn)).server.turns, turn, id);
  }

  /** A change of state is recorded with its time, which is the completion time if the turn is over; the steps stay. */
  lemma TurnStateSet(cfg: Config, s: Server, id: nat, state: TurnState, at: int)
    requires id !in s.disabled && Get(s.turns, id).Some? && Get(s.turns, id).value.state != state
    ensures var out := Do(cfg, s, SetTurnState(id, state, at));
      var a, b := Get(s.turns, id).value, Get(out.server.turns, id);
      && b.Some? && b.value.state == state && b.value.revision == a.revision + 1 && b.value.steps == a.steps
      && b.value.turnId == a.turnId && b.value.userMessageId == a.userMessageId && b.value.startedAt == a.startedAt
      && b.value.completedAt == (if state in {Completed, Failed, Cancelled, Interrupted} then Some(at) else None)
      && b.value.activeStartedAt == (if state == Running then Some(at) else None)
      && out.bodies == [TurnUpsert(b.value)] && out.server.disabled == s.disabled
      && out.server.canonicalBytes == s.canonicalBytes + cfg.turnBytes(b.value) - cfg.turnBytes(a)
      && forall x: nat :: x != id ==> Get(out.server.turns, x) == Get(s.turns, x)
  {
    GetIs(s.turns, id);
    TurnReplaced(s.turns, id, WithState(Get(s.turns, id).value, state, at));
  }

  // ---------------------------------------------------------------- cancelling

  /** Step numbers grow, up to the last one given out. */
  ghost predicate Increasing(steps: seq<Step>, cursor: nat) {
    && (forall i :: 0 <= i < |steps| ==> steps[i].id <= cursor)
    && (forall i, j :: 0 <= i < j < |steps| ==> steps[i].id < steps[j].id)
  }

  ghost predicate Numbered(s: Server) {
    forall id: nat :: Get(s.turns, id).Some? ==> Increasing(Get(s.turns, id).value.steps, s.stepCursor)
  }

  lemma {:induction false} EachFound(steps: seq<Step>, i: nat, cursor: nat)
    requires Increasing(steps, cursor) && i < |steps|
    ensures GetStep(steps, steps[i].id) == Some(steps[i])
  {
    if i > 0 {
      EachFound(steps[1..], i - 1, cursor);
    }
  }

  /** Among `steps`, step `k` is there and running. */
  ghost predicate RunsIn(steps: seq<Step>, k: nat) {
    exists i :: 0 <= i < |steps| && steps[i].id == k && steps[i].state == StepRunning
  }

  /** What the walk over `steps` has done to step `k` of the turn. */
  ghost predicate CancelledOf(a: Turn, b: Turn, steps: seq<Step>, k: nat, at: int) {
    if RunsIn(steps, k) then
      && GetStep(a.steps, k).Some? && GetStep(b.steps, k).Some?
      && Reflects(GetStep(a.steps, k).value, CancelStep(at), GetStep(b.steps, k).value)
    else GetStep(b.steps, k) == GetStep(a.steps, k)
  }

  lemma {:induction false} CancelWalk(cfg: Config, s: Server, id: nat, steps: seq<Step>, at: int)
    requires ServerOk(s) && id !in s.disabled && Get(s.turns, id).Some? && Increasing(steps, s.stepCursor)
    requires forall i :: 0 <= i < |steps| ==> GetStep(Get(s.turns, id).value.steps, steps[i].id) == Some(steps[i])
    requires id !in CancelSteps(cfg, s, id, steps, at).server.disabled
    ensures var t := CancelSteps(cfg, s, id, steps, at).server;
      && Get(t.turns, id).Some? && SameTurn(Get(s.turns, id).value, Get(t.turns, id).value)
      && |Get(t.turns, id).value.steps| == |Get(s.turns, id).value.steps|
      && forall k: nat :: k <= s.stepCursor ==>
           CancelledOf(Get(s.turns, id).value, Get(t.turns, id).value, steps, k, at)
    decreases |steps|
  {
    hide DoUpdateStep;
    hide ServerOk;
    hide Get;
    hide GetStep;
    hide Reflects;
    if steps == [] {
    } else if steps[0].state != StepRunning {
      CancelWalk(cfg, s, id, steps[1..], at);
      var a, b := Get(s.turns, id).value, Get(CancelSteps(cfg, s, id, steps, at).server.turns, id).value;
      forall k: nat | k <= s.stepCursor ensures CancelledOf(a, b, steps, k, at) {
        RunsInTail(steps, k);
        assert CancelledOf(a, b, steps[1..], k, at);
      }
    } else {
      var first := DoUpdateStep(cfg, s, id, steps[0].id, CancelStep(at), at);
      assert HasStep(s, id, steps[0].id);
      DoIsUpdate(cfg, s, id, steps[0].id, CancelStep(at), at);
      StepUpdated(cfg, s, id, steps[0].id, CancelStep(at), at);
      UpdateStaysOk(cfg, s, id, steps[0].id, CancelStep(at), at);
      CancelDisabled(cfg, first.server, id, steps[1..], at);
      CancelWalk(cfg, first.server, id, steps[1..], at);
      CancelOneMore(Get(s.turns, id).value, Get(first.server.turns, id).value,
                    Get(CancelSteps(cfg, s, id, steps, at).server.turns, id).value, steps, s.stepCursor, at);
    }
  }

  lemma RunsInTail(steps: seq<Step>, k: nat)
    requires steps != []
    ensures RunsIn(steps, k) <==> RunsIn(steps[1..], k) || (steps[0].id == k && steps[0].state == StepRunning)
  {
    if RunsIn(steps, k) {
      var i :| 0 <= i < |steps| && steps[i].id == k && steps[i].state == StepRunning;
      assert i > 0 ==> steps[1..][i - 1] == steps[i];
    }
    if RunsIn(steps[1..], k) {
      var i :| 0 <= i < |steps[1..]| && steps[1..][i].id == k && steps[1..][i].state == StepRunning;
      assert steps[i + 1] == steps[1..][i];
    }
  }

  lemma DoIsUpdate(cfg: Config, s: Server, id: nat, stepId: nat, change: StepChange, at: int)
    ensures Do(cfg, s, UpdateStep(id, stepId, change, at)) == DoUpdateStep(cfg, s, id, stepId, change, at)
  {
  }

  lemma UpdateStaysOk(cfg: Config, s: Server, id: nat, stepId: nat, change: StepChange, at: int)
    requires ServerOk(s)
    ensures var t := DoUpdateStep(cfg, s, id, stepId, change, at).server; ServerOk(t) && t.stepCursor >= s.stepCursor
  {
    DoIsUpdate(cfg, s, id, stepId, change, at);
    StaysOk(cfg, s, UpdateStep(id, stepId, change, at));
    hide ServerOk;
    hide Changed;
  }

  /** Once a turn is disabled the walk changes nothing, so a turn recorded in the end was recorded all along. */
  lemma {:induction false} CancelDisabled(cfg: Config, s: Server, id: nat, steps: seq<Step>, at: int)
    ensures id in s.disabled ==> id in CancelSteps(cfg, s, id, steps, at).server.disabled
    decreases |steps|
  {
    if id in s.disabled && steps != [] {
      CancelDisabled(cfg, s, id, steps[1..], at);
    }
  }

  lemma CancelOneMore(a: Turn, m: Turn, b: Turn, steps: seq<Step>, cursor: nat, at: int)
    requires steps != [] && Increasing(steps, cursor) && steps[0].state == StepRunning
    requires GetStep(a.steps, steps[0].id).Some? && GetStep(m.steps, steps[0].id).Some?
    requires Reflects(GetStep(a.steps, steps[0].id).value, CancelStep(at), GetStep(m.steps, steps[0].id).value)
    requires forall k: nat :: k != steps[0].id && k <= cursor ==> GetStep(m.steps, k) == GetStep(a.steps, k)
    requires forall k: nat :: k <= cursor ==> CancelledOf(m, b, steps[1..], k, at)
    ensures forall k: nat :: k <= cursor ==> CancelledOf(a, b, steps, k, at)
  {
    hide GetStep;
    hide Reflects;
    forall k: nat | k <= cursor ensures CancelledOf(a, b, steps, k, at) {
      RunsInTail(steps, k);
      if k == steps[0].id {
        assert !RunsIn(steps[1..], k);
      }
      hide RunsIn;
      assert CancelledOf(m, b, steps[1..], k, at);
    }
  }

  /** A running step has been cancelled, any other is as it was. */
  ghost predicate CancelledOrKept(x: Step, b: seq<Step>, at: int) {
    var y := GetStep(b, x.id);
    y.Some? && if x.state == StepRunning then Reflects(x, CancelStep(at), y.value) else y.value == x
  }

  /**
   * Cancelling the running steps of a turn, within budget, leaves none running:
   * those that ran are cancelled at the given time, and all others are as they were.
   */
  lemma RunningCancelled(cfg: Config, s: Server, id: nat, at: int)
    requires ServerOk(s) && Numbered(s) && id !in s.disabled && Get(s.turns, id).Some?
    requires id !in Do(cfg, s, CancelRunning(id, at)).server.disabled
    ensures var t := Do(cfg, s, CancelRunning(id, at)).server;
      && Get(t.turns, id).Some? && SameTurn(Get(s.turns, id).value, Get(t.turns, id).value)
      && var a, b := Get(s.turns, id).value.steps, Get(t.turns, id).value.steps;
      && (forall i :: 0 <= i < |b| ==> b[i].state != StepRunning)
      && (forall i :: 0 <= i < |a| ==> CancelledOrKept(a[i], b, at))
  {
    hide CancelSteps;
    hide Reflects;
    var turn := Get(s.turns, id).value;
    forall i | 0 <= i < |turn.steps| ensures GetStep(turn.steps, turn.steps[i].id) == Some(turn.steps[i]) {
      EachFound(turn.steps, i, s.stepCursor);
    }
    CancelWalk(cfg, s, id, turn.steps, at);
    CancelNumbered(cfg, s, id, turn.steps, at);
    var t := Do(cfg, s, CancelRunning(id, at)).server;
    NoneRuns(turn, Get(t.turns, id).value, s.stepCursor, t.stepCursor, at);
  }

  lemma NoneRuns(a: Turn, b: Turn, cursor: nat, later: nat, at: int)
    requires Increasing(a.steps, cursor) && Increasing(b.steps, later) && |a.steps| == |b.steps| && cursor == later
    requires forall k: nat :: k <= cursor ==> CancelledOf(a, b, a.steps, k, at)
    requires forall i :: 0 <= i < |a.steps| ==> GetStep(a.steps, a.steps[i].id) == Some(a.steps[i])
    ensures forall i :: 0 <= i < |b.steps| ==> b.steps[i].state != StepRunning
    ensures forall i :: 0 <= i < |a.steps| ==> CancelledOrKept(a.steps[i], b.steps, at)
  {
    forall i | 0 <= i < |b.steps| ensures b.steps[i].state != StepRunning {
      EachFound(b.steps, i, later);
      var k := b.steps[i].id;
      assert CancelledOf(a, b, a.steps, k, at);
      if !RunsIn(a.steps, k) && b.steps[i].state == StepRunning {
        FoundIsMember(a.steps, k);
      }
    }
    forall i | 0 <= i < |a.steps| ensures CancelledOrKept(a.steps[i], b.steps, at) {
      assert CancelledOf(a, b, a.steps, a.steps[i].id, at);
    }
  }

  lemma {:induction false} FoundIsMember(steps: seq<Step>, k: nat)
    requires GetStep(steps, k).Some?
    ensures exists i :: 0 <= i < |steps| && steps[i] == GetStep(steps, k).value && steps[i].id == k
  {
    if steps[0].id != k {
      FoundIsMember(steps[1..], k);
      var i :| 0 <= i < |steps[1..]| && steps[1..][i] == GetStep(steps, k).value && steps[1..][i].id == k;
      assert steps[i + 1] == steps[1..][i];
    }
  }

  // ---------------------------------------------------------------- step numbers

  lemma {:induction false} PutIncreasing(steps: seq<Step>, id: nat, step: Step, cursor: nat)
    requires Increasing(steps, cursor) && step.id == id
    ensures Increasing(PutStep(steps, id, step), cursor) && |PutStep(steps, id, step)| == |steps|
    ensures forall i :: 0 <= i < |steps| ==> PutStep(steps, id, step)[i].id == steps[i].id
  {
    if steps != [] && steps[0].id != id {
      PutIncreasing(steps[1..], id, step, cursor);
      var p := PutStep(steps, id, step);
      assert forall i :: 0 < i < |steps| ==>
        p[i] == PutStep(steps[1..], id, step)[i - 1] && steps[i] == steps[1..][i - 1];
    }
  }

  lemma PutNumbered(s: Server, t: Server, id: nat, turn: Turn)
    requires Numbered(s) && turn.turnId == id && t.turns == Put(s.turns, id, turn) && t.stepCursor >= s.stepCursor
    requires Get(s.turns, id).Some? ==> Increasing(turn.steps, t.stepCursor)
    ensures Numbered(t)
  {
    hide Put;
    forall x: nat | Get(t.turns, x).Some? ensures Increasing(Get(t.turns, x).value.steps, t.stepCursor) {
      GetPut(s.turns, id, turn, x);
    }
  }

  lemma UpdateNumbered(cfg: Config, s: Server, id: nat, stepId: nat, change: StepChange, at: int)
    requires Numbered(s)
    ensures var t := DoUpdateStep(cfg, s, id, stepId, change, at).server;
      Numbered(t) && (id !in t.disabled ==> t.stepCursor == s.stepCursor)
  {
    hide Changed;
    hide Disable;
    if HasStep(s, id, stepId) {
      var turn := Get(s.turns, id).value;
      var step := GetStep(turn.steps, stepId).value;
      var next := Changed(step, change);
      GetIs(s.turns, id);
      FoundStep(turn.steps, stepId);
      ChangedId(step, change);
      PutIncreasing(turn.steps, stepId, next, s.stepCursor);
      var changed := turn.(steps := PutStep(turn.steps, stepId, next), revision := turn.revision + 1);
      var t := s.(turns := Put(s.turns, id, changed),
                  canonicalBytes := s.canonicalBytes + cfg.stepBytes(next) - cfg.stepBytes(step));
      PutNumbered(s, t, id, changed);
      DisableNumbered(t, id, "Additional run details were omitted.", at);
      DisableEnters(t, id, "Additional run details were omitted.", at);
    }
  }

  lemma DisableNumbered(s: Server, id: nat, text: string, at: int)
    requires Numbered(s)
    ensures Numbered(Disable(s, id, text, at).server)
  {
    if id !in s.disabled && Get(s.turns, id).Some? {
      var t := Disable(s, id, text, at).server;
      var turn := Get(s.turns, id).value;
      GetIs(s.turns, id);
      var step := Step(s.stepCursor + 1, id, 1, SystemStep, text, StepCompleted, at, Some(at), None, None, None);
      PutNumbered(s, t, id, turn.(steps := turn.steps + [step], revision := turn.revision + 1));
    }
  }

  lemma {:induction false} CancelNumbered(cfg: Config, s: Server, id: nat, steps: seq<Step>, at: int)
    requires Numbered(s)
    ensures var t := CancelSteps(cfg, s, id, steps, at).server;
      Numbered(t) && (id !in t.disabled ==> t.stepCursor == s.stepCursor)
    decreases |steps|
  {
    hide DoUpdateStep;
    hide Numbered;
    if steps == [] {
    } else if steps[0].state != StepRunning {
      CancelNumbered(cfg, s, id, steps[1..], at);
    } else {
      var first := DoUpdateStep(cfg, s, id, steps[0].id, CancelStep(at), at);
      UpdateNumbered(cfg, s, id, steps[0].id, CancelStep(at), at);
      CancelDisabled(cfg, first.server, id, steps[1..], at);
      CancelNumbered(cfg, first.server, id, steps[1..], at);
    }
  }

  lemma RoomNumbered(cfg: Config, s: Server, required: nat)
    requires Numbered(s)
    ensures Numbered(EvictFinished(cfg, s, required).server)
    ensures EvictFinished(cfg, s, required).server.stepCursor == s.stepCursor
  {
    hide EvictFinished;
    var t := EvictFinished(cfg, s, required).server;
    KeptOrGone(cfg, s, required, 0);
    forall x: nat | Get(t.turns, x).Some? ensures Increasing(Get(t.turns, x).value.steps, t.stepCursor) {
      KeptOrGone(cfg, s, required, x);
    }
  }

  /** Every operation keeps the numbers of the steps growing. */
  lemma DoNumbered(cfg: Config, s: Server, op: Op)
    requires Numbered(s)
    ensures Numbered(Do(cfg, s, op).server)
  {
    match op
    case StartTurn(id, userMessageId, at) => StartTurnNumbered(cfg, s, id, userMessageId, at);
    case SetTurnState(id, state, at) =>
      GetIs(s.turns, id);
      if Get(s.turns, id).Some? {
        var changed := WithState(Get(s.turns, id).value, state, at);
        PutNumbered(s, s.(turns := Put(s.turns, id, changed)), id, changed);
      }
    case StartStep(id, kind, text, at, input) => StartStepNumbered(cfg, s, id, kind, text, at, input);
    case UpdateStep(id, stepId, change, at) => UpdateNumbered(cfg, s, id, stepId, change, at);
    case CancelRunning(id, at) =>
      if Get(s.turns, id).Some? {
        CancelNumbered(cfg, s, id, Get(s.turns, id).value.steps, at);
      }
  }

  lemma StartTurnNumbered(cfg: Config, s: Server, id: nat, userMessageId: nat, at: int)
    requires Numbered(s)
    ensures Numbered(DoStartTurn(cfg, s, id, userMessageId, at).server)
  {
    hide EvictFinished;
    hide Disable;
    var turn := NewTurn(id, userMessageId, at);
    var required := cfg.turnBytes(turn);
    RoomNumbered(cfg, s, required);
    var room := EvictFinished(cfg, s, required).server;
    DisableNumbered(room, id, "Run details reached their memory limit.", at);
    forall x: nat | Get(room.turns + [turn], x).Some?
      ensures Increasing(Get(room.turns + [turn], x).value.steps, room.stepCursor)
    {
      GetAppend(room.turns, turn, x);
    }
  }

  lemma StartStepNumbered(cfg: Config, s: Server, id: nat, kind: StepKind, text: string, at: int, input: Option<string>)
    requires Numbered(s)
    ensures Numbered(DoStartStep(cfg, s, id, kind, text, at, input).server)
  {
    hide EvictFinished;
    hide Disable;
    DisableNumbered(s, id, "Additional run details were omitted.", at);
    if Get(s.turns, id).Some? {
      var turn := Get(s.turns, id).value;
      var step := NewStep(s, id, kind, text, at, input);
      var start := s.(stepCursor := s.stepCursor + 1);
      var required := cfg.stepBytes(step);
      assert Numbered(start);
      RoomNumbered(cfg, start, required);
      var room := EvictFinished(cfg, start, required).server;
      DisableNumbered(room, id, "Additional run details were omitted.", at);
      GetIs(s.turns, id);
      var booked := room.(canonicalBytes := room.canonicalBytes + required);
      var changed := turn.(steps := turn.steps + [step], revision := turn.revision + 1);
      PutNumbered(booked, booked.(turns := Put(booked.turns, id, changed), stepCount := booked.stepCount + 1), id,
          changed);
    }
  }

  /** So the numbers grow in every run. */
  lemma {:induction false} RunNumbered(cfg: Config, s: Server, ops: seq<Op>)
    requires Numbered(s)
    ensures Numbered(DoAll(cfg, s, ops).server)
    decreases |ops|
  {
    hide Do;
    hide Numbered;
    if ops != [] {
      DoNumbered(cfg, s, ops[0]);
      RunNumbered(cfg, Do(cfg, s, ops[0]).server, ops[1..]);
    }
  }
}

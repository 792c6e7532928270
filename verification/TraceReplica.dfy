/**
 * A client that applies the events of a trace stream converges to the server.
 */
module TraceReplica {
  import opened Common
  import opened TraceModel
  import opened TraceServer

  /** What the server keeps true of itself. */
  ghost predicate ServerOk(s: Server) {
    && (forall id :: Get(s.turns, id).Some? ==>
          id in s.used && StepIdsBelow(Get(s.turns, id).value.steps, s.stepCursor))
    && (forall id :: Get(s.expired, id).Some? ==> id in s.used && Get(s.turns, id).None?)
  }

  ghost predicate StepIdsBelow(steps: seq<Step>, cursor: nat) {
    forall i :: 0 <= i < |steps| ==> steps[i].id <= cursor
  }

  /** The client shows every live turn that is not disabled exactly as the server holds it. */
  ghost predicate Mirrors(c: seq<Turn>, s: Server) {
    forall id :: Get(s.turns, id).Some? && id !in s.disabled ==> Get(c, id) == Get(s.turns, id)
  }

  ghost predicate Linked(c: seq<Turn>, s: Server) {
    && ServerOk(s)
    && Mirrors(c, s)
    && (forall id :: Get(c, id).Some? ==> id in s.used)
  }

  /** A turn id is not started again after its turn was evicted. */
  ghost predicate NoReuse(s: Server, op: Op) {
    op.StartTurn? ==> op.turnId in s.disabled || Get(s.turns, op.turnId).Some? || op.turnId !in s.used
  }

  function ApplyBodies(c: seq<Turn>, bodies: seq<Body>): seq<Turn>
    decreases |bodies|
  {
    if bodies == [] then c else ApplyBodies(ApplyBody(c, bodies[0]), bodies[1..])
  }

  lemma {:induction false} ApplyBodiesConcat(c: seq<Turn>, a: seq<Body>, b: seq<Body>)
    ensures ApplyBodies(c, a + b) == ApplyBodies(ApplyBodies(c, a), b)
    decreases |a|
  {
    hide ApplyBody;
    if a == [] {
      assert a + b == b;
    } else {
      ApplyBodiesConcat(ApplyBody(c, a[0]), a[1..], b);
      assert (a + b)[1..] == a[1..] + b;
    }
  }

  // ---------------------------------------------------------------- eviction

  lemma BuryKeys(expired: seq<Turn>, tombstone: Turn, id: nat)
    requires Get(Bury(expired, tombstone), id).Some?
    ensures id == tombstone.turnId || Get(expired, id).Some?
  {
    var next := if Get(expired, tombstone.turnId).Some? then Put(expired, tombstone.turnId, tombstone)
        else expired + [tombstone];
    GetPut(expired, tombstone.turnId, tombstone, id);
    GetAppend(expired, tombstone, id);
    if |next| > MAX_EXPIRED {
      var k := |next| - MAX_EXPIRED;
      GetConcat(next[..k], next[k..], id);
      assert next[..k] + next[k..] == next;
    }
  }

  lemma EvictOneLinked(cfg: Config, c: seq<Turn>, s: Server, oldest: Turn)
    requires Linked(c, s) && oldest in s.turns
    ensures Linked(ApplyBody(c, TurnEvict(oldest.turnId)), EvictOne(cfg, s, oldest))
  {
    hide Bury;
    var t := EvictOne(cfg, s, oldest);
    GetIs(s.turns, oldest.turnId);
    forall id
      ensures Get(t.turns, id) == if id == oldest.turnId then None else Get(s.turns, id)
      ensures Get(ExpireAll(c, oldest.turnId), id).Some? ==> Get(c, id).Some?
      ensures id != oldest.turnId ==> Get(ExpireAll(c, oldest.turnId), id) == Get(c, id)
      ensures Get(t.expired, id).Some? ==> id == oldest.turnId || Get(s.expired, id).Some?
    {
      GetRemove(s.turns, oldest.turnId, id);
      GetExpireAll(c, oldest.turnId, id);
      if Get(t.expired, id).Some? {
        BuryKeys(s.expired, Expire(oldest), id);
      }
    }
  }

  lemma {:induction false} EvictLinked(cfg: Config, c: seq<Turn>, s: Server, required: nat)
    requires Linked(c, s)
    ensures var out := EvictFinished(cfg, s, required);
      && Linked(ApplyBodies(c, out.bodies), out.server)
      && out.server.disabled == s.disabled && out.server.used == s.used && out.server.stepCursor == s.stepCursor
      && forall id :: Get(out.server.turns, id).Some? ==> Get(out.server.turns, id) == Get(s.turns, id)
    decreases |s.turns|
  {
    hide EvictOne;
    if s.canonicalBytes + required > cfg.maxCanonicalBytes && FirstFinished(s.turns).Some? {
      var oldest := FirstFinished(s.turns).value;
      RemoveShrinks(s.turns, oldest);
      EvictOneLinked(cfg, c, s, oldest);
      EvictOneFrame(cfg, s, oldest);
      var t, d := EvictOne(cfg, s, oldest), ApplyBody(c, TurnEvict(oldest.turnId));
      EvictLinked(cfg, d, t, required);
      var rest := EvictFinished(cfg, t, required).bodies;
      assert ([TurnEvict(oldest.turnId)] + rest)[1..] == rest;
    }
  }

  lemma EvictOneFrame(cfg: Config, s: Server, oldest: Turn)
    ensures var t := EvictOne(cfg, s, oldest);
      && t.disabled == s.disabled && t.used == s.used && t.stepCursor == s.stepCursor
          && t.turns == Remove(s.turns, oldest.turnId)
      && forall id :: Get(t.turns, id).Some? ==> Get(t.turns, id) == Get(s.turns, id)
  {
    forall id ensures Get(Remove(s.turns, oldest.turnId), id).Some? ==>
        Get(Remove(s.turns, oldest.turnId), id) == Get(s.turns, id) {
      GetRemove(s.turns, oldest.turnId, id);
    }
  }

  lemma ReserveLinked(cfg: Config, c: seq<Turn>, s: Server, required: nat)
    requires Linked(c, s)
    ensures var out := Reserve(cfg, s, required).0;
      && Linked(ApplyBodies(c, out.bodies), out.server)
      && out.server.disabled == s.disabled && out.server.used == s.used && out.server.stepCursor == s.stepCursor
      && forall id :: Get(out.server.turns, id).Some? ==> Get(out.server.turns, id) == Get(s.turns, id)
  {
    EvictLinked(cfg, c, s, required);
  }

  /** Making room never evicts a turn in progress. */
  lemma {:induction false} EvictionSpares(cfg: Config, s: Server, required: nat, id: nat)
    requires Get(s.turns, id).Some? && !TraceServer.Finished(Get(s.turns, id).value.state)
    requires forall t :: t in s.turns && t.turnId == id ==> t == Get(s.turns, id).value
    ensures Get(EvictFinished(cfg, s, required).server.turns, id) == Get(s.turns, id)
    decreases |s.turns|
  {
    hide Bury;
    if s.canonicalBytes + required > cfg.maxCanonicalBytes && FirstFinished(s.turns).Some? {
      var oldest := FirstFinished(s.turns).value;
      FirstFinishedIs(s.turns);
      RemoveShrinks(s.turns, oldest);
      GetRemove(s.turns, oldest.turnId, id);
      RemoveMembers(s.turns, oldest.turnId);
      EvictionSpares(cfg, EvictOne(cfg, s, oldest), required, id);
    }
  }

  lemma {:induction false} FirstFinishedIs(turns: seq<Turn>)
    ensures FirstFinished(turns).Some? ==> TraceServer.Finished(FirstFinished(turns).value.state)
  {
    if turns != [] {
      FirstFinishedIs(turns[1..]);
    }
  }

  lemma {:induction false} RemoveMembers(turns: seq<Turn>, id: nat)
    ensures forall t :: t in Remove(turns, id) ==> t in turns
  {
    if turns != [] {
      RemoveMembers(turns[1..], id);
    }
  }

  // ---------------------------------------------------------------- changing one turn

  /**
   * Replacing one live turn while the client applies an event about that turn:
   * enough that the client ends up with the new value, unless the turn is disabled.
   */
  lemma ReplaceLinked(c: seq<Turn>, s: Server, id: nat, turn: Turn, body: Body, t: Server)
    requires Linked(c, s) && turn.turnId == id && Subject(body) == Some(id) && id in s.used
    requires t.turns == Put(s.turns, id, turn) && t.expired == s.expired && t.used == s.used
    requires t.disabled == s.disabled || t.disabled == s.disabled + {id}
    requires t.stepCursor >= s.stepCursor && StepIdsBelow(turn.steps, t.stepCursor)
    requires Get(s.turns, id).Some? && id !in t.disabled ==> Get(ApplyBody(c, body), id) == Some(turn)
    ensures Linked(ApplyBody(c, body), t)
  {
    var d := ApplyBody(c, body);
    hide ApplyBody;
    forall other
      ensures other != id ==> Get(d, other) == Get(c, other)
      ensures Get(t.turns, other) == if other == id && Get(s.turns, id).Some? then Some(turn) else Get(s.turns, other)
    {
      if other != id {
        ApplyFrame(c, body, other);
      }
      GetPut(s.turns, id, turn, other);
    }
  }

  lemma {:induction false} GetStepIs(steps: seq<Step>, id: nat, cursor: nat)
    ensures GetStep(steps, id).Some? ==> GetStep(steps, id).value.id == id
    ensures StepIdsBelow(steps, cursor) && id > cursor ==> GetStep(steps, id).None?
  {
    if steps != [] {
      assert StepIdsBelow(steps, cursor) ==> StepIdsBelow(steps[1..], cursor);
      GetStepIs(steps[1..], id, cursor);
    }
  }

  lemma {:induction false} PutStepIds(steps: seq<Step>, id: nat, step: Step, cursor: nat)
    requires StepIdsBelow(steps, cursor) && step.id == id
    ensures StepIdsBelow(PutStep(steps, id, step), cursor)
  {
    if steps != [] {
      assert StepIdsBelow(steps[1..], cursor);
      PutStepIds(steps[1..], id, step, cursor);
      assert steps[0].id <= cursor;
    }
  }

  lemma SetTurnStateLinked(cfg: Config, c: seq<Turn>, s: Server, id: nat, state: TurnState, at: int)
    requires Linked(c, s)
    ensures var out := DoSetTurnState(cfg, s, id, state, at); Linked(ApplyBodies(c, out.bodies), out.server)
  {
    if id !in s.disabled && Get(s.turns, id).Some? && Get(s.turns, id).value.state != state {
      var turn := Get(s.turns, id).value;
      var changed := WithState(turn, state, at);
      GetIs(s.turns, id);
      GetPut(c, id, changed, id);
      ReplaceLinked(c, s, id, changed, TurnUpsert(changed), DoSetTurnState(cfg, s, id, state, at).server);
      assert [TurnUpsert(changed)][1..] == [];
    }
  }

  /** The client appends a step it cannot know yet. */
  lemma MergeNewStep(c: seq<Turn>, turn: Turn, step: Step, cursor: nat)
    requires Get(c, turn.turnId) == Some(turn) && StepIdsBelow(turn.steps, cursor) && step.id > cursor
    ensures var changed := turn.(steps := turn.steps + [step], revision := turn.revision + 1);
      Get(ApplyBody(c, StepUpsert(turn.turnId, changed.revision, step)), turn.turnId) == Some(changed)
  {
    GetStepIs(turn.steps, step.id, cursor);
    GetPut(c, turn.turnId, MergeStep(turn, turn.revision + 1, step), turn.turnId);
  }

  lemma DisableLinked(c: seq<Turn>, s: Server, id: nat, text: string, at: int)
    requires Linked(c, s)
    ensures var out := Disable(s, id, text, at); Linked(ApplyBodies(c, out.bodies), out.server)
  {
    if id !in s.disabled && Get(s.turns, id).Some? {
      var out := Disable(s, id, text, at);
      GetIs(s.turns, id);
      var turn := Get(s.turns, id).value;
      var step := out.bodies[0].step;
      ReplaceLinked(c, s, id, turn.(steps := turn.steps + [step], revision := turn.revision + 1), out.bodies[0],
          out.server);
      assert out.bodies[1..] == [];
    }
  }

  lemma StartTurnLinked(cfg: Config, c: seq<Turn>, s: Server, id: nat, userMessageId: nat, at: int)
    requires Linked(c, s) && NoReuse(s, StartTurn(id, userMessageId, at))
    ensures var out := DoStartTurn(cfg, s, id, userMessageId, at); Linked(ApplyBodies(c, out.bodies), out.server)
  {
    hide Reserve;
    hide Disable;
    if id !in s.disabled && Get(s.turns, id).None? {
      var turn := Turn(id, userMessageId, 1, Running, at, None, Some(at), 0, []);
      var (out, fits) := Reserve(cfg, s, cfg.turnBytes(turn));
      ReserveLinked(cfg, c, s, cfg.turnBytes(turn));
      var d := ApplyBodies(c, out.bodies);
      if !fits {
        DisableLinked(d, out.server, id, "Run details reached their memory limit.", at);
        ApplyBodiesConcat(c, out.bodies, Disable(out.server, id, "Run details reached their memory limit.", at).bodies);
      } else {
        ApplyBodiesConcat(c, out.bodies, [TurnUpsert(turn)]);
        assert [TurnUpsert(turn)][1..] == [];
        AppendLinked(d, out.server, turn);
      }
    }
  }

  lemma AppendLinked(c: seq<Turn>, s: Server, turn: Turn)
    requires Linked(c, s) && turn.turnId !in s.used && turn.steps == []
    ensures Linked(ApplyBody(c, TurnUpsert(turn)), s.(turns := s.turns + [turn], used := s.used + {turn.turnId}))
  {
    forall id
      ensures Get(c + [turn], id) == if Get(c, id).Some? then Get(c, id) else if turn.turnId == id then Some(turn)
          else None
      ensures Get(s.turns + [turn], id) == if Get(s.turns, id).Some? then Get(s.turns, id)
          else if turn.turnId == id then Some(turn) else None
    {
      GetAppend(c, turn, id);
      GetAppend(s.turns, turn, id);
    }
  }

  lemma StartStepLinked(cfg: Config, c: seq<Turn>, s: Server, id: nat, kind: StepKind, text: string, at: int,
      input: Option<string>)
    requires Linked(c, s)
    ensures var out := DoStartStep(cfg, s, id, kind, text, at, input); Linked(ApplyBodies(c, out.bodies), out.server)
  {
    hide Reserve;
    hide Disable;
    var note := "Additional run details were omitted.";
    if id in s.disabled {
    } else if Get(s.turns, id).None? || s.stepCount >= cfg.maxSteps {
      DisableLinked(c, s, id, note, at);
    } else {
      var step := Step(s.stepCursor + 1, id, 1, kind, text, StepRunning, at, None, input, None, None);
      var u := s.(stepCursor := s.stepCursor + 1);
      assert Linked(c, u);
      hide Linked;
      var (out, fits) := Reserve(cfg, u, cfg.stepBytes(step));
      ReserveLinked(cfg, c, u, cfg.stepBytes(step));
      var d := ApplyBodies(c, out.bodies);
      if !fits {
        DisableLinked(d, out.server, id, note, at);
        ApplyBodiesConcat(c, out.bodies, Disable(out.server, id, note, at).bodies);
      } else {
        var turn := Get(s.turns, id).value;
        assert ServerOk(s) by { LinkedIsOk(c, s); }
        NewStepLinked(d, s, out.server, id, step);
        ApplyLast(c, out.bodies, StepUpsert(id, turn.revision + 1, step));
      }
    }
  }

  lemma LinkedIsOk(c: seq<Turn>, s: Server)
    requires Linked(c, s)
    ensures ServerOk(s)
  {
  }

  lemma ApplyLast(c: seq<Turn>, bodies: seq<Body>, last: Body)
    ensures ApplyBodies(c, bodies + [last]) == ApplyBody(ApplyBodies(c, bodies), last)
  {
    hide ApplyBody;
    ApplyBodiesConcat(c, bodies, [last]);
    assert [last][1..] == [];
  }

  /** `s` is the server before room was made, `u` after. */
  lemma NewStepLinked(d: seq<Turn>, s: Server, u: Server, id: nat, step: Step)
    requires ServerOk(s) && Linked(d, u) && Get(s.turns, id).Some? && id !in u.disabled && u.used == s.used
    requires u.stepCursor == s.stepCursor + 1 == step.id
    requires Get(u.turns, id).Some? ==> Get(u.turns, id) == Get(s.turns, id)
    ensures var turn := Get(s.turns, id).value;
      var changed := turn.(steps := turn.steps + [step], revision := turn.revision + 1);
      Linked(ApplyBody(d, StepUpsert(id, changed.revision, step)),
             u.(turns := Put(u.turns, id, changed), stepCount := u.stepCount + 1))
  {
    GetIs(s.turns, id);
    var turn := Get(s.turns, id).value;
    var changed := turn.(steps := turn.steps + [step], revision := turn.revision + 1);
    if Get(u.turns, id).Some? {
      MergeNewStep(d, turn, step, s.stepCursor);
    }
    ReplaceLinked(d, u, id, changed, StepUpsert(id, changed.revision, step),
                  u.(turns := Put(u.turns, id, changed), stepCount := u.stepCount + 1));
  }

  /** The client overwrites a step it knows with a later revision. */
  lemma MergeKnownStep(c: seq<Turn>, turn: Turn, stepId: nat, change: StepChange)
    requires Get(c, turn.turnId) == Some(turn) && GetStep(turn.steps, stepId).Some?
    ensures var next := Changed(GetStep(turn.steps, stepId).value, change);
      var changed := turn.(steps := PutStep(turn.steps, stepId, next), revision := turn.revision + 1);
      Get(ApplyBody(c, StepUpsert(turn.turnId, changed.revision, next)), turn.turnId) == Some(changed)
  {
    GetStepIs(turn.steps, stepId, 0);
    var next := Changed(GetStep(turn.steps, stepId).value, change);
    GetPut(c, turn.turnId, MergeStep(turn, turn.revision + 1, next), turn.turnId);
  }

  lemma UpdateStepLinked(cfg: Config, c: seq<Turn>, s: Server, id: nat, stepId: nat, change: StepChange, at: int)
    requires Linked(c, s)
    ensures var out := DoUpdateStep(cfg, s, id, stepId, change, at); Linked(ApplyBodies(c, out.bodies), out.server)
  {
    hide Disable;
    hide Changed;
    hide ApplyBody;
    hide Put;
    hide PutStep;
    GetIs(s.turns, id);
    if !(id in s.disabled || Get(s.turns, id).None? || GetStep(Get(s.turns, id).value.steps, stepId).None?) {
      var turn := Get(s.turns, id).value;
      var step := GetStep(turn.steps, stepId).value;
      var next := Changed(step, change);
      GetStepIs(turn.steps, stepId, s.stepCursor);
      ChangedId(step, change);
      PutStepIds(turn.steps, stepId, next, s.stepCursor);
      var changed := turn.(steps := PutStep(turn.steps, stepId, next), revision := turn.revision + 1);
      var t := s.(turns := Put(s.turns, id, changed),
                  canonicalBytes := s.canonicalBytes + cfg.stepBytes(next) - cfg.stepBytes(step));
      if t.canonicalBytes > cfg.maxCanonicalBytes {
        OverBudgetLinked(c, s, t, id, changed, at);
      } else {
        MergeKnownStep(c, turn, stepId, change);
        ReplaceLinked(c, s, id, changed, StepUpsert(id, changed.revision, next), t);
        assert [StepUpsert(id, changed.revision, next)][1..] == [];
      }
    }
  }

  lemma ChangedId(step: Step, change: StepChange)
    ensures Changed(step, change).id == step.id && Changed(step, change).revision == step.revision + 1
  {
  }

  /** A turn that runs over budget stops being mirrored; the others still are. */
  lemma OverBudgetLinked(c: seq<Turn>, s: Server, t: Server, id: nat, changed: Turn, at: int)
    requires Linked(c, s) && Get(s.turns, id).Some? && id !in s.disabled && changed.turnId == id
    requires StepIdsBelow(changed.steps, s.stepCursor)
    requires t == s.(turns := Put(s.turns, id, changed), canonicalBytes := t.canonicalBytes)
    ensures var out := Disable(t, id, "Additional run details were omitted.", at);
      Linked(ApplyBodies(c, out.bodies), out.server)
  {
    var out := Disable(t, id, "Additional run details were omitted.", at);
    GetPut(s.turns, id, changed, id);
    var step := out.bodies[0].step;
    var last := changed.(steps := changed.steps + [step], revision := changed.revision + 1);
    PutTwice(s.turns, id, changed, last);
    ReplaceLinked(c, s, id, last, out.bodies[0], out.server);
    assert out.bodies[1..] == [];
  }

  lemma {:induction false} PutTwice(turns: seq<Turn>, id: nat, a: Turn, b: Turn)
    requires a.turnId == id
    ensures Put(Put(turns, id, a), id, b) == Put(turns, id, b)
  {
    if turns != [] && turns[0].turnId != id {
      PutTwice(turns[1..], id, a, b);
    }
  }

  lemma {:induction false} CancelLinked(cfg: Config, c: seq<Turn>, s: Server, id: nat, steps: seq<Step>, at: int)
    requires Linked(c, s)
    ensures var out := CancelSteps(cfg, s, id, steps, at); Linked(ApplyBodies(c, out.bodies), out.server)
    decreases |steps|
  {
    hide DoUpdateStep;
    if steps == [] {
    } else if steps[0].state != StepRunning {
      CancelLinked(cfg, c, s, id, steps[1..], at);
    } else {
      var first := DoUpdateStep(cfg, s, id, steps[0].id, CancelStep(at), at);
      UpdateStepLinked(cfg, c, s, id, steps[0].id, CancelStep(at), at);
      CancelLinked(cfg, ApplyBodies(c, first.bodies), first.server, id, steps[1..], at);
      ApplyBodiesConcat(c, first.bodies, CancelSteps(cfg, first.server, id, steps[1..], at).bodies);
    }
  }

  /** Every operation, with the client applying its events, keeps server and client linked. */
  lemma DoLinked(cfg: Config, c: seq<Turn>, s: Server, op: Op)
    requires Linked(c, s) && NoReuse(s, op)
    ensures var out := Do(cfg, s, op); Linked(ApplyBodies(c, out.bodies), out.server)
  {
    match op
    case StartTurn(id, userMessageId, at) => StartTurnLinked(cfg, c, s, id, userMessageId, at);
    case SetTurnState(id, state, at) => SetTurnStateLinked(cfg, c, s, id, state, at);
    case StartStep(id, kind, text, at, input) => StartStepLinked(cfg, c, s, id, kind, text, at, input);
    case UpdateStep(id, stepId, change, at) => UpdateStepLinked(cfg, c, s, id, stepId, change, at);
    case CancelRunning(id, at) =>
      if !(id in s.disabled || Get(s.turns, id).None?) {
        CancelLinked(cfg, c, s, id, Get(s.turns, id).value.steps, at);
      }
  }

  /** No operation of the run starts a turn id again after eviction. */
  ghost predicate NeverReuses(cfg: Config, s: Server, ops: seq<Op>)
    decreases |ops|
  {
    ops == [] || (NoReuse(s, ops[0]) && NeverReuses(cfg, Do(cfg, s, ops[0]).server, ops[1..]))
  }

  lemma {:induction false} DoAllLinked(cfg: Config, c: seq<Turn>, s: Server, ops: seq<Op>)
    requires Linked(c, s) && NeverReuses(cfg, s, ops)
    ensures var out := DoAll(cfg, s, ops); Linked(ApplyBodies(c, out.bodies), out.server)
    decreases |ops|
  {
    hide Do;
    if ops != [] {
      var first := Do(cfg, s, ops[0]);
      DoLinked(cfg, c, s, ops[0]);
      DoAllLinked(cfg, ApplyBodies(c, first.bodies), first.server, ops[1..]);
      ApplyBodiesConcat(c, first.bodies, DoAll(cfg, first.server, ops[1..]).bodies);
    }
  }

  /** A snapshot shows the live turns exactly. */
  lemma SnapshotLinked(s: Server)
    requires ServerOk(s)
    ensures Linked(Shown(s), s)
  {
    forall id ensures Get(Shown(s), id) == if Get(s.expired, id).Some? then Get(s.expired, id) else Get(s.turns, id) {
      GetConcat(s.expired, s.turns, id);
    }
  }

  // ---------------------------------------------------------------- operations publish no resync notice

  lemma {:induction false} EvictNoResync(cfg: Config, s: Server, required: nat)
    ensures NoResync(EvictFinished(cfg, s, required).bodies)
    decreases |s.turns|
  {
    hide Bury;
    if s.canonicalBytes + required > cfg.maxCanonicalBytes && FirstFinished(s.turns).Some? {
      var oldest := FirstFinished(s.turns).value;
      RemoveShrinks(s.turns, oldest);
      EvictNoResync(cfg, EvictOne(cfg, s, oldest), required);
    }
  }

  lemma {:induction false} CancelNoResync(cfg: Config, s: Server, id: nat, steps: seq<Step>, at: int)
    ensures NoResync(CancelSteps(cfg, s, id, steps, at).bodies)
    decreases |steps|
  {
    hide EvictFinished;
    if steps == [] {
    } else if steps[0].state != StepRunning {
      CancelNoResync(cfg, s, id, steps[1..], at);
    } else {
      UpdateNoResync(cfg, s, id, steps[0].id, CancelStep(at), at);
      CancelNoResync(cfg, DoUpdateStep(cfg, s, id, steps[0].id, CancelStep(at), at).server, id, steps[1..], at);
    }
  }

  lemma UpdateNoResync(cfg: Config, s: Server, id: nat, stepId: nat, change: StepChange, at: int)
    ensures NoResync(DoUpdateStep(cfg, s, id, stepId, change, at).bodies)
  {
  }

  lemma DoNoResync(cfg: Config, s: Server, op: Op)
    ensures NoResync(Do(cfg, s, op).bodies)
  {
    hide EvictFinished;
    match op
    case StartTurn(id, userMessageId, at) =>
      EvictNoResync(cfg, s, cfg.turnBytes(Turn(id, userMessageId, 1, Running, at, None, Some(at), 0, [])));
    case SetTurnState(_, _, _) =>
    case StartStep(id, kind, text, at, input) =>
      EvictNoResync(cfg, s.(stepCursor := s.stepCursor + 1),
                    cfg.stepBytes(Step(s.stepCursor + 1, id, 1, kind, text, StepRunning, at, None, input, None, None)));
    case UpdateStep(id, stepId, change, at) => UpdateNoResync(cfg, s, id, stepId, change, at);
    case CancelRunning(id, at) =>
      if Get(s.turns, id).Some? {
        CancelNoResync(cfg, s, id, Get(s.turns, id).value.steps, at);
      }
  }

  lemma {:induction false} DoAllNoResync(cfg: Config, s: Server, ops: seq<Op>)
    ensures NoResync(DoAll(cfg, s, ops).bodies)
    decreases |ops|
  {
    hide Do;
    if ops != [] {
      DoNoResync(cfg, s, ops[0]);
      DoAllNoResync(cfg, Do(cfg, s, ops[0]).server, ops[1..]);
    }
  }

  // ---------------------------------------------------------------- runs of operations in two parts

  lemma {:induction false} DoAllConcat(cfg: Config, s: Server, a: seq<Op>, b: seq<Op>)
    ensures var first := DoAll(cfg, s, a);
      DoAll(cfg, s, a + b) == Out(DoAll(cfg, first.server, b).server, first.bodies + DoAll(cfg, first.server, b).bodies)
    decreases |a|
  {
    hide Do;
    if a == [] {
      assert a + b == b;
      assert [] + DoAll(cfg, s, b).bodies == DoAll(cfg, s, b).bodies;
    } else {
      DoAllConcat(cfg, Do(cfg, s, a[0]).server, a[1..], b);
      assert (a + b)[1..] == a[1..] + b;
    }
  }

  lemma {:induction false} NeverReusesParts(cfg: Config, s: Server, a: seq<Op>, b: seq<Op>)
    requires NeverReuses(cfg, s, a + b)
    ensures NeverReuses(cfg, s, a) && NeverReuses(cfg, DoAll(cfg, s, a).server, b)
    decreases |a|
  {
    hide Do;
    if a == [] {
      assert a + b == b;
    } else {
      assert (a + b)[1..] == a[1..] + b;
      NeverReusesParts(cfg, Do(cfg, s, a[0]).server, a[1..], b);
    }
  }

  // ---------------------------------------------------------------- delivery

  /** Deliveries after event `cursor`: in order without gaps, with any number of events delivered again. */
  ghost predicate InOrder(history: seq<Event>, cursor: nat, deliveries: seq<Event>)
    decreases |deliveries|
  {
    deliveries == [] ||
    (var e := deliveries[0];
     1 <= e.eventId <= |history| && e == history[e.eventId - 1] && e.eventId <= cursor + 1
     && InOrder(history, Max(cursor, e.eventId), deliveries[1..]))
  }

  /** Redelivered events change nothing: the client is where in-order delivery up to its cursor would put it. */
  lemma {:induction false} DeliverySettles(history: seq<Event>, stream: nat, bodies: seq<Body>, c: Snapshot,
      deliveries: seq<Event>)
    requires Stamped(stream, history, bodies) && NoResync(bodies) && c.streamId == stream && c.cursor <= |bodies|
    requires InOrder(history, c.cursor, deliveries)
    ensures var d := ApplyEvents(c, deliveries);
      && c.cursor <= d.cursor <= |bodies| && d.streamId == stream
      && d.turns == ApplyBodies(c.turns, bodies[c.cursor..d.cursor])
    decreases |deliveries|
  {
    if deliveries == [] {
      assert bodies[c.cursor..c.cursor] == [];
    } else {
      var e := deliveries[0];
      var next := ApplyEvent(c, e);
      DeliverySettles(history, stream, bodies, next, deliveries[1..]);
      if e.eventId == c.cursor + 1 {
        var d := ApplyEvents(next, deliveries[1..]);
        assert bodies[c.cursor..d.cursor][0] == e.body;
        assert bodies[c.cursor..d.cursor][1..] == bodies[next.cursor..d.cursor];
      }
    }
  }

  /** Delivering everything behind the cursor once is in order and reaches the end. */
  lemma {:induction false} TailInOrder(history: seq<Event>, stream: nat, bodies: seq<Body>, c: Snapshot)
    requires Stamped(stream, history, bodies) && NoResync(bodies) && c.streamId == stream && c.cursor <= |history|
    ensures InOrder(history, c.cursor, history[c.cursor..])
    ensures ApplyEvents(c, history[c.cursor..]).cursor == |history|
    decreases |history| - c.cursor
  {
    hide ApplyBody;
    var tail := history[c.cursor..];
    if tail != [] {
      assert tail[0] == history[c.cursor];
      assert tail[1..] == history[c.cursor + 1..];
      TailInOrder(history, stream, bodies, ApplyEvent(c, tail[0]));
    }
  }

  /**
   * A client that starts from any snapshot of the server and is delivered the
   * later events, in order and with any repetitions, up to the last one, shows
   * every live turn that is not disabled exactly as the server holds it.
   */
  lemma ReplicaConverges(cfg: Config, stream: nat, before: seq<Op>, after: seq<Op>, history: seq<Event>,
      deliveries: seq<Event>)
    requires NeverReuses(cfg, EMPTY, before) && NeverReuses(cfg, DoAll(cfg, EMPTY, before).server, after)
    requires var b := DoAll(cfg, EMPTY, before);
      var a := DoAll(cfg, b.server, after);
      && Stamped(stream, history, b.bodies + a.bodies)
      && InOrder(history, |b.bodies|, deliveries)
      && ApplyEvents(Snapshot(stream, |b.bodies|, Shown(b.server)), deliveries).cursor == |history|
    ensures var b := DoAll(cfg, EMPTY, before);
      var a := DoAll(cfg, b.server, after);
      Mirrors(ApplyEvents(Snapshot(stream, |b.bodies|, Shown(b.server)), deliveries).turns, a.server)
  {
    hide DoAll, NeverReuses, InOrder, Shown, ApplyEvents, ApplyBodies, ApplyEvent, Do;
    var b := DoAll(cfg, EMPTY, before);
    var a := DoAll(cfg, b.server, after);
    assert Linked([], EMPTY);
    DoAllLinked(cfg, [], EMPTY, before);
    SnapshotLinked(b.server);
    DoAllLinked(cfg, Shown(b.server), b.server, after);
    DoAllNoResync(cfg, EMPTY, before);
    DoAllNoResync(cfg, b.server, after);
    var start := Snapshot(stream, |b.bodies|, Shown(b.server));
    DeliverySettles(history, stream, b.bodies + a.bodies, start, deliveries);
    assert (b.bodies + a.bodies)[|b.bodies|..|history|] == a.bodies;
  }

  // ---------------------------------------------------------------- elapsed time

  /** A turn's history of states: each entry is a state and the time it began. */
  datatype Change = Change(state: TurnState, at: int)

  ghost predicate Chronological(changes: seq<Change>, from: int)
    decreases |changes|
  {
    changes == [] || (from <= changes[0].at && Chronological(changes[1..], changes[0].at))
  }

  /** The total time spent running, when `state` began at `since` and the changes follow. */
  function RunningTime(state: TurnState, since: int, changes: seq<Change>, now: int): int
    decreases |changes|
  {
    if changes == [] then if state == Running then now - since else 0
    else (if state == Running then changes[0].at - since else 0)
         + RunningTime(changes[0].state, changes[0].at, changes[1..], now)
  }

  /** The state changes as the server applies them to one turn; setting the same state again is ignored. */
  function ChangeAll(turn: Turn, changes: seq<Change>): Turn
    decreases |changes|
  {
    if changes == [] then turn
    else
      var c := changes[0];
      ChangeAll(if turn.state == c.state then turn else WithState(turn, c.state, c.at), changes[1..])
  }

  ghost predicate LastBefore(changes: seq<Change>, from: int, now: int) {
    from <= now && forall i :: 0 <= i < |changes| ==> changes[i].at <= now
  }

  lemma {:induction false} ElapsedFrom(turn: Turn, since: int, changes: seq<Change>, now: int)
    requires turn.activeStartedAt.Some? <==> turn.state == Running
    requires turn.state == Running ==> turn.activeStartedAt.value <= since
    requires Chronological(changes, since) && LastBefore(changes, since, now)
    ensures ActiveElapsedMs(ChangeAll(turn, changes), now) ==
              turn.accumulatedActiveMs + (if turn.state == Running then since - turn.activeStartedAt.value else 0)
              + RunningTime(turn.state, since, changes, now)
    decreases |changes|
  {
    if changes != [] {
      var c := changes[0];
      assert forall i :: 0 <= i < |changes[1..]| ==> changes[1..][i] == changes[i + 1];
      ElapsedFrom(if turn.state == c.state then turn else WithState(turn, c.state, c.at), c.at, changes[1..], now);
    }
  }

  /** The part of a turn the elapsed time depends on. */
  function TimeOf(turn: Turn): (TurnState, Option<int>, int) {
    (turn.state, turn.activeStartedAt, turn.accumulatedActiveMs)
  }

  lemma {:induction false} ChangeAllTime(a: Turn, b: Turn, changes: seq<Change>)
    requires TimeOf(a) == TimeOf(b)
    ensures TimeOf(ChangeAll(a, changes)) == TimeOf(ChangeAll(b, changes))
    decreases |changes|
  {
    if changes != [] {
      var c := changes[0];
      ChangeAllTime(if a.state == c.state then a else WithState(a, c.state, c.at),
                    if b.state == c.state then b else WithState(b, c.state, c.at), changes[1..]);
    }
  }

  predicate Recorded(s: Server, id: nat) {
    Get(s.turns, id).Some? && id !in s.disabled
  }

  /** If the turn is still recorded afterwards, it was before, with the same times. */
  ghost predicate TimesKept(s: Server, t: Server, id: nat) {
    Recorded(t, id) ==> Recorded(s, id) && TimeOf(Get(t.turns, id).value) == TimeOf(Get(s.turns, id).value)
  }

  lemma PutKeepsTimes(s: Server, t: Server, x: nat, turn: Turn, id: nat)
    requires turn.turnId == x && t.turns == Put(s.turns, x, turn) && s.disabled <= t.disabled
    requires Get(s.turns, x).Some? ==> TimeOf(turn) == TimeOf(Get(s.turns, x).value)
    ensures TimesKept(s, t, id)
  {
    GetPut(s.turns, x, turn, id);
  }

  lemma DisableKeepsTimes(s: Server, x: nat, text: string, at: int, id: nat)
    ensures TimesKept(s, Disable(s, x, text, at).server, id)
  {
    if x !in s.disabled && Get(s.turns, x).Some? {
      GetIs(s.turns, x);
      var turn := Get(s.turns, x).value;
      var step := Disable(s, x, text, at).bodies[0].step;
      PutKeepsTimes(s, Disable(s, x, text, at).server, x,
          turn.(steps := turn.steps + [step], revision := turn.revision + 1), id);
    }
  }

  lemma ReserveKeepsTimes(cfg: Config, s: Server, required: nat, id: nat)
    requires ServerOk(s)
    ensures TimesKept(s, Reserve(cfg, s, required).0.server, id)
  {
    hide Reserve;
    SnapshotLinked(s);
    ReserveLinked(cfg, Shown(s), s, required);
  }

  lemma StartTurnTimes(cfg: Config, s: Server, x: nat, userMessageId: nat, at: int, id: nat)
    requires ServerOk(s) && NoReuse(s, StartTurn(x, userMessageId, at)) && id in s.used
    ensures TimesKept(s, DoStartTurn(cfg, s, x, userMessageId, at).server, id)
  {
    hide Reserve;
    hide Disable;
    if x !in s.disabled && Get(s.turns, x).None? {
      var turn := Turn(x, userMessageId, 1, Running, at, None, Some(at), 0, []);
      var (out, fits) := Reserve(cfg, s, cfg.turnBytes(turn));
      ReserveKeepsTimes(cfg, s, cfg.turnBytes(turn), id);
      DisableKeepsTimes(out.server, x, "Run details reached their memory limit.", at, id);
      GetAppend(out.server.turns, turn, id);
    }
  }

  lemma StartStepTimes(cfg: Config, s: Server, x: nat, kind: StepKind, text: string, at: int, input: Option<string>,
      id: nat)
    requires ServerOk(s)
    ensures TimesKept(s, DoStartStep(cfg, s, x, kind, text, at, input).server, id)
  {
    hide Reserve;
    hide Disable;
    var note := "Additional run details were omitted.";
    if x in s.disabled {
    } else if Get(s.turns, x).None? || s.stepCount >= cfg.maxSteps {
      DisableKeepsTimes(s, x, note, at, id);
    } else {
      GetIs(s.turns, x);
      var turn := Get(s.turns, x).value;
      var step := Step(s.stepCursor + 1, x, 1, kind, text, StepRunning, at, None, input, None, None);
      var u := s.(stepCursor := s.stepCursor + 1);
      var (out, fits) := Reserve(cfg, u, cfg.stepBytes(step));
      SnapshotLinked(u);
      ReserveLinked(cfg, Shown(u), u, cfg.stepBytes(step));
      ReserveKeepsTimes(cfg, u, cfg.stepBytes(step), id);
      DisableKeepsTimes(out.server, x, note, at, id);
      var changed := turn.(steps := turn.steps + [step], revision := turn.revision + 1);
      PutKeepsTimes(out.server, out.server.(turns := Put(out.server.turns, x, changed),
          stepCount := out.server.stepCount + 1), x, changed, id);
    }
  }

  lemma UpdateStepTimes(cfg: Config, s: Server, x: nat, stepId: nat, change: StepChange, at: int, id: nat)
    ensures TimesKept(s, DoUpdateStep(cfg, s, x, stepId, change, at).server, id)
  {
    hide Disable;
    hide Changed;
    GetIs(s.turns, x);
    if !(x in s.disabled || Get(s.turns, x).None? || GetStep(Get(s.turns, x).value.steps, stepId).None?) {
      var turn := Get(s.turns, x).value;
      var step := GetStep(turn.steps, stepId).value;
      var next := Changed(step, change);
      var changed := turn.(steps := PutStep(turn.steps, stepId, next), revision := turn.revision + 1);
      var t := s.(turns := Put(s.turns, x, changed),
                  canonicalBytes := s.canonicalBytes + cfg.stepBytes(next) - cfg.stepBytes(step));
      PutKeepsTimes(s, t, x, changed, id);
      DisableKeepsTimes(t, x, "Additional run details were omitted.", at, id);
    }
  }

  lemma {:induction false} CancelTimes(cfg: Config, s: Server, x: nat, steps: seq<Step>, at: int, id: nat)
    ensures TimesKept(s, CancelSteps(cfg, s, x, steps, at).server, id)
    decreases |steps|
  {
    hide DoUpdateStep;
    if steps == [] {
    } else if steps[0].state != StepRunning {
      CancelTimes(cfg, s, x, steps[1..], at, id);
    } else {
      UpdateStepTimes(cfg, s, x, steps[0].id, CancelStep(at), at, id);
      CancelTimes(cfg, DoUpdateStep(cfg, s, x, steps[0].id, CancelStep(at), at).server, x, steps[1..], at, id);
    }
  }

  /** The state changes that the operations of a run make to one turn. */
  function ChangesOf(ops: seq<Op>, id: nat): seq<Change>
    decreases |ops|
  {
    if ops == [] then []
    else
      (if ops[0].SetTurnState? && ops[0].turnId == id then [Change(ops[0].state, ops[0].at)] else [])
      + ChangesOf(ops[1..], id)
  }

  /** One operation books time on a turn exactly when it changes the state of that turn. */
  lemma OpTimes(cfg: Config, s: Server, op: Op, id: nat)
    requires ServerOk(s) && NoReuse(s, op) && id in s.used
    requires Recorded(Do(cfg, s, op).server, id)
    ensures Recorded(s, id)
    ensures TimeOf(Get(Do(cfg, s, op).server.turns, id).value)
        == TimeOf(ChangeAll(Get(s.turns, id).value, ChangesOf([op], id)))
  {
    match op
    case StartTurn(x, userMessageId, at) => StartTurnTimes(cfg, s, x, userMessageId, at, id);
    case SetTurnState(x, state, at) =>
      GetIs(s.turns, x);
      if x !in s.disabled && Get(s.turns, x).Some? && Get(s.turns, x).value.state != state {
        GetPut(s.turns, x, WithState(Get(s.turns, x).value, state, at), id);
      }
      assert [op][1..] == [];
      assert ChangesOf([op], id) == if x == id then [Change(state, at)] else [];
      if x == id {
        assert [Change(state, at)][1..] == [];
      }
    case StartStep(x, kind, text, at, input) => StartStepTimes(cfg, s, x, kind, text, at, input, id);
    case UpdateStep(x, stepId, change, at) => UpdateStepTimes(cfg, s, x, stepId, change, at, id);
    case CancelRunning(x, at) =>
      if !(x in s.disabled || Get(s.turns, x).None?) {
        CancelTimes(cfg, s, x, Get(s.turns, x).value.steps, at, id);
      }
  }

  lemma StaysOk(cfg: Config, s: Server, op: Op)
    requires ServerOk(s) && NoReuse(s, op)
    ensures ServerOk(Do(cfg, s, op).server)
  {
    hide Do;
    hide ServerOk;
    SnapshotLinked(s);
    DoLinked(cfg, Shown(s), s, op);
  }

  lemma {:induction false} RunTimes(cfg: Config, s: Server, ops: seq<Op>, id: nat)
    requires ServerOk(s) && NeverReuses(cfg, s, ops) && id in s.used
    requires Recorded(DoAll(cfg, s, ops).server, id)
    ensures Recorded(s, id)
    ensures TimeOf(Get(DoAll(cfg, s, ops).server.turns, id).value)
        == TimeOf(ChangeAll(Get(s.turns, id).value, ChangesOf(ops, id)))
    decreases |ops|
  {
    hide Do;
    hide ServerOk;
    hide NoReuse;
    hide ChangeAll;
    hide TimeOf;
    hide Get;
    if ops != [] {
      var mid := Do(cfg, s, ops[0]).server;
      StaysOk(cfg, s, ops[0]);
      UsedGrows(cfg, s, ops[0]);
      RunTimes(cfg, mid, ops[1..], id);
      OpTimes(cfg, s, ops[0], id);
      var turn, first := Get(s.turns, id).value, ChangesOf([ops[0]], id);
      assert [ops[0]][1..] == [];
      assert ChangesOf(ops, id) == first + ChangesOf(ops[1..], id);
      ChangeAllTime(Get(mid.turns, id).value, ChangeAll(turn, first), ChangesOf(ops[1..], id));
      ChangeAllConcat(turn, first, ChangesOf(ops[1..], id));
    } else if Recorded(s, id) {
      assert ChangeAll(Get(s.turns, id).value, []) == Get(s.turns, id).value by { NoChange(Get(s.turns, id).value); }
    }
  }

  lemma NoChange(turn: Turn)
    ensures ChangeAll(turn, []) == turn
  {
  }

  lemma {:induction false} ChangeAllConcat(turn: Turn, a: seq<Change>, b: seq<Change>)
    ensures ChangeAll(turn, a + b) == ChangeAll(ChangeAll(turn, a), b)
    decreases |a|
  {
    if a == [] {
      assert a + b == b;
    } else {
      var c := a[0];
      ChangeAllConcat(if turn.state == c.state then turn else WithState(turn, c.state, c.at), a[1..], b);
      assert (a + b)[1..] == a[1..] + b;
    }
  }

  lemma {:induction false} EvictUsed(cfg: Config, s: Server, required: nat)
    ensures EvictFinished(cfg, s, required).server.used == s.used
    decreases |s.turns|
  {
    hide Bury;
    if s.canonicalBytes + required > cfg.maxCanonicalBytes && FirstFinished(s.turns).Some? {
      var oldest := FirstFinished(s.turns).value;
      RemoveShrinks(s.turns, oldest);
      EvictUsed(cfg, EvictOne(cfg, s, oldest), required);
    }
  }

  lemma {:induction false} CancelUsed(cfg: Config, s: Server, id: nat, steps: seq<Step>, at: int)
    ensures CancelSteps(cfg, s, id, steps, at).server.used == s.used
    decreases |steps|
  {
    if steps == [] {
    } else if steps[0].state != StepRunning {
      CancelUsed(cfg, s, id, steps[1..], at);
    } else {
      CancelUsed(cfg, DoUpdateStep(cfg, s, id, steps[0].id, CancelStep(at), at).server, id, steps[1..], at);
    }
  }

  lemma UsedGrows(cfg: Config, s: Server, op: Op)
    ensures s.used <= Do(cfg, s, op).server.used
  {
    hide EvictFinished;
    match op
    case StartTurn(id, userMessageId, at) =>
      EvictUsed(cfg, s, cfg.turnBytes(Turn(id, userMessageId, 1, Running, at, None, Some(at), 0, [])));
    case SetTurnState(_, _, _) =>
    case StartStep(id, kind, text, at, input) =>
      EvictUsed(cfg, s.(stepCursor := s.stepCursor + 1),
                cfg.stepBytes(Step(s.stepCursor + 1, id, 1, kind, text, StepRunning, at, None, input, None, None)));
    case UpdateStep(_, _, _, _) =>
    case CancelRunning(id, at) =>
      if Get(s.turns, id).Some? {
        CancelUsed(cfg, s, id, Get(s.turns, id).value.steps, at);
      }
  }

  /**
   * For every run that starts a turn and changes its state at non-decreasing
   * times, whatever happens to its steps and to other turns, the elapsed time
   * shown for it is the total time it spent running, as long as it is recorded.
   */
  lemma ElapsedIsRunningTime(cfg: Config, s: Server, id: nat, startedAt: int, ops: seq<Op>, now: int)
    requires ServerOk(s) && NeverReuses(cfg, s, ops) && Recorded(DoAll(cfg, s, ops).server, id)
    requires Get(s.turns, id).Some? && TimeOf(Get(s.turns, id).value) == (Running, Some(startedAt), 0)
    requires Chronological(ChangesOf(ops, id), startedAt) && LastBefore(ChangesOf(ops, id), startedAt, now)
    ensures ActiveElapsedMs(Get(DoAll(cfg, s, ops).server.turns, id).value, now)
         == RunningTime(Running, startedAt, ChangesOf(ops, id), now)
  {
    hide DoAll;
    RunTimes(cfg, s, ops, id);
    ElapsedFrom(Get(s.turns, id).value, startedAt, ChangesOf(ops, id), now);
  }
}

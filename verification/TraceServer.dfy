/**
 * The canonical side of the trace buffer (open-muse/server/trace.ts): turns and
 * steps under a byte budget, eviction of finished turns, and turns that are
 * disabled when the budget is used up. Every operation yields the new state and
 * the events it publishes, in order.
 */
module TraceServer {
  import opened Common
  import opened TraceModel

  /** The limits on turns and steps, and the JSON sizes they are measured in. */
  datatype Config = Config(
    maxCanonicalBytes: int,
    maxSteps: int,
    turnBytes: Turn -> nat,
    stepBytes: Step -> nat)

  const MAX_EXPIRED := 100

  /** `used` is the history variable of all turn ids that were ever started. */
  datatype Server = Server(
    turns: seq<Turn>,
    expired: seq<Turn>,
    canonicalBytes: int,
    stepCount: int,
    stepCursor: nat,
    disabled: set<nat>,
    used: set<nat>)

  datatype Out = Out(server: Server, bodies: seq<Body>)

  const EMPTY := Server([], [], 0, 0, 0, {}, {})

  datatype StepChange =
    | SetInput(input: string)
    | CompleteStep(at: int, output: Option<string>)
    | FailStep(at: int, error: string)
    | CancelStep(at: int)

  datatype Op =
    | StartTurn(turnId: nat, userMessageId: nat, at: int)
    | SetTurnState(turnId: nat, state: TurnState, at: int)
    | StartStep(turnId: nat, kind: StepKind, text: string, at: int, input: Option<string>)
    | UpdateStep(turnId: nat, stepId: nat, change: StepChange, at: int)
    | CancelRunning(turnId: nat, at: int)

  function NonNegative(x: int): int {
    if x < 0 then 0 else x
  }

  predicate Finished(s: TurnState) {
    s == Completed || s == Failed || s == Cancelled || s == Interrupted
  }

  // ---------------------------------------------------------------- budget

  function FirstFinished(turns: seq<Turn>): (r: Option<Turn>)
    ensures r.Some? ==> r.value in turns
  {
    if turns == [] then None else if Finished(turns[0].state) then Some(turns[0]) else FirstFinished(turns[1..])
  }

  lemma {:induction false} RemoveShrinks(turns: seq<Turn>, t: Turn)
    ensures |Remove(turns, t.turnId)| <= |turns|
    ensures t in turns ==> |Remove(turns, t.turnId)| < |turns|
  {
    if turns != [] {
      RemoveShrinks(turns[1..], t);
    }
  }

  /** The remembered tombstones, the oldest dropped beyond the limit. */
  function Bury(expired: seq<Turn>, tombstone: Turn): seq<Turn> {
    var next := if Get(expired, tombstone.turnId).Some? then Put(expired, tombstone.turnId, tombstone)
        else expired + [tombstone];
    if |next| > MAX_EXPIRED then next[|next| - MAX_EXPIRED..] else next
  }

  /** Takes one finished turn out of the live turns. */
  function EvictOne(cfg: Config, s: Server, oldest: Turn): Server {
    s.(turns := Remove(s.turns, oldest.turnId),
       canonicalBytes := NonNegative(s.canonicalBytes - cfg.turnBytes(oldest)),
       stepCount := NonNegative(s.stepCount - |oldest.steps|),
       expired := Bury(s.expired, Expire(oldest)))
  }

  /** Evicts finished turns, oldest first, until `required` bytes fit or none is left. */
  function EvictFinished(cfg: Config, s: Server, required: nat): Out
    decreases |s.turns|
  {
    if s.canonicalBytes + required <= cfg.maxCanonicalBytes then Out(s, [])
    else
      match FirstFinished(s.turns)
      case None => Out(s, [])
      case Some(oldest) =>
        RemoveShrinks(s.turns, oldest);
        var rest := EvictFinished(cfg, EvictOne(cfg, s, oldest), required);
        Out(rest.server, [TurnEvict(oldest.turnId)] + rest.bodies)
  }

  /** Whether the bytes fit after eviction; if so they are booked. */
  function Reserve(cfg: Config, s: Server, required: nat): (Out, bool) {
    var out := EvictFinished(cfg, s, required);
    if out.server.canonicalBytes + required > cfg.maxCanonicalBytes then (out, false)
    else (Out(out.server.(canonicalBytes := out.server.canonicalBytes + required), out.bodies), true)
  }

  /** Stops recording a turn and says so in a last step. */
  function Disable(s: Server, id: nat, text: string, at: int): Out {
    if id in s.disabled then Out(s, [])
    else
      var off := s.(disabled := s.disabled + {id});
      match Get(s.turns, id)
      case None => Out(off, [])
      case Some(turn) =>
        var step := Step(s.stepCursor + 1, id, 1, SystemStep, text, StepCompleted, at, Some(at), None, None, None);
        var changed := turn.(steps := turn.steps + [step], revision := turn.revision + 1);
        Out(off.(stepCursor := s.stepCursor + 1, turns := Put(s.turns, id, changed)),
            [StepUpsert(id, changed.revision, step)])
  }

  function After(first: Out, second: Out): Out {
    Out(second.server, first.bodies + second.bodies)
  }

  // ---------------------------------------------------------------- operations

  function DoStartTurn(cfg: Config, s: Server, id: nat, userMessageId: nat, at: int): Out {
    if id in s.disabled || Get(s.turns, id).Some? then Out(s, [])
    else
      var turn := Turn(id, userMessageId, 1, Running, at, None, Some(at), 0, []);
      var (out, fits) := Reserve(cfg, s, cfg.turnBytes(turn));
      if !fits then After(out, Disable(out.server, id, "Run details reached their memory limit.", at))
      else
        Out(out.server.(turns := out.server.turns + [turn], used := out.server.used + {id}),
            out.bodies + [TurnUpsert(turn)])
  }

  /** The turn after a change of state, with the running time booked. */
  function WithState(turn: Turn, state: TurnState, at: int): Turn {
    turn.(
      accumulatedActiveMs := turn.accumulatedActiveMs
        + if turn.activeStartedAt.Some? then NonNegative(at - turn.activeStartedAt.value) else 0,
      activeStartedAt := if state == Running then Some(at) else None,
      state := state,
      revision := turn.revision + 1,
      completedAt := if Finished(state) then Some(at) else None)
  }

  function DoSetTurnState(cfg: Config, s: Server, id: nat, state: TurnState, at: int): Out {
    if id in s.disabled then Out(s, [])
    else
      match Get(s.turns, id)
      case None => Out(s, [])
      case Some(turn) =>
        if turn.state == state then Out(s, [])
        else
          var changed := WithState(turn, state, at);
          Out(s.(turns := Put(s.turns, id, changed),
                 canonicalBytes := s.canonicalBytes + cfg.turnBytes(changed) - cfg.turnBytes(turn)),
              [TurnUpsert(changed)])
  }

  /** A new step; making room for it may evict the very turn it belongs to, whose detached copy is then published. */
  function DoStartStep(cfg: Config, s: Server, id: nat, kind: StepKind, text: string, at: int,
      input: Option<string>): Out {
    if id in s.disabled then Out(s, [])
    else if Get(s.turns, id).None? || s.stepCount >= cfg.maxSteps then
      Disable(s, id, "Additional run details were omitted.", at)
    else
      var turn := Get(s.turns, id).value;
      var step := Step(s.stepCursor + 1, id, 1, kind, text, StepRunning, at, None, input, None, None);
      var (out, fits) := Reserve(cfg, s.(stepCursor := s.stepCursor + 1), cfg.stepBytes(step));
      if !fits then After(out, Disable(out.server, id, "Additional run details were omitted.", at))
      else
        var changed := turn.(steps := turn.steps + [step], revision := turn.revision + 1);
        Out(out.server.(turns := Put(out.server.turns, id, changed), stepCount := out.server.stepCount + 1),
            out.bodies + [StepUpsert(id, changed.revision, step)])
  }

  function Changed(step: Step, change: StepChange): Step {
    var next := match change
      case SetInput(input) => step.(input := Some(input))
      case CompleteStep(at, output) =>
        step.(state := StepCompleted, completedAt := Some(at), output := if output.Some? then output else step.output)
      case FailStep(at, error) => step.(state := StepFailed, completedAt := Some(at), error := Some(error))
      case CancelStep(at) => step.(state := StepCancelled, completedAt := Some(at));
    next.(revision := step.revision + 1)
  }

  /** An update beyond the budget is kept but not published; the turn is disabled instead. */
  function DoUpdateStep(cfg: Config, s: Server, id: nat, stepId: nat, change: StepChange, at: int): Out {
    if id in s.disabled || Get(s.turns, id).None? || GetStep(Get(s.turns, id).value.steps, stepId).None? then Out(s, [])
    else
      var turn := Get(s.turns, id).value;
      var step := GetStep(turn.steps, stepId).value;
      var next := Changed(step, change);
      var changed := turn.(steps := PutStep(turn.steps, stepId, next), revision := turn.revision + 1);
      var t := s.(turns := Put(s.turns, id, changed),
                  canonicalBytes := s.canonicalBytes + cfg.stepBytes(next) - cfg.stepBytes(step));
      if t.canonicalBytes > cfg.maxCanonicalBytes then Disable(t, id, "Additional run details were omitted.", at)
      else Out(t, [StepUpsert(id, changed.revision, next)])
  }

  /** Cancels the running ones among `steps`, the steps the turn had when the walk began. */
  function CancelSteps(cfg: Config, s: Server, id: nat, steps: seq<Step>, at: int): Out
    decreases |steps|
  {
    if steps == [] then Out(s, [])
    else if steps[0].state != StepRunning then CancelSteps(cfg, s, id, steps[1..], at)
    else
      var first := DoUpdateStep(cfg, s, id, steps[0].id, CancelStep(at), at);
      After(first, CancelSteps(cfg, first.server, id, steps[1..], at))
  }

  function DoCancelRunning(cfg: Config, s: Server, id: nat, at: int): Out {
    if id in s.disabled || Get(s.turns, id).None? then Out(s, [])
    else CancelSteps(cfg, s, id, Get(s.turns, id).value.steps, at)
  }

  function Do(cfg: Config, s: Server, op: Op): Out {
    match op
    case StartTurn(id, userMessageId, at) => DoStartTurn(cfg, s, id, userMessageId, at)
    case SetTurnState(id, state, at) => DoSetTurnState(cfg, s, id, state, at)
    case StartStep(id, kind, text, at, input) => DoStartStep(cfg, s, id, kind, text, at, input)
    case UpdateStep(id, stepId, change, at) => DoUpdateStep(cfg, s, id, stepId, change, at)
    case CancelRunning(id, at) => DoCancelRunning(cfg, s, id, at)
  }

  function DoAll(cfg: Config, s: Server, ops: seq<Op>): Out
    decreases |ops|
  {
    if ops == [] then Out(s, [])
    else
      var first := Do(cfg, s, ops[0]);
      After(first, DoAll(cfg, first.server, ops[1..]))
  }

  /** The turns a snapshot shows: tombstones first, then the live ones. */
  function Shown(s: Server): seq<Turn> {
    s.expired + s.turns
  }
}

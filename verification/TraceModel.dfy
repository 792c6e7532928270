/**
 * Run traces of OpenMuse: the records kept by the server's buffer
 * (open-muse/server/trace.ts), the events it publishes, and the copy a client
 * keeps by applying them (open-muse/client/trace.ts).
 *
 * Identifiers and times are integers; payloads are their JSON text.
 */
module TraceModel {
  import opened Common

  datatype TurnState = Running | WaitingForApproval | Completed | Failed | Cancelled | Interrupted | Expired

  datatype StepState = StepRunning | StepCompleted | StepFailed | StepCancelled

  datatype StepKind = ModelStep | ToolStep | ApprovalStep | SystemStep

  datatype Step = Step(
    id: nat,
    turnId: nat,
    revision: nat,
    kind: StepKind,
    text: string,
    state: StepState,
    startedAt: int,
    completedAt: Option<int>,
    input: Option<string>,
    output: Option<string>,
    error: Option<string>)

  datatype Turn = Turn(
    turnId: nat,
    userMessageId: nat,
    revision: nat,
    state: TurnState,
    startedAt: int,
    completedAt: Option<int>,
    activeStartedAt: Option<int>,
    accumulatedActiveMs: int,
    steps: seq<Step>)

  datatype Body =
    | TurnUpsert(turn: Turn)
    | StepUpsert(turnId: nat, turnRevision: nat, step: Step)
    | TurnEvict(evicted: nat)
    | ResyncRequired

  /** `bytes` is the length of the event's JSON text. */
  datatype Event = Event(streamId: nat, eventId: nat, createdAt: int, body: Body, bytes: nat)

  datatype Snapshot = Snapshot(streamId: nat, cursor: nat, turns: seq<Turn>)

  // ---------------------------------------------------------------- lists keyed by id

  /** The first turn with this id. */
  function Get(turns: seq<Turn>, id: nat): Option<Turn> {
    if turns == [] then None else if turns[0].turnId == id then Some(turns[0]) else Get(turns[1..], id)
  }

  /** The list with the first turn of this id replaced. */
  function Put(turns: seq<Turn>, id: nat, turn: Turn): seq<Turn> {
    if turns == [] then []
    else if turns[0].turnId == id then [turn] + turns[1..]
    else [turns[0]] + Put(turns[1..], id, turn)
  }

  function Remove(turns: seq<Turn>, id: nat): seq<Turn> {
    if turns == [] then []
    else if turns[0].turnId == id then Remove(turns[1..], id)
    else [turns[0]] + Remove(turns[1..], id)
  }

  function GetStep(steps: seq<Step>, id: nat): Option<Step> {
    if steps == [] then None else if steps[0].id == id then Some(steps[0]) else GetStep(steps[1..], id)
  }

  function PutStep(steps: seq<Step>, id: nat, step: Step): seq<Step> {
    if steps == [] then []
    else if steps[0].id == id then [step] + steps[1..]
    else [steps[0]] + PutStep(steps[1..], id, step)
  }

  lemma {:induction false} GetPut(turns: seq<Turn>, id: nat, turn: Turn, other: nat)
    requires turn.turnId == id
    ensures Get(Put(turns, id, turn), other)
         == if other == id && Get(turns, id).Some? then Some(turn) else Get(turns, other)
  {
    if turns != [] && turns[0].turnId != id {
      GetPut(turns[1..], id, turn, other);
    }
  }

  lemma {:induction false} GetAppend(turns: seq<Turn>, turn: Turn, other: nat)
    ensures Get(turns + [turn], other) ==
              if Get(turns, other).Some? then Get(turns, other) else if turn.turnId == other then Some(turn) else None
  {
    if turns == [] {
      assert turns + [turn] == [turn];
    } else {
      GetAppend(turns[1..], turn, other);
      assert (turns + [turn])[1..] == turns[1..] + [turn];
    }
  }

  lemma {:induction false} GetConcat(a: seq<Turn>, b: seq<Turn>, id: nat)
    ensures Get(a + b, id) == if Get(a, id).Some? then Get(a, id) else Get(b, id)
  {
    if a == [] {
      assert a + b == b;
    } else {
      GetConcat(a[1..], b, id);
      assert (a + b)[1..] == a[1..] + b;
    }
  }

  lemma {:induction false} GetRemove(turns: seq<Turn>, id: nat, other: nat)
    ensures Get(Remove(turns, id), other) == if other == id then None else Get(turns, other)
  {
    if turns != [] {
      GetRemove(turns[1..], id, other);
    }
  }

  lemma {:induction false} GetIs(turns: seq<Turn>, id: nat)
    ensures Get(turns, id).Some? ==> Get(turns, id).value.turnId == id && Get(turns, id).value in turns
    ensures Get(turns, id).None? ==> forall t :: t in turns ==> t.turnId != id
  {
    if turns != [] {
      GetIs(turns[1..], id);
    }
  }

  // ---------------------------------------------------------------- the client

  /** A turn as an eviction event leaves it. */
  function Expire(turn: Turn): Turn {
    turn.(revision := turn.revision + 1, state := Expired, activeStartedAt := None, steps := [])
  }

  function ExpireAll(turns: seq<Turn>, id: nat): seq<Turn> {
    if turns == [] then []
    else [if turns[0].turnId == id then Expire(turns[0]) else turns[0]] + ExpireAll(turns[1..], id)
  }

  function Max(a: nat, b: nat): nat {
    if a >= b then a else b
  }

  /** A turn after a step event. */
  function MergeStep(turn: Turn, turnRevision: nat, step: Step): Turn {
    var known := GetStep(turn.steps, step.id);
    turn.(
      steps := if known.None? then turn.steps + [step]
               else if step.revision >= known.value.revision then PutStep(turn.steps, step.id, step)
               else turn.steps,
      revision := Max(turn.revision, turnRevision))
  }

  function MergeTurn(turns: seq<Turn>, turn: Turn): seq<Turn> {
    var known := Get(turns, turn.turnId);
    if known.None? then turns + [turn]
    else if turn.revision >= known.value.revision then Put(turns, turn.turnId, turn)
    else turns
  }

  function ApplyBody(turns: seq<Turn>, body: Body): seq<Turn> {
    match body
    case TurnUpsert(turn) => MergeTurn(turns, turn)
    case StepUpsert(id, revision, step) =>
      var known := Get(turns, id);
      if known.None? then turns else Put(turns, id, MergeStep(known.value, revision, step))
    case TurnEvict(id) => ExpireAll(turns, id)
    case ResyncRequired => turns
  }

  /** `applyTraceEvent`: events of another stream, old events and resync notices change nothing. */
  function ApplyEvent(s: Snapshot, e: Event): Snapshot {
    if e.body.ResyncRequired? || e.streamId != s.streamId || e.eventId <= s.cursor then s
    else Snapshot(s.streamId, e.eventId, ApplyBody(s.turns, e.body))
  }

  function ApplyEvents(s: Snapshot, events: seq<Event>): Snapshot
    decreases |events|
  {
    if events == [] then s else ApplyEvents(ApplyEvent(s, events[0]), events[1..])
  }

  /** Published events carry the stream and consecutive ids; their creation times and sizes are any. */
  ghost predicate Stamped(streamId: nat, history: seq<Event>, published: seq<Body>) {
    && |history| == |published|
    && forall i :: 0 <= i < |history| ==>
         history[i].streamId == streamId && history[i].eventId == i + 1 && history[i].body == published[i]
  }

  /** None of the events tells a client to resync. */
  ghost predicate NoResync(bodies: seq<Body>) {
    forall i :: 0 <= i < |bodies| ==> !bodies[i].ResyncRequired?
  }

  lemma {:induction false} GetExpireAll(turns: seq<Turn>, id: nat, other: nat)
    ensures Get(ExpireAll(turns, id), other) ==
              if other == id && Get(turns, id).Some? then Some(Expire(Get(turns, id).value)) else Get(turns, other)
  {
    if turns != [] {
      GetExpireAll(turns[1..], id, other);
    }
  }

  /** The turn an event is about. */
  function Subject(body: Body): Option<nat> {
    match body
    case TurnUpsert(turn) => Some(turn.turnId)
    case StepUpsert(id, _, _) => Some(id)
    case TurnEvict(id) => Some(id)
    case ResyncRequired => None
  }

  /** An event changes only the turn it is about. */
  lemma ApplyFrame(turns: seq<Turn>, body: Body, other: nat)
    requires Subject(body) != Some(other)
    ensures Get(ApplyBody(turns, body), other) == Get(turns, other)
  {
    match body
    case TurnUpsert(turn) =>
      GetAppend(turns, turn, other);
      GetPut(turns, turn.turnId, turn, other);
    case StepUpsert(id, revision, step) =>
      GetIs(turns, id);
      if Get(turns, id).Some? {
        GetPut(turns, id, MergeStep(Get(turns, id).value, revision, step), other);
      }
    case TurnEvict(id) => GetExpireAll(turns, id, other);
    case ResyncRequired =>
  }

  // ---------------------------------------------------------------- elapsed time

  /** The running time a client shows for a turn. */
  function ActiveElapsedMs(turn: Turn, now: int): int {
    turn.accumulatedActiveMs
    + if turn.state == Running && turn.activeStartedAt.Some? && now > turn.activeStartedAt.value
      then now - turn.activeStartedAt.value else 0
  }
}

/**
 * Terminal sessions as interleaved steps (guest-agent/src/terminal.rs): the
 * handler, the shell, the two pseudo-terminal workers and the supervisor of each
 * session, and the admission permits they share.
 */
module TerminalSession {

  const MAX_CONCURRENT_TERMINALS := 8

  datatype Child = NotStarted | Alive | Exited | Reaped

  datatype Worker = Idle | Running | Returned | Joined

  /** How far the supervisor thread has come. */
  datatype Supervisor = NotSpawned | Watching | HasStatus(ok: bool) | Signalled(ok: bool) | WriterJoined(ok: bool)
                      | BothJoined(ok: bool) | Reported | Released

  /** The frames put on the outbound channel, by sender. */
  datatype Outbound = Output | ReaderError | HandlerError | Exit | SupervisorError

  datatype Session = Session(
    permit: bool,
    child: Child,
    cancelled: bool,
    writer: Worker,
    reader: Worker,
    supervisor: Supervisor,
    outbound: seq<Outbound>)

  datatype State = State(permits: nat, sessions: map<nat, Session>)

  datatype Step =
    | Admit(id: nat)                    // try_acquire succeeds
    | HandshakeFails(id: nat)           // any early return, before a shell exists
    | Spawn(id: nat)
    | ShellExits(id: nat)
    | Cancel(id: nat)                   // the handler drops its cleanup guard
    | HandlerReports(id: nat)
    | ReaderSends(id: nat)
    | ReaderReturns(id: nat, failed: bool)
    | WriterReturns(id: nat)
    | SupervisorReaps(id: nat, ok: bool)
    | SupervisorSignals(id: nat)
    | SupervisorJoinsWriter(id: nat)
    | SupervisorJoinsReader(id: nat)
    | SupervisorReports(id: nat, encoded: bool)
    | SupervisorReleases(id: nat)

  const ADMITTED := Session(true, NotStarted, false, Idle, Idle, NotSpawned, [])

  predicate Enabled(s: State, step: Step) {
    match step
    case Admit(id) => id !in s.sessions && s.permits > 0
    case HandshakeFails(id) => id in s.sessions && s.sessions[id].supervisor == NotSpawned && s.sessions[id].permit
    case Spawn(id) => id in s.sessions && s.sessions[id].supervisor == NotSpawned && s.sessions[id].permit
    case ShellExits(id) => id in s.sessions && s.sessions[id].child == Alive
    case Cancel(id) => id in s.sessions && s.sessions[id].supervisor != NotSpawned
    case HandlerReports(id) => id in s.sessions && s.sessions[id].supervisor != NotSpawned
    case ReaderSends(id) => id in s.sessions && s.sessions[id].reader == Running
    case ReaderReturns(id, _) => id in s.sessions && s.sessions[id].reader == Running
    case WriterReturns(id) => id in s.sessions && s.sessions[id].writer == Running
    // The wait returns for a shell that has exited by itself, or that is killed because of
    // cancellation or because polling it failed.
    case SupervisorReaps(id, ok) =>
      id in s.sessions && s.sessions[id].supervisor == Watching
          && (s.sessions[id].child == Exited || s.sessions[id].cancelled || !ok)
    case SupervisorSignals(id) => id in s.sessions && s.sessions[id].supervisor.HasStatus?
    case SupervisorJoinsWriter(id) =>
      id in s.sessions && s.sessions[id].supervisor.Signalled? && s.sessions[id].writer == Returned
    case SupervisorJoinsReader(id) =>
      id in s.sessions && s.sessions[id].supervisor.WriterJoined? && s.sessions[id].reader == Returned
    case SupervisorReports(id, _) => id in s.sessions && s.sessions[id].supervisor.BothJoined?
    case SupervisorReleases(id) => id in s.sessions && s.sessions[id].supervisor == Reported
  }

  /** The session after one of its own steps. */
  function Advance(x: Session, step: Step): Session {
    match step
    case Admit(_) => x
    case HandshakeFails(_) => x.(permit := false)
    case Spawn(_) => x.(child := Alive, writer := Running, reader := Running, supervisor := Watching)
    case ShellExits(_) => x.(child := Exited)
    case Cancel(_) => x.(cancelled := true)
    case HandlerReports(_) => x.(outbound := x.outbound + [HandlerError])
    case ReaderSends(_) => x.(outbound := x.outbound + [Output])
    case ReaderReturns(_, failed) =>
      x.(reader := Returned, outbound := if failed then x.outbound + [ReaderError] else x.outbound)
    case WriterReturns(_) => x.(writer := Returned)
    case SupervisorReaps(_, ok) => x.(child := Reaped, supervisor := HasStatus(ok))
    case SupervisorSignals(_) =>
      if x.supervisor.HasStatus? then x.(cancelled := true, supervisor := Signalled(x.supervisor.ok)) else x
    case SupervisorJoinsWriter(_) =>
      if x.supervisor.Signalled? then x.(writer := Joined, supervisor := WriterJoined(x.supervisor.ok)) else x
    case SupervisorJoinsReader(_) =>
      if x.supervisor.WriterJoined? then x.(reader := Joined, supervisor := BothJoined(x.supervisor.ok)) else x
    case SupervisorReports(_, encoded) =>
      if x.supervisor.BothJoined? then
        x.(outbound := x.outbound + [if x.supervisor.ok && encoded then Exit else SupervisorError],
            supervisor := Reported)
      else x
    case SupervisorReleases(_) => x.(permit := false, supervisor := Released)
  }

  function Apply(s: State, step: Step): State
    requires Enabled(s, step)
  {
    match step
    case Admit(id) => State(s.permits - 1, s.sessions[id := ADMITTED])
    case HandshakeFails(id) => State(s.permits + 1, s.sessions[id := Advance(s.sessions[id], step)])
    case SupervisorReleases(id) => State(s.permits + 1, s.sessions[id := Advance(s.sessions[id], step)])
    case _ => State(s.permits, s.sessions[step.id := Advance(s.sessions[step.id], step)])
  }

  // ---------------------------------------------------------------- what every run keeps

  /** The frame with which the supervisor ends a session. */
  predicate Final(f: Outbound) {
    f == Exit || f == SupervisorError
  }

  function CountFinal(out: seq<Outbound>): nat {
    if out == [] then 0 else CountFinal(out[..|out| - 1]) + if Final(out[|out| - 1]) then 1 else 0
  }

  /** Nothing the terminal printed, and no report of the reader, follows the final frame. */
  ghost predicate NothingAfterFinal(out: seq<Outbound>) {
    forall i, j :: 0 <= i < j < |out| && Final(out[i]) ==> out[j] != Output && out[j] != ReaderError
  }

  predicate PastJoins(v: Supervisor) {
    v.BothJoined? || v == Reported || v == Released
  }

  ghost predicate SessionOk(x: Session) {
    && (x.supervisor == NotSpawned ==> x.child == NotStarted && x.reader == Idle && x.writer == Idle)
    && (x.supervisor != NotSpawned && x.supervisor != Released ==> x.permit)
    && (x.supervisor !in {NotSpawned, Watching} ==> x.child == Reaped)
    && (x.supervisor == Released ==> !x.permit)
    && (x.supervisor.Signalled? ==> x.cancelled)
    && (x.supervisor.WriterJoined? || PastJoins(x.supervisor) ==> x.writer == Joined && x.cancelled)
    && (PastJoins(x.supervisor) ==> x.reader == Joined)
    && CountFinal(x.outbound) == (if x.supervisor == Reported || x.supervisor == Released then 1 else 0)
    && NothingAfterFinal(x.outbound)
  }

  ghost function Holders(s: State): set<nat> {
    set id | id in s.sessions && s.sessions[id].permit
  }

  ghost predicate Inv(s: State) {
    && (forall id :: id in s.sessions ==> SessionOk(s.sessions[id]))
    && s.permits + |Holders(s)| == MAX_CONCURRENT_TERMINALS
  }

  lemma {:induction false} NoFinalCounted(out: seq<Outbound>)
    requires CountFinal(out) == 0
    ensures forall i :: 0 <= i < |out| ==> !Final(out[i])
  {
    if out != [] {
      NoFinalCounted(out[..|out| - 1]);
    }
  }

  lemma AppendFrame(out: seq<Outbound>, f: Outbound)
    requires NothingAfterFinal(out) && ((f == Output || f == ReaderError) ==> CountFinal(out) == 0)
    ensures NothingAfterFinal(out + [f])
    ensures CountFinal(out + [f]) == CountFinal(out) + if Final(f) then 1 else 0
  {
    assert (out + [f])[..|out|] == out;
    if f == Output || f == ReaderError {
      NoFinalCounted(out);
    }
  }

  lemma AdvanceKeeps(s: State, step: Step)
    requires Inv(s) && Enabled(s, step) && !step.Admit?
    ensures SessionOk(Advance(s.sessions[step.id], step))
  {
    hide NothingAfterFinal;
    hide CountFinal;
    if Speaks(step) {
      SpeakingKeeps(s, step);
    } else {
      SilentKeeps(s, step);
    }
  }

  /** The steps that may put a frame on the channel. */
  predicate Speaks(step: Step) {
    step.HandlerReports? || step.ReaderSends? || step.ReaderReturns? || step.SupervisorReports?
  }

  lemma SpeakingKeeps(s: State, step: Step)
    requires Inv(s) && Enabled(s, step) && Speaks(step)
    ensures SessionOk(Advance(s.sessions[step.id], step))
  {
    hide NothingAfterFinal;
    hide CountFinal;
    var x := s.sessions[step.id];
    match step
    case HandlerReports(_) => AppendFrame(x.outbound, HandlerError);
    case ReaderSends(_) => AppendFrame(x.outbound, Output);
    case ReaderReturns(_, failed) => AppendFrame(x.outbound, ReaderError);
    case SupervisorReports(_, encoded) =>
      AppendFrame(x.outbound, Exit);
      AppendFrame(x.outbound, SupervisorError);
  }

  lemma SilentKeeps(s: State, step: Step)
    requires Inv(s) && Enabled(s, step) && !step.Admit? && !Speaks(step)
    ensures SessionOk(Advance(s.sessions[step.id], step))
  {
    hide NothingAfterFinal;
    hide CountFinal;
    match step
    case HandshakeFails(_) =>
    case Spawn(_) =>
    case ShellExits(_) =>
    case Cancel(_) =>
    case WriterReturns(_) =>
    case SupervisorReaps(_, _) =>
    case SupervisorSignals(_) =>
    case SupervisorJoinsWriter(_) =>
    case SupervisorJoinsReader(_) =>
    case SupervisorReleases(_) =>
  }

  /** A session gives its permit back only at an early return or at the supervisor's release. */
  lemma AdvancePermit(x: Session, step: Step)
    ensures Advance(x, step).permit == (x.permit && !step.HandshakeFails? && !step.SupervisorReleases?)
  {
  }

  lemma AdmitHolders(s: State, id: nat)
    requires Inv(s) && Enabled(s, Admit(id))
    ensures Holders(Apply(s, Admit(id))) == Holders(s) + {id} && id !in Holders(s)
  {
    hide SessionOk;
  }

  lemma AdvanceHolders(s: State, step: Step)
    requires Inv(s) && Enabled(s, step) && !step.Admit?
    ensures var gone := if step.HandshakeFails? || step.SupervisorReleases? then {step.id} else {};
      gone <= Holders(s) && Holders(Apply(s, step)) == Holders(s) - gone
  {
    hide CountFinal;
    hide NothingAfterFinal;
    hide Advance;
    assert SessionOk(s.sessions[step.id]);
    AdvancePermit(s.sessions[step.id], step);
    var next := Advance(s.sessions[step.id], step);
    assert Apply(s, step).sessions == s.sessions[step.id := next];
    hide Apply;
  }

  lemma HoldersKeep(s: State, step: Step)
    requires Inv(s) && Enabled(s, step)
    ensures Apply(s, step).permits + |Holders(Apply(s, step))| == MAX_CONCURRENT_TERMINALS
  {
    hide Holders;
    hide Advance;
    hide SessionOk;
    if step.Admit? {
      AdmitHolders(s, step.id);
    } else {
      AdvanceHolders(s, step);
    }
  }

  lemma StepKeeps(s: State, step: Step)
    requires Inv(s) && Enabled(s, step)
    ensures Inv(Apply(s, step))
  {
    hide Advance;
    HoldersKeep(s, step);
    if !step.Admit? {
      AdvanceKeeps(s, step);
    }
  }

  ghost predicate Runs(s: State, steps: seq<Step>)
    decreases |steps|
  {
    steps == [] || (Enabled(s, steps[0]) && Runs(Apply(s, steps[0]), steps[1..]))
  }

  ghost function After(s: State, steps: seq<Step>): State
    requires Runs(s, steps)
    decreases |steps|
  {
    if steps == [] then s else After(Apply(s, steps[0]), steps[1..])
  }

  lemma {:induction false} RunKeeps(s: State, steps: seq<Step>)
    requires Inv(s) && Runs(s, steps)
    ensures Inv(After(s, steps))
    decreases |steps|
  {
    if steps != [] {
      StepKeeps(s, steps[0]);
      RunKeeps(Apply(s, steps[0]), steps[1..]);
    }
  }

  const START := State(MAX_CONCURRENT_TERMINALS, map[])

  /**
   * In every interleaving: no output follows the final frame, the supervisor
   * sends one final frame and no more, a started session gives its permit back
   * only after the shell was reaped, both workers were joined and the final frame
   * was sent, and at most eight permits are held.
   */
  lemma EverySessionIsOrderly(steps: seq<Step>)
    requires Runs(START, steps)
    ensures var s := After(START, steps);
      && |Holders(s)| <= MAX_CONCURRENT_TERMINALS
      && forall id :: id in s.sessions ==>
           var x := s.sessions[id];
           && NothingAfterFinal(x.outbound)
           && CountFinal(x.outbound) <= 1
           && (x.supervisor == Released ==> CountFinal(x.outbound) == 1)
           && (!x.permit && x.child != NotStarted ==>
                 x.child == Reaped && x.writer == Joined && x.reader == Joined && CountFinal(x.outbound) == 1)
  {
    assert Holders(START) == {};
    RunKeeps(START, steps);
    var s := After(START, steps);
    forall id | id in s.sessions ensures SessionOk(s.sessions[id]) {}
  }

  // ---------------------------------------------------------------- which final frame

  ghost predicate NoStatus(past: seq<Step>, id: nat) {
    forall ok :: SupervisorReaps(id, ok) !in past
  }

  ghost predicate NoReport(past: seq<Step>, id: nat) {
    forall encoded :: SupervisorReports(id, encoded) !in past
  }

  /** The wait for the shell of session `id` has returned, once, and this way. */
  ghost predicate StatusIs(past: seq<Step>, id: nat, ok: bool) {
    SupervisorReaps(id, ok) in past && SupervisorReaps(id, !ok) !in past
  }

  ghost predicate ReportIs(past: seq<Step>, id: nat, encoded: bool) {
    SupervisorReports(id, encoded) in past && SupervisorReports(id, !encoded) !in past
  }

  predicate Watches(v: Supervisor) {
    v == NotSpawned || v == Watching
  }

  predicate HasReported(v: Supervisor) {
    v == Reported || v == Released
  }

  /** What the session has sent follows from what its supervisor has seen. */
  ghost predicate Told(past: seq<Step>, id: nat, x: Session) {
    if Watches(x.supervisor) then
      NoStatus(past, id) && NoReport(past, id) && Exit !in x.outbound && SupervisorError !in x.outbound
    else if !HasReported(x.supervisor) then
      StatusIs(past, id, x.supervisor.ok) && NoReport(past, id) && Exit !in x.outbound && SupervisorError !in x.outbound
    else
      exists ok, encoded ::
        && StatusIs(past, id, ok) && ReportIs(past, id, encoded)
        && (Exit in x.outbound <==> ok && encoded) && (SupervisorError in x.outbound <==> !(ok && encoded))
  }

  ghost predicate AllTold(past: seq<Step>, s: State) {
    forall id: nat ::
      if id in s.sessions then Told(past, id, s.sessions[id]) else NoStatus(past, id) && NoReport(past, id)
  }

  lemma ToldByOther(past: seq<Step>, step: Step, id: nat, x: Session)
    requires Told(past, id, x) && (step.id != id || !(step.SupervisorReaps? || step.SupervisorReports?))
    ensures Told(past + [step], id, x)
  {
    var more := past + [step];
    assert forall ok :: SupervisorReaps(id, ok) in more <==> SupervisorReaps(id, ok) in past;
    assert forall e :: SupervisorReports(id, e) in more <==> SupervisorReports(id, e) in past;
    if HasReported(x.supervisor) {
      var ok, encoded :| StatusIs(past, id, ok) && ReportIs(past, id, encoded)
        && (Exit in x.outbound <==> ok && encoded) && (SupervisorError in x.outbound <==> !(ok && encoded));
      assert StatusIs(more, id, ok) && ReportIs(more, id, encoded);
    }
  }

  lemma ToldByReaping(past: seq<Step>, id: nat, x: Session, ok: bool)
    requires Told(past, id, x) && x.supervisor == Watching
    ensures Told(past + [SupervisorReaps(id, ok)], id, Advance(x, SupervisorReaps(id, ok)))
  {
    var more := past + [SupervisorReaps(id, ok)];
    assert StatusIs(more, id, ok) && NoReport(more, id);
  }

  lemma ToldByReporting(past: seq<Step>, id: nat, x: Session, encoded: bool)
    requires Told(past, id, x) && x.supervisor.BothJoined?
    ensures Told(past + [SupervisorReports(id, encoded)], id, Advance(x, SupervisorReports(id, encoded)))
  {
    var more := past + [SupervisorReports(id, encoded)];
    var ok := x.supervisor.ok;
    assert StatusIs(more, id, ok) && ReportIs(more, id, encoded);
  }

  /** The other steps of a session neither see nor say how it ended. */
  lemma QuietAdvance(x: Session, step: Step)
    requires !step.SupervisorReaps? && !step.SupervisorReports? && !step.Admit?
    requires step.Spawn? ==> x.supervisor == NotSpawned
    requires step.SupervisorReleases? ==> x.supervisor == Reported
    ensures var y := Advance(x, step);
      && Watches(y.supervisor) == Watches(x.supervisor) && HasReported(y.supervisor) == HasReported(x.supervisor)
      && (!Watches(x.supervisor) && !HasReported(x.supervisor) ==> y.supervisor.ok == x.supervisor.ok)
      && (Exit in y.outbound <==> Exit in x.outbound)
          && (SupervisorError in y.outbound <==> SupervisorError in x.outbound)
  {
  }

  lemma ToldByStep(past: seq<Step>, s: State, step: Step)
    requires AllTold(past, s) && Enabled(s, step)
    ensures AllTold(past + [step], Apply(s, step))
  {
    hide Advance;
    var t, more := Apply(s, step), past + [step];
    forall id: nat
      ensures if id in t.sessions then Told(more, id, t.sessions[id]) else NoStatus(more, id) && NoReport(more, id)
    {
      if id != step.id {
        if id in s.sessions {
          ToldByOther(past, step, id, s.sessions[id]);
        }
      } else if step.Admit? {
      } else {
        var x := s.sessions[id];
        match step
        case SupervisorReaps(_, ok) => ToldByReaping(past, id, x, ok);
        case SupervisorReports(_, encoded) => ToldByReporting(past, id, x, encoded);
        case _ =>
          ToldByOther(past, step, id, x);
          QuietAdvance(x, step);
      }
    }
  }

  lemma {:induction false} RunTold(past: seq<Step>, s: State, steps: seq<Step>)
    requires AllTold(past, s) && Runs(s, steps)
    ensures AllTold(past + steps, After(s, steps))
    decreases |steps|
  {
    hide AllTold;
    hide Apply;
    if steps == [] {
      assert past + steps == past;
    } else {
      ToldByStep(past, s, steps[0]);
      RunTold(past + [steps[0]], Apply(s, steps[0]), steps[1..]);
      assert past + [steps[0]] + steps[1..] == past + steps;
    }
  }

  /**
   * In every run a session sends EXIT exactly when the wait for its shell succeeded
   * and the exit frame could be encoded, and the supervisor's ERROR exactly when it
   * has reported after a failed wait or a failed encoding.
   */
  lemma FinalFrameTells(steps: seq<Step>, id: nat)
    requires Runs(START, steps) && id in After(START, steps).sessions
    ensures var out := After(START, steps).sessions[id].outbound;
      && (Exit in out <==> SupervisorReaps(id, true) in steps && SupervisorReports(id, true) in steps)
      && (SupervisorError in out <==>
            || SupervisorReports(id, false) in steps
            || (SupervisorReaps(id, false) in steps && SupervisorReports(id, true) in steps))
  {
    assert AllTold([], START);
    RunTold([], START, steps);
    assert [] + steps == steps;
    var x := After(START, steps).sessions[id];
    assert Told(steps, id, x);
  }

  // ---------------------------------------------------------------- a session that goes well

  ghost predicate Leads(s: State, steps: seq<Step>, t: State) {
    Runs(s, steps) && After(s, steps) == t
  }

  lemma {:induction false} LeadsOn(s: State, steps: seq<Step>, t: State, step: Step)
    requires Leads(s, steps, t) && Enabled(t, step)
    ensures Leads(s, steps + [step], Apply(t, step))
    decreases |steps|
  {
    hide Apply;
    hide Enabled;
    var all := steps + [step];
    if steps == [] {
      assert s == t && all[0] == step && all[1..] == [];
      var next := Apply(s, step);
      assert Leads(next, [], next);
      assert Runs(s, all) && After(s, all) == After(next, all[1..]);
    } else {
      LeadsOn(Apply(s, steps[0]), steps[1..], t, step);
      assert all[0] == steps[0] && all[1..] == steps[1..] + [step];
    }
  }

  /** Session `id` alone, in state `x`. */
  function Alone(id: nat, x: Session): State {
    State(if x.permit then 7 else 8, map[id := x])
  }

  lemma AloneStep(steps: seq<Step>, id: nat, x: Session, step: Step)
    requires Leads(START, steps, Alone(id, x)) && Enabled(Alone(id, x), step) && !step.Admit? && step.id == id
    requires x.permit && (Advance(x, step).permit <==> !step.HandshakeFails? && !step.SupervisorReleases?)
    ensures Leads(START, steps + [step], Alone(id, Advance(x, step)))
  {
    hide Leads;
    hide Advance;
    var t := Apply(Alone(id, x), step);
    assert t.sessions == map[id := Advance(x, step)];
    assert t == Alone(id, Advance(x, step));
    LeadsOn(START, steps, Alone(id, x), step);
  }

  /**
   * A session can run its course: the shell prints, exits and is reaped, the workers
   * return and are joined, the supervisor sends EXIT, and the permit is free again.
   */
  lemma SessionRunsItsCourse(id: nat)
    ensures exists steps :: Leads(START, steps, State(8, map[id :=
      Session(false, Reaped, true, Joined, Joined, Released, [Output, Exit])]))
  {
    var x0 := ADMITTED;
    assert Leads(START, [], START);
    assert Apply(START, Admit(id)) == Alone(id, x0);
    LeadsOn(START, [], START, Admit(id));
    var p := [] + [Admit(id)];
    var x1 := Advance(x0, Spawn(id));
    AloneStep(p, id, x0, Spawn(id));
    p := p + [Spawn(id)];
    var x2 := Advance(x1, ReaderSends(id));
    AloneStep(p, id, x1, ReaderSends(id));
    p := p + [ReaderSends(id)];
    var x3 := Advance(x2, ShellExits(id));
    AloneStep(p, id, x2, ShellExits(id));
    p := p + [ShellExits(id)];
    var x4 := Advance(x3, SupervisorReaps(id, true));
    AloneStep(p, id, x3, SupervisorReaps(id, true));
    p := p + [SupervisorReaps(id, true)];
    assert x4 == Session(true, Reaped, false, Running, Running, HasStatus(true), [Output]);
    CourseEnds(p, id, x4);
  }

  lemma CourseEnds(start: seq<Step>, id: nat, x4: Session)
    requires x4 == Session(true, Reaped, false, Running, Running, HasStatus(true), [Output])
    requires Leads(START, start, Alone(id, x4))
    ensures exists steps :: Leads(START, steps, State(8, map[id :=
      Session(false, Reaped, true, Joined, Joined, Released, [Output, Exit])]))
  {
    hide Leads;
    var p := start;
    var x5 := Advance(x4, SupervisorSignals(id));
    AloneStep(p, id, x4, SupervisorSignals(id));
    p := p + [SupervisorSignals(id)];
    var x6 := Advance(x5, WriterReturns(id));
    AloneStep(p, id, x5, WriterReturns(id));
    p := p + [WriterReturns(id)];
    var x7 := Advance(x6, SupervisorJoinsWriter(id));
    AloneStep(p, id, x6, SupervisorJoinsWriter(id));
    p := p + [SupervisorJoinsWriter(id)];
    var x8 := Advance(x7, ReaderReturns(id, false));
    AloneStep(p, id, x7, ReaderReturns(id, false));
    p := p + [ReaderReturns(id, false)];
    var x9 := Advance(x8, SupervisorJoinsReader(id));
    AloneStep(p, id, x8, SupervisorJoinsReader(id));
    p := p + [SupervisorJoinsReader(id)];
    var x10 := Advance(x9, SupervisorReports(id, true));
    AloneStep(p, id, x9, SupervisorReports(id, true));
    p := p + [SupervisorReports(id, true)];
    var x11 := Advance(x10, SupervisorReleases(id));
    AloneStep(p, id, x10, SupervisorReleases(id));
    p := p + [SupervisorReleases(id)];
    assert x11.outbound == [Output, Exit];
    assert x11 == Session(false, Reaped, true, Joined, Joined, Released, [Output, Exit]);
  }
}

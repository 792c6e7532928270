/**
 * The managed environment as a store (guest-agent/src/env.rs): put and delete as
 * locked read-modify-write on the file, alone and interleaved, against a plain map.
 */
module EnvStore {
  import opened Common
  import opened EnvScript

  datatype Request = Put(vars: Vars, merge: bool) | Delete(keys: seq<string>)

  /** The plain map after a request. */
  function Update(vars: Vars, req: Request): Vars {
    match req
    case Put(more, merge) => (if merge then vars else map[]) + more
    case Delete(keys) => map k | k in vars && k !in keys :: vars[k]
  }

  predicate KeysOk(req: Request) {
    match req
    case Put(vars, _) => forall k :: k in vars ==> ValidKey(k)
    case Delete(keys) => forall i :: 0 <= i < |keys| ==> ValidKey(keys[i])
  }

  /** The variables a file holds; a missing file holds none. */
  function Held(content: Option<string>): Vars {
    if content.None? then map[] else ReadScript(content.value)
  }

  /** The value of a request carries no newline. */
  ghost predicate ValuesOk(req: Request) {
    req.Put? ==> AllNewlineFree(req.vars)
  }

  lemma HeldShape(content: Option<string>)
    ensures AllNewlineFree(Held(content)) && AllKeysValid(Held(content))
  {
    if content.Some? {
      ReadShape(content.value);
    }
  }

  lemma UpdateShape(vars: Vars, req: Request)
    requires AllKeysValid(vars) && AllNewlineFree(vars) && KeysOk(req)
    ensures AllKeysValid(Update(vars, req))
    ensures AllNewlineFree(Update(vars, req)) <==> ValuesOk(req)
  {
    if req.Put? && !AllNewlineFree(req.vars) {
      var k :| k in req.vars && !NewlineFree(req.vars[k]);
      assert Update(vars, req)[k] == req.vars[k];
    }
  }

  /** How the environment of a call behaves: the lock, the read, and the atomic write. */
  datatype WriteOutcome = WriteOk | WriteFailedBeforeRename | WriteFailedAfterRename

  datatype Io = Io(lockAvailable: bool, readable: bool, write: WriteOutcome)

  datatype Response = Response(ok: bool, vars: Vars)

  /** Whether a request comes as far as writing; only a replacing put does without reading the file. */
  predicate Admitted(req: Request, content: Option<string>, io: Io) {
    KeysOk(req) && io.lockAvailable && ((req.Put? && !req.merge) || content.None? || io.readable)
  }

  class EnvFile {
    var content: Option<string>

    /**
     * A put: refused without a trace unless every key is valid, the lock is
     * available and a merge can read the file; otherwise merged into or replacing
     * what the file holds. Once the write reached the file, the file holds the
     * updated map exactly when no new value has a newline.
     */
    method PutManaged(vars: Vars, merge: bool, io: Io) returns (r: Response)
      modifies this
      ensures r.ok <==> Admitted(Put(vars, merge), old(content), io) && io.write.WriteOk?
      ensures r.vars == if r.ok then Update(old(Held(content)), Put(vars, merge)) else map[]
      ensures !Admitted(Put(vars, merge), old(content), io) || io.write.WriteFailedBeforeRename? ==>
          content == old(content)
      ensures Admitted(Put(vars, merge), old(content), io) && !io.write.WriteFailedBeforeRename? ==>
        (Held(content) == Update(old(Held(content)), Put(vars, merge)) <==> ValuesOk(Put(vars, merge)))
    {
      if !KeysOk(Put(vars, merge)) || !io.lockAvailable {
        return Response(false, map[]);
      }
      HeldShape(content);
      var current: Vars := map[];
      if merge {
        if content.Some? && !io.readable {
          return Response(false, map[]);
        }
        current := ReadOrEmpty();
      }
      UpdateShape(current, Put(vars, merge));
      r := WriteVars(current + vars, io);
    }

    /** A delete: the named keys disappear and every other variable stays. */
    method DeleteManaged(keys: seq<string>, io: Io) returns (r: Response)
      modifies this
      ensures r.ok <==> Admitted(Delete(keys), old(content), io) && io.write.WriteOk?
      ensures r.vars == if r.ok then Update(old(Held(content)), Delete(keys)) else map[]
      ensures !Admitted(Delete(keys), old(content), io) || io.write.WriteFailedBeforeRename? ==> content == old(content)
      ensures Admitted(Delete(keys), old(content), io) && !io.write.WriteFailedBeforeRename? ==>
        Held(content) == Update(old(Held(content)), Delete(keys))
    {
      if !KeysOk(Delete(keys)) || !io.lockAvailable || (content.Some? && !io.readable) {
        return Response(false, map[]);
      }
      HeldShape(content);
      var current := ReadOrEmpty();
      ghost var before := current;
      for i := 0 to |keys|
        invariant current == Update(before, Delete(keys[..i]))
      {
        current := current - {keys[i]};
      }
      assert keys[..|keys|] == keys;
      UpdateShape(before, Delete(keys));
      r := WriteVars(current, io);
    }

    method ReadOrEmpty() returns (vars: Vars)
      ensures vars == Held(content)
    {
      vars := map[];
      if content.Some? {
        vars := ReadEnvFile(content.value);
      }
    }

    /** The atomic write: nothing, or the whole new script. */
    method WriteVars(vars: Vars, io: Io) returns (r: Response)
      requires AllKeysValid(vars)
      modifies this
      ensures r.ok <==> io.write.WriteOk?
      ensures r.vars == if r.ok then vars else map[]
      ensures io.write.WriteFailedBeforeRename? ==> content == old(content)
      ensures !io.write.WriteFailedBeforeRename? ==> content.Some? && (Held(content) == vars <==> AllNewlineFree(vars))
    {
      var entries := ListVars(vars);
      RoundTripIffNewlineFree(entries, vars);
      if io.write.WriteFailedBeforeRename? {
        return Response(false, map[]);
      }
      content := Some(Script(entries));
      return if io.write.WriteOk? then Response(true, vars) else Response(false, map[]);
    }
  }

  /** The entries of a map, in some order. */
  method ListVars(vars: Vars) returns (entries: seq<Entry>)
    ensures Lists(entries, vars)
  {
    entries := [];
    var left := vars.Keys;
    while left != {}
      invariant left <= vars.Keys
      invariant Denotes(map[], entries) == map k | k in vars && k !in left :: vars[k]
      invariant forall e :: e in entries ==> e.key in vars && vars[e.key] == e.value
      decreases |left|
    {
      var k :| k in left;
      DenotesSnoc(map[], entries, Entry(k, vars[k]));
      entries := entries + [Entry(k, vars[k])];
      left := left - {k};
    }
  }

  lemma {:induction false} DenotesSnoc(vars: Vars, entries: seq<Entry>, e: Entry)
    ensures Denotes(vars, entries + [e]) == Denotes(vars, entries)[e.key := e.value]
    decreases |entries|
  {
    if entries == [] {
      assert entries + [e] == [e];
      assert [e][1..] == [];
    } else {
      DenotesSnoc(vars[entries[0].key := entries[0].value], entries[1..], e);
      assert (entries + [e])[1..] == entries[1..] + [e];
    }
  }

  // ---------------------------------------------------------------- interleaved requests

  /** Where a request thread stands; `Loaded` holds what it is about to write. */
  datatype Stage = Ready | Locked | Loaded(vars: Vars) | Done(wrote: bool)

  datatype Thread = Thread(req: Request, stage: Stage)

  /**
   * `committed` is the history of requests whose write reached the file, oldest
   * first, and `writers` the threads they came from.
   */
  datatype State = State(
    content: Option<string>,
    holder: Option<nat>,
    threads: map<nat, Thread>,
    committed: seq<Request>,
    writers: seq<nat>)

  datatype Step =
    | Lock(t: nat)
    | Load(t: nat)
    | Commit(t: nat, entries: seq<Entry>)
    | Abort(t: nat)

  predicate At(s: State, t: nat, stage: Stage) {
    t in s.threads && s.threads[t].stage == stage
  }

  ghost predicate Enabled(s: State, step: Step) {
    match step
    case Lock(t) => At(s, t, Ready) && s.holder.None? && KeysOk(s.threads[t].req)
    case Load(t) => At(s, t, Locked)
    case Commit(t, entries) => t in s.threads && s.threads[t].stage.Loaded? && Lists(entries, s.threads[t].stage.vars)
    case Abort(t) => t in s.threads && (s.threads[t].stage == Locked || s.threads[t].stage.Loaded?)
  }

  function Move(s: State, t: nat, stage: Stage): map<nat, Thread>
    requires t in s.threads
  {
    s.threads[t := s.threads[t].(stage := stage)]
  }

  /**
   * The next state. A thread reads and writes the file in separate steps, and keeps
   * the lock from before the read to after the write.
   */
  ghost function Apply(s: State, step: Step): State
    requires Enabled(s, step)
  {
    match step
    case Lock(t) => s.(holder := Some(t), threads := Move(s, t, Locked))
    case Load(t) =>
      var req := s.threads[t].req;
      var base := if req.Put? && !req.merge then map[] else Held(s.content);
      s.(threads := Move(s, t, Loaded(Update(base, req))))
    case Commit(t, entries) =>
      s.(content := Some(Script(entries)), holder := None, threads := Move(s, t, Done(true)),
         committed := s.committed + [s.threads[t].req], writers := s.writers + [t])
    case Abort(t) => s.(holder := None, threads := Move(s, t, Done(false)))
  }

  function UpdateAll(vars: Vars, reqs: seq<Request>): Vars {
    if reqs == [] then vars else Update(UpdateAll(vars, reqs[..|reqs| - 1]), reqs[|reqs| - 1])
  }

  /** Only the lock holder is between lock and write, and what it loaded is current. */
  ghost predicate Inv(s: State, initial: Vars) {
    && Held(s.content) == UpdateAll(initial, s.committed)
    && (forall t :: t in s.threads ==> ValuesOk(s.threads[t].req))
    && (forall t :: t in s.threads && s.threads[t].stage != Ready && !s.threads[t].stage.Done? ==>
          s.holder == Some(t) && KeysOk(s.threads[t].req))
    && (forall t :: t in s.threads && s.threads[t].stage.Loaded? ==>
          s.threads[t].stage.vars == Update(Held(s.content), s.threads[t].req))
  }

  lemma StepKeeps(s: State, step: Step, initial: Vars)
    requires Inv(s, initial) && Enabled(s, step)
    ensures Inv(Apply(s, step), initial)
  {
    hide ReadScript;
    hide Script;
    hide Lists;
    hide KeysOk;
    if step.Commit? {
      CommitKeeps(s, step.t, step.entries, initial);
    } else if step.Load? {
      LoadKeeps(s, step.t, initial);
    }
  }

  lemma LoadKeeps(s: State, t: nat, initial: Vars)
    requires Inv(s, initial) && Enabled(s, Load(t))
    ensures Inv(Apply(s, Load(t)), initial)
  {
    hide ReadScript;
    hide UpdateAll;
    hide KeysOk;
    hide ValuesOk;
  }

  /** What the written script holds is the update of what the file held. */
  lemma CommitHolds(content: Option<string>, req: Request, entries: seq<Entry>)
    requires KeysOk(req) && ValuesOk(req) && Lists(entries, Update(Held(content), req))
    ensures Held(Some(Script(entries))) == Update(Held(content), req)
  {
    hide Update;
    hide Script;
    hide ReadScript;
    HeldShape(content);
    UpdateShape(Held(content), req);
    RoundTripIffNewlineFree(entries, Update(Held(content), req));
  }

  lemma CommitKeeps(s: State, t: nat, entries: seq<Entry>, initial: Vars)
    requires Inv(s, initial) && Enabled(s, Commit(t, entries))
    ensures Inv(Apply(s, Commit(t, entries)), initial)
  {
    hide Held;
    hide Script;
    hide Update;
    hide Lists;
    hide KeysOk;
    hide ValuesOk;
    hide UpdateAll;
    var req := s.threads[t].req;
    CommitHolds(s.content, req, entries);
    UpdateAllSnoc(initial, s.committed, req);
  }

  lemma UpdateAllSnoc(vars: Vars, reqs: seq<Request>, req: Request)
    ensures UpdateAll(vars, reqs + [req]) == Update(UpdateAll(vars, reqs), req)
  {
    assert (reqs + [req])[..|reqs|] == reqs;
  }

  /** The history lists the request of every thread that wrote, once, and nothing else. */
  ghost predicate Ledger(s: State) {
    && |s.writers| == |s.committed|
    && (forall i :: 0 <= i < |s.writers| ==> s.writers[i] in s.threads && s.committed[i] == s.threads[s.writers[i]].req)
    && (forall i, j :: 0 <= i < j < |s.writers| ==> s.writers[i] != s.writers[j])
    && (forall t :: t in s.threads ==> (t in s.writers <==> s.threads[t].stage == Done(true)))
  }

  lemma StepKeepsLedger(s: State, step: Step)
    requires Ledger(s) && Enabled(s, step)
    ensures Ledger(Apply(s, step))
  {
  }

  ghost predicate Runs(s: State, steps: seq<Step>)
    decreases |steps|
  {
    steps == [] || (Enabled(s, steps[0]) && Runs(Apply(s, steps[0]), steps[1..]))
  }

  ghost function Final(s: State, steps: seq<Step>): State
    requires Runs(s, steps)
    decreases |steps|
  {
    if steps == [] then s else Final(Apply(s, steps[0]), steps[1..])
  }

  lemma {:induction false} RunKeeps(s: State, steps: seq<Step>, initial: Vars)
    requires Inv(s, initial) && Ledger(s) && Runs(s, steps)
    ensures Inv(Final(s, steps), initial) && Ledger(Final(s, steps))
    decreases |steps|
  {
    if steps != [] {
      StepKeeps(s, steps[0], initial);
      StepKeepsLedger(s, steps[0]);
      RunKeeps(Apply(s, steps[0]), steps[1..], initial);
    }
  }

  /**
   * For every interleaving of puts and deletes with newline-free values, the file
   * holds what a plain map holds after the requests of exactly those threads that
   * wrote, each once, in the order in which they wrote: no update is lost and none
   * is applied to stale contents.
   */
  lemma StoreRefinesMap(s: State, steps: seq<Step>)
    requires s.holder.None? && s.committed == [] && s.writers == [] && Runs(s, steps)
    requires forall t :: t in s.threads ==> s.threads[t].stage == Ready && ValuesOk(s.threads[t].req)
    ensures Held(Final(s, steps).content) == UpdateAll(Held(s.content), Final(s, steps).committed)
    ensures Ledger(Final(s, steps))
  {
    RunKeeps(s, steps, Held(s.content));
  }

  /** A variable set by one merge is there after any later merges that do not mention it. */
  lemma {:induction false} MergeNotLost(vars: Vars, reqs: seq<Request>, i: nat, k: string)
    requires i < |reqs| && reqs[i].Put? && k in reqs[i].vars
    requires forall j :: i < j < |reqs| ==> reqs[j].Put? && reqs[j].merge && k !in reqs[j].vars
    ensures k in UpdateAll(vars, reqs) && UpdateAll(vars, reqs)[k] == reqs[i].vars[k]
  {
    if i < |reqs| - 1 {
      MergeNotLost(vars, reqs[..|reqs| - 1], i, k);
    }
  }
}

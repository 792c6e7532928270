/**
 * The trace buffer object (open-muse/server/trace.ts): it performs the
 * operations of `TraceServer`, publishes their events, keeps a bounded window of
 * them for replay, and serves subscribers.
 */
module TraceBuffers {
  import opened Common
  import opened TraceModel
  import opened TraceServer
  import opened TraceReplica

  function TotalBytes(events: seq<Event>): nat {
    if events == [] then 0 else TotalBytes(events[..|events| - 1]) + events[|events| - 1].bytes
  }

  lemma {:induction false} TotalBytesDrop(events: seq<Event>)
    requires events != []
    ensures TotalBytes(events) == events[0].bytes + TotalBytes(events[1..])
  {
    if |events| == 1 {
      assert events[..0] == [] && events[1..] == [];
    } else {
      var init := events[..|events| - 1];
      TotalBytesDrop(init);
      assert events[1..][..|events| - 2] == init[1..];
      assert events[1..][|events| - 2] == events[|events| - 1];
    }
  }

  /** A subscriber: the event behind which its deliveries begin, and what it has been given. */
  datatype Listener = Listener(resumedAfter: nat, received: seq<Event>)

  datatype Cursor = Cursor(streamId: nat, eventId: nat)

  /**
   * The replay window is the tail of the history from `oldest`, but not from before
   * the last close, after `closed` events; its size is exact.
   */
  ghost predicate Window(history: seq<Event>, oldest: nat, closed: nat, journal: seq<Event>, size: int) {
    && 1 <= oldest <= |history| + 1 && closed <= |history|
    && journal == history[Max(oldest - 1, closed)..]
    && size == TotalBytes(journal)
  }

  /** Every subscriber has been given every event after the one it resumed behind, once and in order. */
  ghost predicate Served(listeners: map<nat, Listener>, history: seq<Event>) {
    forall k :: k in listeners ==>
      listeners[k].resumedAfter <= |history| && listeners[k].received == history[listeners[k].resumedAfter..]
  }

  lemma AppendToWindow(history: seq<Event>, oldest: nat, closed: nat, journal: seq<Event>, size: int, e: Event)
    requires Window(history, oldest, closed, journal, size)
    ensures Window(history + [e], oldest, closed, journal + [e], size + e.bytes)
  {
    var start := Max(oldest - 1, closed);
    assert (history + [e])[start..] == history[start..] + [e];
    assert (journal + [e])[..|journal|] == journal;
  }

  lemma DropFromWindow(streamId: nat, history: seq<Event>, published: seq<Body>, oldest: nat, closed: nat,
                       journal: seq<Event>, size: int)
    requires Window(history, oldest, closed, journal, size) && Stamped(streamId, history, published) && journal != []
    ensures Window(history, journal[0].eventId + 1, closed, journal[1..], size - journal[0].bytes)
    ensures journal[0].eventId >= oldest
  {
    TotalBytesDrop(journal);
    var start := Max(oldest - 1, closed);
    assert journal[0] == history[start] && journal[0].eventId == start + 1;
    assert history[start..][1..] == history[start + 1..];
  }

  function Notify(listeners: map<nat, Listener>, e: Event): map<nat, Listener> {
    map k | k in listeners :: listeners[k].(received := listeners[k].received + [e])
  }

  lemma NotifyKeeps(listeners: map<nat, Listener>, e: Event)
    ensures Notify(listeners, e).Keys == listeners.Keys
    ensures forall k :: k in listeners ==> Notify(listeners, e)[k].resumedAfter == listeners[k].resumedAfter
  {
  }

  lemma StampMore(streamId: nat, history: seq<Event>, published: seq<Body>, e: Event)
    requires Stamped(streamId, history, published) && e.streamId == streamId && e.eventId == |history| + 1
    ensures Stamped(streamId, history + [e], published + [e.body])
  {
  }

  lemma ServeAll(listeners: map<nat, Listener>, history: seq<Event>, e: Event)
    requires Served(listeners, history)
    ensures Served(Notify(listeners, e), history + [e])
  {
    forall k | k in listeners
      ensures listeners[k].received + [e] == (history + [e])[listeners[k].resumedAfter..]
    {
    }
  }

  lemma NothingPublished(streamId: nat)
    ensures Stamped(streamId, [], []) && Window([], 1, 0, [], 0) && Served(map[], [])
  {
  }

  lemma ServeOne(listeners: map<nat, Listener>, history: seq<Event>, id: nat, start: nat)
    requires Served(listeners, history) && start <= |history|
    ensures Served(listeners[id := Listener(start, history[start..])], history)
  {
  }

  class TraceBuffer {
    const cfg: Config
    const streamId: nat
    const maxJournalEvents: nat
    const maxJournalBytes: nat
    var state: Server
    var cursor: nat
    var journal: seq<Event>
    var journalBytes: int
    var oldestEventId: nat
    var listeners: map<nat, Listener>
    ghost var history: seq<Event>     // every event ever published
    ghost var published: seq<Body>    // and its body
    ghost var performed: seq<Op>      // every operation performed
    ghost var closed: nat             // how many events had been published at the last close

    ghost predicate Valid()
      reads this
    {
      && cursor == |history|
      && Stamped(streamId, history, published)
      && Window(history, oldestEventId, closed, journal, journalBytes)
      && |journal| <= maxJournalEvents && journalBytes <= maxJournalBytes
      && Served(listeners, history)
    }

    /** The state and the published events are those of the operations performed; closing ends this. */
    ghost predicate Faithful()
      reads this
    {
      DoAll(cfg, EMPTY, performed) == Out(state, published)
    }

    constructor (cfg: Config, streamId: nat, maxJournalEvents: nat, maxJournalBytes: nat)
      ensures Valid() && Faithful() && state == EMPTY && published == [] && listeners == map[] && closed == 0
      ensures this.cfg == cfg && this.streamId == streamId && performed == []
    {
      hide Stamped;
      hide Window;
      hide Served;
      hide DoAll;
      NothingPublished(streamId);
      NothingDone(cfg);
      this.cfg, this.streamId := cfg, streamId;
      this.maxJournalEvents, this.maxJournalBytes := maxJournalEvents, maxJournalBytes;
      state, cursor, journal, journalBytes, oldestEventId, listeners := EMPTY, 0, [], 0, 1, map[];
      history, published, performed, closed := [], [], [], 0;
    }

    /** Stamps an event, appends it to the window, drops what exceeds the limits, and notifies every subscriber. */
    method Publish(body: Body, at: int, bytes: nat)
      requires Valid()
      modifies this`cursor, this`journal, this`journalBytes, this`oldestEventId, this`listeners, this`history,
               this`published
      ensures Valid()
      ensures published == old(published) + [body] && old(history) <= history
      ensures listeners.Keys == old(listeners.Keys)
      ensures forall k :: k in listeners ==> listeners[k].resumedAfter == old(listeners)[k].resumedAfter
    {
      hide Stamped;
      hide Window;
      hide Served;
      hide Notify;
      var full := Event(streamId, cursor + 1, at, body, bytes);
      StampMore(streamId, history, published, full);
      AppendToWindow(history, oldestEventId, closed, journal, journalBytes, full);
      ServeAll(listeners, history, full);
      cursor := cursor + 1;
      history, published := history + [full], published + [body];
      journal := journal + [full];
      journalBytes := journalBytes + bytes;
      Trim();
      NotifyKeeps(listeners, full);
      listeners := Notify(listeners, full);
    }

    /** Drops the oldest events until the window is within both limits. */
    method Trim()
      requires Window(history, oldestEventId, closed, journal, journalBytes) && Stamped(streamId, history, published)
      modifies this`journal, this`journalBytes, this`oldestEventId
      ensures Window(history, oldestEventId, closed, journal, journalBytes)
      ensures |journal| <= maxJournalEvents && journalBytes <= maxJournalBytes
      ensures oldestEventId >= old(oldestEventId)
    {
      hide Stamped;
      while |journal| > maxJournalEvents || journalBytes > maxJournalBytes
        invariant Window(history, oldestEventId, closed, journal, journalBytes)
        invariant oldestEventId >= old(oldestEventId)
        decreases |journal|
      {
        DropFromWindow(streamId, history, published, oldestEventId, closed, journal, journalBytes);
        var removed := journal[0];
        journal := journal[1..];
        journalBytes := journalBytes - removed.bytes;
        oldestEventId := removed.eventId + 1;
      }
    }

    /**
     * A subscriber with a cursor is told to resync exactly when the window does
     * not reach back to it; otherwise it is given every later event once and in
     * order, now and, by `Served`, for as long as it stays subscribed. What was
     * published up to the last close is gone, and nobody is told.
     */
    method Subscribe(from: Option<Cursor>, id: nat) returns (resync: bool)
      requires Valid() && id !in listeners
      modifies this`listeners
      ensures Valid()
      ensures resync <==> from.Some? && (from.value.streamId != streamId || from.value.eventId > |history|
                                         || from.value.eventId < oldestEventId - 1)
      ensures resync ==> listeners == old(listeners)
      ensures !resync ==> listeners == old(listeners)[id :=
        var start := Max(if from.Some? then from.value.eventId else |history|, closed);
        Listener(start, history[start..])]
    {
      hide Served;
      if from.Some? && (from.value.streamId != streamId || from.value.eventId > cursor
                        || from.value.eventId < oldestEventId - 1) {
        return true;
      }
      var start := if from.Some? then from.value.eventId else cursor;
      var received := [];
      if from.Some? {
        received := Later(start);
      }
      ghost var begin := Max(start, closed);
      assert received == history[begin..];
      ServeOne(listeners, history, id, begin);
      listeners := listeners[id := Listener(cursor - |received|, received)];
      return false;
    }

    /** The events of the window behind `start`. */
    method Later(start: nat) returns (received: seq<Event>)
      requires Valid() && oldestEventId - 1 <= start <= cursor
      ensures received == history[Max(start, closed)..]
    {
      hide Served;
      hide TotalBytes;
      received := [];
      ghost var first := Max(oldestEventId - 1, closed);
      ghost var lead := Max(start, closed) - first;
      for i := 0 to |journal|
        invariant received == if i <= lead then [] else journal[lead..i]
      {
        assert journal[i] == history[first + i];
        if journal[i].eventId > start {
          received := received + [journal[i]];
        }
      }
      assert received == journal[lead..];
      assert journal[lead..] == history[first + lead..];
    }

    method Unsubscribe(id: nat)
      requires Valid()
      modifies this`listeners
      ensures Valid() && listeners == old(listeners) - {id}
    {
      listeners := listeners - {id};
    }

    /** One operation: the canonical state changes and its events go out in order. */
    method Perform(op: Op, at: int, sizes: seq<nat>)
      requires Valid() && |sizes| >= |Do(cfg, state, op).bodies|
      modifies this
      ensures Valid() && (old(Faithful()) ==> Faithful())
      ensures state == Do(cfg, old(state), op).server && performed == old(performed) + [op]
      ensures published == old(published) + Do(cfg, old(state), op).bodies && old(history) <= history
      ensures listeners.Keys == old(listeners.Keys) && closed == old(closed)
      ensures forall k :: k in listeners ==> listeners[k].resumedAfter == old(listeners)[k].resumedAfter
    {
      hide Do;
      hide Stamped;
      hide Window;
      hide Served;
      var out := Do(cfg, state, op);
      DoOneMore(cfg, performed, op);
      state := out.server;
      performed := performed + [op];
      for i := 0 to |out.bodies|
        invariant Valid()
        invariant state == out.server && performed == old(performed) + [op] && closed == old(closed)
        invariant published == old(published) + out.bodies[..i] && old(history) <= history
        invariant listeners.Keys == old(listeners.Keys)
        invariant forall k :: k in listeners ==> listeners[k].resumedAfter == old(listeners)[k].resumedAfter
      {
        Publish(out.bodies[i], at, sizes[i]);
        assert out.bodies[..i + 1] == out.bodies[..i] + [out.bodies[i]];
      }
      assert out.bodies[..|out.bodies|] == out.bodies;
    }

    /** The last notice, after which the buffer is empty. */
    method Close(at: int, bytes: nat)
      requires Valid()
      modifies this
      ensures Valid() && closed == |history| && journal == [] && listeners == map[]
      ensures state.turns == [] && state.expired == [] && state.canonicalBytes == 0 && state.stepCount == 0
      ensures published == old(published) + [ResyncRequired] && old(history) <= history
    {
      Publish(ResyncRequired, at, bytes);
      listeners := map[];
      state := state.(turns := [], expired := [], canonicalBytes := 0, stepCount := 0);
      journal, journalBytes := [], 0;
      closed := |history|;
    }

    /** What a client is shown: tombstones and live turns, as of the last event. */
    function CurrentSnapshot(): Snapshot
      reads this
    {
      Snapshot(streamId, cursor, Shown(state))
    }

    /** A client takes a snapshot and subscribes at its cursor: it is never told to resync. */
    method Attach(id: nat) returns (client: Snapshot)
      requires Valid() && id !in listeners
      modifies this`listeners
      ensures Valid() && client == CurrentSnapshot() && listeners == old(listeners)[id := Listener(client.cursor, [])]
      ensures Faithful() ==> client == SnapshotAfter(cfg, streamId, performed)
    {
      hide Served;
      hide DoAll;
      hide TotalBytes;
      client := CurrentSnapshot();
      assert |published| == client.cursor;
      var resync := Subscribe(Some(Cursor(streamId, client.cursor)), id);
      assert !resync && Max(client.cursor, closed) == |history| && history[|history|..] == [];
    }

    /**
     * A client that attached after some of the operations and applies what its
     * subscription has received since shows every live turn that is not disabled
     * exactly as the buffer holds it.
     */
    lemma SubscriberMirrors(id: nat, before: seq<Op>)
      requires Valid() && Faithful() && id in listeners && before <= performed && NeverReuses(cfg, EMPTY, performed)
      requires listeners[id].resumedAfter == SnapshotAfter(cfg, streamId, before).cursor
      ensures Mirrors(ApplyEvents(SnapshotAfter(cfg, streamId, before), listeners[id].received).turns, state)
    {
      hide DoAll;
      hide NeverReuses;
      hide Mirrors;
      hide ApplyEvents;
      hide InOrder;
      hide Window;
      hide Shown;
      var after := performed[|before|..];
      assert performed == before + after;
      var b := DoAll(cfg, EMPTY, before);
      DoAllConcat(cfg, EMPTY, before, after);
      NeverReusesParts(cfg, EMPTY, before, after);
      DoAllNoResync(cfg, EMPTY, performed);
      TailInOrder(history, streamId, published, SnapshotAfter(cfg, streamId, before));
      ReplicaConverges(cfg, streamId, before, after, history, listeners[id].received);
    }
  }

  /** The snapshot of a buffer that has performed `ops`. */
  function SnapshotAfter(cfg: Config, streamId: nat, ops: seq<Op>): Snapshot {
    var out := DoAll(cfg, EMPTY, ops);
    Snapshot(streamId, |out.bodies|, Shown(out.server))
  }

  lemma NothingDone(cfg: Config)
    ensures DoAll(cfg, EMPTY, []) == Out(EMPTY, [])
  {
  }

  lemma DoOneMore(cfg: Config, ops: seq<Op>, op: Op)
    ensures var out := DoAll(cfg, EMPTY, ops);
      DoAll(cfg, EMPTY, ops + [op])
      == Out(Do(cfg, out.server, op).server, out.bodies + Do(cfg, out.server, op).bodies)
  {
    hide Do;
    var out := DoAll(cfg, EMPTY, ops);
    DoAllConcat(cfg, EMPTY, ops, [op]);
    assert [op][1..] == [];
    assert DoAll(cfg, Do(cfg, out.server, op).server, []).bodies == [];
    assert Do(cfg, out.server, op).bodies + [] == Do(cfg, out.server, op).bodies;
  }
}

/**
 * What the life cycle does to the fields of a record
 * (open-muse/server/operation-lifecycle.ts, open-muse/server/state-store.ts).
 */
module OperationRecords {
  import opened Common
  import opened OperationLifecycle

  /** The fields that no transition touches. */
  ghost predicate SameOperation(r: Record, t: Record) {
    && t.id == r.id && t.kind == r.kind && t.summary == r.summary && t.createdAt == r.createdAt
    && t.acknowledgedAt == r.acknowledgedAt
  }

  /** The code after a transition: the one it was given, if any, else the one there was. */
  ghost predicate Coded(r: Record, t: Record, code: string) {
    (code != "" ==> t.errorCode == Some(code)) && (code == "" ==> t.errorCode == r.errorCode)
  }

  /**
   * The life cycle: an approved operation may be dispatched or fail, a dispatched
   * one may succeed, fail or become unknown, and nothing else happens to either; a
   * finished one stays as it is.
   */
  lemma TransitionTable(r: Record, code: string, now: int)
    ensures var d := DispatchOperation(r, now);
      && (d.Ok? <==> r.state == Approved)
      && (d.Ok? ==> d.value.state == Dispatched && SameOperation(r, d.value) && d.value.updatedAt == now
                    && d.value.outcome == r.outcome && d.value.errorCode == r.errorCode)
    ensures var c := CompleteOperation(r, Succeeded, Some(code), now);
      && (c.Ok? <==> r.state == Dispatched)
      && (c.Ok? ==> c.value.state == Completed && c.value.outcome == Some(Succeeded)
                    && SameOperation(r, c.value) && c.value.updatedAt == now && Coded(r, c.value, code))
    ensures var c := CompleteOperation(r, FailedBeforeExecution, Some(code), now);
      && (c.Ok? <==> r.state == Approved || r.state == Dispatched)
      && (c.Ok? ==> c.value.state == Completed && c.value.outcome == Some(FailedBeforeExecution)
                    && SameOperation(r, c.value) && c.value.updatedAt == now && Coded(r, c.value, code))
    ensures var u := MarkOutcomeUnknown(r, Some(code), now);
      && (u.Ok? <==> r.state == Dispatched)
      && (u.Ok? ==> u.value.state == OutcomeUnknown && u.value.outcome == r.outcome
                    && SameOperation(r, u.value) && u.value.updatedAt == now && Coded(r, u.value, code))
  {
  }

  /** How a restart settles an unfinished record: not executed if it was not dispatched, unknown if it was. */
  lemma SettledFields(r: Record, now: int)
    requires Active(r)
    ensures var t := Settle(r, now);
      && SameOperation(r, t) && t.updatedAt == now && t.errorCode == Some("PROCESS_RESTARTED")
      && (r.state == Approved ==> t.state == Completed && t.outcome == Some(FailedBeforeExecution))
      && (r.state == Dispatched ==> t.state == OutcomeUnknown)
  {
  }

  /** The summary that reaches the disk, whatever the agent wrote. */
  lemma DurableSummaries()
    ensures DurableSummary(CheckoutReview) == "Open checkout review"
    ensures DurableSummary(BrowserProgram) == "Run approved browser program"
    ensures DurableSummary(BrowserOperation) == "Run approved browser operation"
  {
  }

  /**
   * A saved journal has the same records in the same order; each differs from the
   * live one at most in its summary, which is fixed by the kind of the operation.
   */
  lemma SavedFields(journal: seq<Record>, i: nat)
    requires Canonical(journal) && i < |journal|
    ensures |Serialize(journal)| == |journal|
    ensures Serialize(journal)[i] == journal[i].(summary := DurableSummary(journal[i].kind))
  {
    hide Serialize;
    hide RedactAll;
    SerializeIsRedaction(journal);
    RedactedRecords(journal);
  }

  /** The bounds of a journal that was written: at most one unfinished and a hundred finished records. */
  lemma UpsertBounds(journal: seq<Record>, op: Record)
    requires UniqueIds(journal)
    ensures |Actives(Upsert(journal, op))| <= 1 && |Terminals(Upsert(journal, op))| <= 100
    ensures |Upsert(journal, op)| <= 101
  {
    UpsertIsCanonical(journal, op);
    FilterMembers(Upsert(journal, op), 0);
    hide Upsert;
    hide Actives;
    hide Terminals;
  }

  /** As long as there is room, a finished record stays when another operation is written. */
  lemma UpsertKeepsFinished(journal: seq<Record>, op: Record, r: Record)
    requires |journal| < 100 && r in journal && !Active(r) && r.id != op.id
    ensures r in Upsert(journal, op)
  {
    var next := Next(journal, op);
    FilterMembers(journal, op.id);
    assert r in Without(journal, op.id) && r in next;
    FilterMembers(next, 0);
    WithoutShrinks(journal, op.id);
    hide Terminals;
    hide Actives;
    hide Without;
    hide Sort;
    assert |Terminals(next)| <= |next| <= 100;
    SortMembers(LastN(Terminals(next), MAX_TERMINAL_OPERATIONS) + LastN(Actives(next), 1));
  }

  lemma {:induction false} WithoutShrinks(s: seq<Record>, id: nat)
    ensures |Without(s, id)| <= |s|
  {
    if s != [] {
      WithoutShrinks(s[..|s| - 1], id);
    }
  }
}

/**
 * The operation journal of OpenMuse: the life cycle of one approved website
 * action, the bounded journal that holds the records, and restart recovery
 * (open-muse/server/operation-lifecycle.ts).
 *
 * Timestamps are integers. Lists are traversed from the back, because the
 * journal grows at the back and its bounds keep the back.
 */
module OperationLifecycle {
  import opened Common

  datatype Kind = CheckoutReview | BrowserProgram | BrowserOperation

  datatype OpState = Approved | Dispatched | Completed | OutcomeUnknown

  datatype Outcome = Succeeded | FailedBeforeExecution

  datatype Record = Record(
    id: nat,
    kind: Kind,
    summary: string,
    state: OpState,
    createdAt: int,
    updatedAt: int,
    outcome: Option<Outcome>,
    errorCode: Option<string>,
    acknowledgedAt: Option<int>)

  datatype RecoveryKind = RecoverFailed | RecoverUnknown | RecoverInterrupted | RecoverComputer

  datatype Recovery = Recovery(kind: RecoveryKind, operation: Option<nat>)

  const MAX_TERMINAL_OPERATIONS := 100

  predicate Active(r: Record) {
    r.state == Approved || r.state == Dispatched
  }

  predicate Failed(r: Record) {
    r.state == Completed && r.outcome == Some(FailedBeforeExecution)
  }

  predicate Success(r: Record) {
    r.state == Completed && r.outcome == Some(Succeeded)
  }

  // ---------------------------------------------------------------- transitions

  function DurableSummary(kind: Kind): string {
    match kind
    case CheckoutReview => "Open checkout review"
    case BrowserProgram => "Run approved browser program"
    case BrowserOperation => "Run approved browser operation"
  }

  function Redact(r: Record): Record {
    r.(summary := DurableSummary(r.kind))
  }

  function ApproveOperation(kind: Kind, now: int, id: nat): Record {
    Record(id, kind, DurableSummary(kind), Approved, now, now, None, None, None)
  }

  function DispatchOperation(r: Record, now: int): Result<Record, string> {
    if r.state != Approved then Err("Cannot dispatch")
    else Ok(r.(state := Dispatched, updatedAt := now))
  }

  /** A code that is given and not empty replaces the old one. */
  function WithCode(old_: Option<string>, code: Option<string>): Option<string> {
    if code.Some? && code.value != "" then code else old_
  }

  function CompleteOperation(r: Record, outcome: Outcome, errorCode: Option<string>, now: int): Result<Record, string> {
    if !Active(r) then Err("Cannot complete")
    else if outcome == Succeeded && r.state != Dispatched then Err("Cannot succeed before dispatch")
    else
      Ok(r.(state := Completed, outcome := Some(outcome), updatedAt := now,
          errorCode := WithCode(r.errorCode, errorCode)))
  }

  function MarkOutcomeUnknown(r: Record, errorCode: Option<string>, now: int): Result<Record, string> {
    if r.state != Dispatched then Err("Cannot mark as unknown")
    else
      Ok(r.(state := OutcomeUnknown, updatedAt := now, errorCode := WithCode(r.errorCode, errorCode)))
  }

  // ---------------------------------------------------------------- the journal

  function Without(s: seq<Record>, id: nat): seq<Record> {
    if s == [] then []
    else
      var init, last := s[..|s| - 1], s[|s| - 1];
      if last.id == id then Without(init, id) else Without(init, id) + [last]
  }

  function Actives(s: seq<Record>): seq<Record> {
    if s == [] then []
    else
      var init, last := s[..|s| - 1], s[|s| - 1];
      if Active(last) then Actives(init) + [last] else Actives(init)
  }

  function Terminals(s: seq<Record>): seq<Record> {
    if s == [] then []
    else
      var init, last := s[..|s| - 1], s[|s| - 1];
      if Active(last) then Terminals(init) else Terminals(init) + [last]
  }

  function LastN(s: seq<Record>, n: nat): seq<Record> {
    if |s| <= n then s else s[|s| - n..]
  }

  /** Puts `x` behind every record that is not created later, which is what a stable sort does with a last element. */
  function Insert(s: seq<Record>, x: Record): seq<Record> {
    if s == [] || s[|s| - 1].createdAt <= x.createdAt then s + [x]
    else Insert(s[..|s| - 1], x) + [s[|s| - 1]]
  }

  /** The stable sort by creation time. */
  function Sort(s: seq<Record>): seq<Record> {
    if s == [] then [] else Insert(Sort(s[..|s| - 1]), s[|s| - 1])
  }

  /** The journal with the old version of `op` taken out and the new one appended. */
  function Next(journal: seq<Record>, op: Record): seq<Record> {
    Without(journal, op.id) + [op]
  }

  function Upsert(journal: seq<Record>, op: Record): seq<Record> {
    var next := Next(journal, op);
    Sort(LastN(Terminals(next), MAX_TERMINAL_OPERATIONS) + LastN(Actives(next), 1))
  }

  function Acknowledge(journal: seq<Record>, id: Option<nat>, now: int): seq<Record> {
    if id.None? then journal
    else if journal == [] then []
    else
      var init, last := journal[..|journal| - 1], journal[|journal| - 1];
      Acknowledge(init, id, now) + [if last.id == id.value then last.(acknowledgedAt := Some(now)) else last]
  }

  /** What a journal reachable by upserts looks like. */
  ghost predicate Canonical(s: seq<Record>) {
    && Sorted(s)
    && UniqueIds(s)
    && ActiveLast(s)
    && |Actives(s)| <= 1
    && |Terminals(s)| <= MAX_TERMINAL_OPERATIONS
  }

  ghost predicate Sorted(s: seq<Record>) {
    forall i, j :: 0 <= i < j < |s| ==> s[i].createdAt <= s[j].createdAt
  }

  ghost predicate UniqueIds(s: seq<Record>) {
    forall i, j :: 0 <= i < j < |s| ==> s[i].id != s[j].id
  }

  /** Among records of one instant the unfinished record stands last. */
  ghost predicate ActiveLast(s: seq<Record>) {
    forall i, j :: 0 <= i < j < |s| && Active(s[i]) ==> s[i].createdAt < s[j].createdAt
  }

  // ---------------------------------------------------------------- list facts

  lemma {:induction false} FilterMembers(s: seq<Record>, id: nat)
    ensures forall r :: r in Without(s, id) <==> r in s && r.id != id
    ensures forall r :: r in Actives(s) <==> r in s && Active(r)
    ensures forall r :: r in Terminals(s) <==> r in s && !Active(r)
    ensures |Actives(s)| + |Terminals(s)| == |s|
  {
    if s != [] {
      FilterMembers(s[..|s| - 1], id);
      assert s == s[..|s| - 1] + [s[|s| - 1]];
    }
  }

  lemma {:induction false} InsertMembers(s: seq<Record>, x: Record)
    ensures multiset(Insert(s, x)) == multiset(s) + multiset{x}
    ensures forall r :: r in Insert(s, x) <==> r in s || r == x
    ensures |Insert(s, x)| == |s| + 1
  {
    if s == [] || s[|s| - 1].createdAt <= x.createdAt {
    } else {
      InsertMembers(s[..|s| - 1], x);
      assert s == s[..|s| - 1] + [s[|s| - 1]];
    }
  }

  lemma {:induction false} SortMembers(s: seq<Record>)
    ensures multiset(Sort(s)) == multiset(s)
    ensures forall r :: r in Sort(s) <==> r in s
    ensures |Sort(s)| == |s|
  {
    hide Insert;
    if s != [] {
      SortMembers(s[..|s| - 1]);
      InsertMembers(Sort(s[..|s| - 1]), s[|s| - 1]);
      assert s == s[..|s| - 1] + [s[|s| - 1]];
    }
  }

  lemma {:induction false} InsertSorted(s: seq<Record>, x: Record)
    requires Sorted(s)
    ensures Sorted(Insert(s, x))
  {
    if s == [] || s[|s| - 1].createdAt <= x.createdAt {
    } else {
      InsertSorted(s[..|s| - 1], x);
      InsertMembers(s[..|s| - 1], x);
      var t := Insert(s[..|s| - 1], x);
      forall i | 0 <= i < |t| ensures t[i].createdAt <= s[|s| - 1].createdAt {
        assert t[i] in t;
      }
    }
  }

  lemma {:induction false} SortSorted(s: seq<Record>)
    ensures Sorted(Sort(s))
  {
    if s != [] {
      SortSorted(s[..|s| - 1]);
      InsertSorted(Sort(s[..|s| - 1]), s[|s| - 1]);
    }
  }

  lemma InsertLatest(s: seq<Record>, x: Record)
    requires s == [] || s[|s| - 1].createdAt <= x.createdAt
    ensures Insert(s, x) == s + [x]
  {
  }

  lemma {:induction false} SortedIsFixed(s: seq<Record>)
    requires Sorted(s)
    ensures Sort(s) == s
  {
    hide Insert;
    if s != [] {
      var init := s[..|s| - 1];
      SortedIsFixed(init);
      InsertLatest(init, s[|s| - 1]);
      assert s == init + [s[|s| - 1]];
    }
  }

  lemma UniqueSnoc(s: seq<Record>, x: Record, all: seq<Record>)
    requires UniqueIds(s) && (forall r :: r in s ==> r in all) && (forall r :: r in all ==> r.id != x.id)
    ensures UniqueIds(s + [x])
  {
    assert forall i :: 0 <= i < |s| ==> s[i] in s;
  }

  lemma {:induction false} FiltersKeepUnique(s: seq<Record>, id: nat)
    requires UniqueIds(s)
    ensures UniqueIds(Without(s, id)) && UniqueIds(Actives(s)) && UniqueIds(Terminals(s))
  {
    if s != [] {
      var init, last := s[..|s| - 1], s[|s| - 1];
      assert UniqueIds(init) && forall r :: r in init ==> r.id != last.id;
      FiltersKeepUnique(init, id);
      FilterMembers(init, id);
      hide UniqueIds;
      UniqueSnoc(Without(init, id), last, init);
      UniqueSnoc(Actives(init), last, init);
      UniqueSnoc(Terminals(init), last, init);
    }
  }

  lemma {:induction false} InsertUnique(s: seq<Record>, x: Record)
    requires UniqueIds(s) && forall r :: r in s ==> r.id != x.id
    ensures UniqueIds(Insert(s, x))
  {
    if s == [] || s[|s| - 1].createdAt <= x.createdAt {
    } else {
      var init, last := s[..|s| - 1], s[|s| - 1];
      InsertUnique(init, x);
      InsertMembers(init, x);
      var t := Insert(init, x);
      assert forall i :: 0 <= i < |t| ==> t[i] in t;
    }
  }

  lemma {:induction false} InsertCount(s: seq<Record>, x: Record)
    ensures |Actives(Insert(s, x))| == |Actives(s)| + if Active(x) then 1 else 0
  {
    if s == [] || s[|s| - 1].createdAt <= x.createdAt {
      assert (s + [x])[..|s|] == s;
    } else {
      var init, last := s[..|s| - 1], s[|s| - 1];
      InsertCount(init, x);
      var t := Insert(init, x);
      assert (t + [last])[..|t|] == t;
    }
  }

  lemma {:induction false} InsertActiveLast(s: seq<Record>, x: Record)
    requires forall r :: r in s ==> !Active(r)
    ensures ActiveLast(Insert(s, x))
  {
    if s == [] || s[|s| - 1].createdAt <= x.createdAt {
      assert forall i :: 0 <= i < |s| ==> s[i] in s;
    } else {
      var init, last := s[..|s| - 1], s[|s| - 1];
      InsertActiveLast(init, x);
      InsertMembers(init, x);
      var t := Insert(init, x);
      assert forall i :: 0 <= i < |t| ==> t[i] in t;
    }
  }

  lemma {:induction false} SortUnique(s: seq<Record>)
    requires UniqueIds(s)
    ensures UniqueIds(Sort(s))
  {
    if s != [] {
      var init, last := s[..|s| - 1], s[|s| - 1];
      SortUnique(init);
      SortMembers(init);
      InsertUnique(Sort(init), last);
    }
  }

  lemma {:induction false} SortCount(s: seq<Record>)
    ensures |Actives(Sort(s))| == |Actives(s)|
  {
    if s != [] {
      SortCount(s[..|s| - 1]);
      InsertCount(Sort(s[..|s| - 1]), s[|s| - 1]);
    }
  }

  lemma {:induction false} NoActives(s: seq<Record>)
    requires forall r :: r in s ==> !Active(r)
    ensures Actives(s) == [] && Terminals(s) == s
  {
    if s != [] {
      NoActives(s[..|s| - 1]);
      assert s == s[..|s| - 1] + [s[|s| - 1]];
    }
  }

  // ---------------------------------------------------------------- upsert

  lemma NextFacts(journal: seq<Record>, op: Record)
    requires UniqueIds(journal)
    ensures UniqueIds(Next(journal, op))
    ensures forall r :: r in Next(journal, op) <==> r == op || (r in journal && r.id != op.id)
  {
    FilterMembers(journal, op.id);
    FiltersKeepUnique(journal, op.id);
    var kept := Without(journal, op.id);
    assert forall i :: 0 <= i < |kept| ==> kept[i] in kept;
  }

  lemma LastNFacts(s: seq<Record>, n: nat)
    requires UniqueIds(s)
    ensures UniqueIds(LastN(s, n))
    ensures |LastN(s, n)| <= n
    ensures forall r :: r in LastN(s, n) ==> r in s
    ensures n > 0 && s != [] ==> s[|s| - 1] in LastN(s, n)
  {
    var t := LastN(s, n);
    if |s| > n {
      assert forall i :: 0 <= i < n ==> t[i] == s[|s| - n + i];
      if n > 0 {
        assert t[n - 1] == s[|s| - 1];
      }
    }
  }

  function KeptTerminals(journal: seq<Record>, op: Record): seq<Record> {
    LastN(Terminals(Next(journal, op)), MAX_TERMINAL_OPERATIONS)
  }

  function KeptActive(journal: seq<Record>, op: Record): seq<Record> {
    LastN(Actives(Next(journal, op)), 1)
  }

  lemma KeptTerminalFacts(journal: seq<Record>, op: Record)
    requires UniqueIds(journal)
    ensures var t := KeptTerminals(journal, op);
      && UniqueIds(t) && |t| <= MAX_TERMINAL_OPERATIONS
      && (!Active(op) ==> op in t)
      && (forall r :: r in t ==> r in Next(journal, op) && !Active(r))
  {
    var next := Next(journal, op);
    NextFacts(journal, op);
    FilterMembers(next, 0);
    FiltersKeepUnique(next, 0);
    LastNFacts(Terminals(next), MAX_TERMINAL_OPERATIONS);
    assert next[..|next| - 1] == Without(journal, op.id);
  }

  lemma KeptActiveFacts(journal: seq<Record>, op: Record)
    requires UniqueIds(journal)
    ensures var a := KeptActive(journal, op);
      && UniqueIds(a) && |a| <= 1
      && (Active(op) ==> op in a)
      && (forall r :: r in a ==> r in Next(journal, op) && Active(r))
  {
    var next := Next(journal, op);
    NextFacts(journal, op);
    FilterMembers(next, 0);
    FiltersKeepUnique(next, 0);
    LastNFacts(Actives(next), 1);
    assert next[..|next| - 1] == Without(journal, op.id);
  }

  lemma UniqueById(s: seq<Record>, x: Record, y: Record)
    requires UniqueIds(s) && x in s && y in s && x.id == y.id
    ensures x == y
  {
  }

  lemma DisjointConcat(s: seq<Record>, t: seq<Record>, all: seq<Record>)
    requires UniqueIds(s) && UniqueIds(t) && UniqueIds(all)
    requires forall r :: r in s ==> r in all && !Active(r)
    requires forall r :: r in t ==> r in all && Active(r)
    ensures UniqueIds(s + t)
  {
    forall i, j | 0 <= i < |s| && 0 <= j < |t| ensures s[i].id != t[j].id {
      assert s[i] in s && t[j] in t;
      if s[i].id == t[j].id {
        UniqueById(all, s[i], t[j]);
      }
    }
  }

  /** The journal never loses the record being written, and adds nothing else. */
  lemma UpsertMembers(journal: seq<Record>, op: Record)
    requires UniqueIds(journal)
    ensures op in Upsert(journal, op)
    ensures forall r :: r in Upsert(journal, op) ==> r == op || (r in journal && r.id != op.id)
  {
    KeptTerminalFacts(journal, op);
    KeptActiveFacts(journal, op);
    NextFacts(journal, op);
    SortMembers(KeptTerminals(journal, op) + KeptActive(journal, op));
  }

  lemma {:induction false} ActivesOfSplit(t: seq<Record>, a: seq<Record>)
    requires forall r :: r in t ==> !Active(r)
    requires forall r :: r in a ==> Active(r)
    ensures Actives(t + a) == a && Terminals(t + a) == t
  {
    if a == [] {
      NoActives(t);
      assert t + a == t;
    } else {
      ActivesOfSplit(t, a[..|a| - 1]);
      assert (t + a)[..|t + a| - 1] == t + a[..|a| - 1];
      assert a[|a| - 1] in a;
    }
  }

  lemma SplitSortActiveLast(t: seq<Record>, a: seq<Record>)
    requires |a| <= 1
    requires forall r :: r in t ==> !Active(r)
    ensures ActiveLast(Sort(t + a))
  {
    SortMembers(t);
    if a == [] {
      assert t + a == t;
      var s := Sort(t);
      assert forall i :: 0 <= i < |s| ==> s[i] in t;
    } else {
      assert (t + a)[..|t|] == t;
      InsertActiveLast(Sort(t), a[0]);
    }
  }

  /** Whatever unique journal it starts from, one upsert makes the journal canonical. */
  lemma UpsertIsCanonical(journal: seq<Record>, op: Record)
    requires UniqueIds(journal)
    ensures Canonical(Upsert(journal, op))
  {
    var t, a := KeptTerminals(journal, op), KeptActive(journal, op);
    KeptTerminalFacts(journal, op);
    KeptActiveFacts(journal, op);
    NextFacts(journal, op);
    DisjointConcat(t, a, Next(journal, op));
    SortSorted(t + a);
    SortUnique(t + a);
    SortMembers(t + a);
    SortCount(t + a);
    SplitSortActiveLast(t, a);
    ActivesOfSplit(t, a);
    FilterMembers(Sort(t + a), 0);
  }

  lemma NextActives(journal: seq<Record>, r: Record, op: Record)
    requires Canonical(journal) && r in journal && Active(r) && r.id != op.id && !Active(op)
    ensures Actives(Next(journal, op)) == [r]
  {
    var next := Next(journal, op);
    NextFacts(journal, op);
    FilterMembers(next, 0);
    FiltersKeepUnique(next, 0);
    FilterMembers(journal, 0);
    ActiveMember(journal, r);
    assert Actives(journal) == [r];
    forall x | x in Actives(next) ensures x == r {
      assert x in Actives(journal);
    }
    OnlyMember(Actives(next), r);
  }

  lemma OnlyMember(s: seq<Record>, r: Record)
    requires UniqueIds(s) && r in s && forall x :: x in s ==> x == r
    ensures s == [r]
  {
    assert forall i :: 0 <= i < |s| ==> s[i] in s;
    assert |s| <= 1 || s[0].id != s[1].id;
  }

  lemma ActiveMember(s: seq<Record>, r: Record)
    requires |Actives(s)| <= 1 && r in s && Active(r)
    ensures Actives(s) == [r]
  {
    hide Actives;
    FilterMembers(s, 0);
    assert r in Actives(s);
  }

  /** An unfinished record is pushed out exactly by another unfinished record. */
  lemma UpsertDiscardsActive(journal: seq<Record>, r: Record, op: Record)
    requires Canonical(journal) && r in journal && Active(r) && r.id != op.id
    ensures r in Upsert(journal, op) <==> !Active(op)
  {
    if Active(op) {
      UpsertMembers(journal, op);
      UpsertIsCanonical(journal, op);
      ActiveMember(Upsert(journal, op), op);
      if r in Upsert(journal, op) {
        ActiveMember(Upsert(journal, op), r);
      }
    } else {
      NextActives(journal, r, op);
      SortMembers(KeptTerminals(journal, op) + KeptActive(journal, op));
    }
  }

  // ---------------------------------------------------------------- serialisation

  /** The fold with which a checkpoint copies the journal (state-store.ts). */
  function Serialize(journal: seq<Record>): seq<Record> {
    if journal == [] then []
    else Upsert(Serialize(journal[..|journal| - 1]), Redact(journal[|journal| - 1]))
  }

  function RedactAll(journal: seq<Record>): seq<Record> {
    if journal == [] then [] else RedactAll(journal[..|journal| - 1]) + [Redact(journal[|journal| - 1])]
  }

  /** Replaying any list of upserts on the empty journal. */
  function Replay(ops: seq<Record>): seq<Record> {
    if ops == [] then [] else Upsert(Replay(ops[..|ops| - 1]), ops[|ops| - 1])
  }

  /** Every journal reachable by upserts is canonical. */
  lemma {:induction false} ReplayIsCanonical(ops: seq<Record>)
    ensures Canonical(Replay(ops))
  {
    if ops != [] {
      ReplayIsCanonical(ops[..|ops| - 1]);
      UpsertIsCanonical(Replay(ops[..|ops| - 1]), ops[|ops| - 1]);
    }
  }

  lemma {:induction false} RedactedRecords(journal: seq<Record>)
    ensures |RedactAll(journal)| == |journal|
    ensures forall i :: 0 <= i < |journal| ==> RedactAll(journal)[i] == Redact(journal[i])
  {
    if journal != [] {
      RedactedRecords(journal[..|journal| - 1]);
    }
  }

  lemma RedactAllFacts(journal: seq<Record>)
    ensures |RedactAll(journal)| == |journal|
    ensures forall i :: 0 <= i < |journal| ==> RedactAll(journal)[i] == Redact(journal[i])
    ensures |Actives(RedactAll(journal))| == |Actives(journal)|
  {
    hide RedactAll;
    hide Actives;
    RedactedRecords(journal);
    SameActives(RedactAll(journal), journal);
  }

  lemma RedactAllMembers(journal: seq<Record>)
    ensures forall r :: r in journal ==> Redact(r) in RedactAll(journal)
    ensures forall q :: q in RedactAll(journal) ==> exists r :: r in journal && q == Redact(r)
  {
    RedactAllFacts(journal);
    forall r | r in journal ensures Redact(r) in RedactAll(journal) {
      var i :| 0 <= i < |journal| && journal[i] == r;
      assert RedactAll(journal)[i] == Redact(r);
    }
    forall q | q in RedactAll(journal) ensures exists r :: r in journal && q == Redact(r) {
      var i :| 0 <= i < |journal| && RedactAll(journal)[i] == q;
      assert journal[i] in journal && q == Redact(journal[i]);
    }
  }

  lemma RedactAllCanonical(journal: seq<Record>)
    requires Canonical(journal)
    ensures Canonical(RedactAll(journal))
  {
    RedactAllFacts(journal);
    FilterMembers(journal, 0);
    FilterMembers(RedactAll(journal), 0);
  }

  lemma CanonicalPrefix(s: seq<Record>)
    requires Canonical(s) && s != []
    ensures Canonical(s[..|s| - 1])
    ensures Active(s[|s| - 1]) ==> Actives(s[..|s| - 1]) == []
  {
  }

  lemma {:induction false} AppendedWithout(s: seq<Record>, id: nat)
    requires forall r :: r in s ==> r.id != id
    ensures Without(s, id) == s
  {
    if s != [] {
      AppendedWithout(s[..|s| - 1], id);
      assert s == s[..|s| - 1] + [s[|s| - 1]];
    }
  }

  lemma {:induction false} TerminalsSorted(s: seq<Record>)
    requires Sorted(s)
    ensures Sorted(Terminals(s))
  {
    if s != [] {
      TerminalsSorted(s[..|s| - 1]);
      FilterMembers(s[..|s| - 1], 0);
      var t := Terminals(s[..|s| - 1]);
      assert forall i :: 0 <= i < |t| ==> t[i] in s[..|s| - 1];
    }
  }

  /** Taking a canonical journal apart and sorting it again gives it back. */
  lemma {:induction false} Rebuild(s: seq<Record>)
    requires Canonical(s)
    ensures Sort(Terminals(s) + Actives(s)) == s
  {
    hide Actives;
    hide Terminals;
    hide Sort;
    if s == [] {
      RebuildNothing();
    } else {
      var init, last := s[..|s| - 1], s[|s| - 1];
      CanonicalPrefix(s);
      Rebuild(init);
      assert s == init + [last];
      RebuildSnoc(init, last);
    }
  }

  lemma RebuildNothing()
    ensures Sort(Terminals([]) + Actives([])) == []
  {
  }

  lemma RebuildSnoc(init: seq<Record>, last: Record)
    requires Canonical(init + [last]) && Sort(Terminals(init) + Actives(init)) == init
    ensures Sort(Terminals(init + [last]) + Actives(init + [last])) == init + [last]
  {
    hide Actives;
    hide Terminals;
    hide Sort;
    hide Canonical;
    if Active(last) {
      RebuildActive(init, last);
    } else {
      RebuildTerminal(init, last);
    }
  }

  lemma FiltersSnoc(init: seq<Record>, last: Record)
    ensures Terminals(init + [last]) == if Active(last) then Terminals(init) else Terminals(init) + [last]
    ensures Actives(init + [last]) == if Active(last) then Actives(init) + [last] else Actives(init)
  {
    assert (init + [last])[..|init|] == init;
  }

  lemma RebuildActive(init: seq<Record>, last: Record)
    requires Canonical(init + [last]) && Active(last) && Sort(Terminals(init) + Actives(init)) == init
    ensures Sort(Terminals(init + [last]) + Actives(init + [last])) == init + [last]
  {
    FiltersSnoc(init, last);
    hide Actives;
    hide Terminals;
    hide Sort;
    hide Insert;
    assert Actives(init) == [];
    assert Terminals(init) + [] == Terminals(init) && [] + [last] == [last];
    SortSnoc(Terminals(init), last);
    LastIsLatest(init, last);
    InsertLatest(init, last);
  }

  lemma LastIsLatest(init: seq<Record>, last: Record)
    requires Sorted(init + [last])
    ensures init == [] || init[|init| - 1].createdAt <= last.createdAt
  {
    var s := init + [last];
    assert init != [] ==> s[|init| - 1] == init[|init| - 1] && s[|init|] == last;
  }

  lemma RebuildTerminal(init: seq<Record>, last: Record)
    requires Canonical(init + [last]) && !Active(last) && Sort(Terminals(init) + Actives(init)) == init
    ensures Sort(Terminals(init + [last]) + Actives(init + [last])) == init + [last]
  {
    FiltersSnoc(init, last);
    hide Actives;
    hide Terminals;
    hide Sort;
    hide Insert;
    var t, a := Terminals(init), Actives(init);
    if a == [] {
      assert t + [] == t && t + [last] + [] == t + [last];
      SortSnoc(t, last);
      LastIsLatest(init, last);
      InsertLatest(init, last);
    } else {
      var x := a[0];
      assert a == [x];
      FilterMembers(init, 0);
      ActiveBefore(init + [last], x);
      assert (init + [last])[..|init|] == init;
      CanonicalPrefix(init + [last]);
      SortTerminals(init);
      SortTerminals(init + [last]);
      SortAround(t, last, x);
    }
  }

  lemma SortSnoc(s: seq<Record>, x: Record)
    ensures Sort(s + [x]) == Insert(Sort(s), x)
  {
    assert (s + [x])[..|s|] == s;
  }

  lemma InsertPast(s: seq<Record>, last: Record, x: Record)
    requires x.createdAt < last.createdAt
    ensures Insert(s + [last], x) == Insert(s, x) + [last]
  {
    assert (s + [last])[..|s|] == s;
  }

  lemma SortTerminals(s: seq<Record>)
    requires Sorted(s)
    ensures Sort(Terminals(s)) == Terminals(s)
  {
    TerminalsSorted(s);
    SortedIsFixed(Terminals(s));
  }

  lemma ActiveBefore(s: seq<Record>, x: Record)
    requires Canonical(s) && s != [] && x in s[..|s| - 1] && Active(x)
    ensures x.createdAt < s[|s| - 1].createdAt
  {
    var i :| 0 <= i < |s| - 1 && s[i] == x;
  }

  lemma SortAround(t: seq<Record>, last: Record, x: Record)
    requires Sort(t) == t && Sort(t + [last]) == t + [last] && x.createdAt < last.createdAt
    ensures Sort(t + [last] + [x]) == Sort(t + [x]) + [last]
  {
    SortSnoc(t + [last], x);
    InsertPast(t, last, x);
    SortSnoc(t, x);
  }

  lemma AppendLatest(s: seq<Record>, last: Record)
    requires Canonical(s + [last])
    ensures Upsert(s, last) == s + [last]
  {
    var all := s + [last];
    assert all[..|s|] == s && all[|s|] == last;
    assert forall i :: 0 <= i < |s| ==> all[i] == s[i];
    assert forall r :: r in s ==> r.id != last.id;
    AppendedWithout(s, last.id);
    Rebuild(all);
  }

  /** Writing a canonical journal to disk loses nothing but the free-form summaries. */
  lemma {:induction false} SerializeIsRedaction(journal: seq<Record>)
    requires Canonical(journal)
    ensures Serialize(journal) == RedactAll(journal)
  {
    if journal != [] {
      CanonicalPrefix(journal);
      SerializeIsRedaction(journal[..|journal| - 1]);
      RedactAllCanonical(journal);
      AppendLatest(RedactAll(journal[..|journal| - 1]), Redact(journal[|journal| - 1]));
    }
  }

  // ---------------------------------------------------------------- recovery

  /** How a restart settles an unfinished record. */
  function Settle(r: Record, now: int): Record
    requires Active(r)
  {
    if r.state == Approved then CompleteOperation(r, FailedBeforeExecution, Some("PROCESS_RESTARTED"), now).value
    else MarkOutcomeUnknown(r, Some("PROCESS_RESTARTED"), now).value
  }

  predicate NeedsRecovery(r: Record) {
    Active(r) || ((r.state == OutcomeUnknown || Failed(r)) && r.acknowledgedAt.None?)
  }

  function RecoveryOf(r: Record): Recovery {
    Recovery(if r.state == Approved || r.state == Completed then RecoverFailed else RecoverUnknown, Some(r.id))
  }

  /** The journal and the banner after the first `k` records have been looked at. */
  function RecoverPrefix(journal: seq<Record>, k: nat, now: int): (seq<Record>, Option<Recovery>)
    requires k <= |journal|
  {
    if k == 0 then (journal, None)
    else
      var (done, banner) := RecoverPrefix(journal, k - 1, now);
      var r := journal[k - 1];
      (if Active(r) then Upsert(done, Settle(r, now)) else done,
       if NeedsRecovery(r) then Some(RecoveryOf(r)) else banner)
  }

  function Recover(journal: seq<Record>, now: int): (seq<Record>, Option<Recovery>) {
    RecoverPrefix(journal, |journal|, now)
  }

  /** The loop over the saved journal that rewrites `recovered` and `recovery`. */
  method RecoverOperations(journal: seq<Record>, now: int) returns (recovered: seq<Record>, recovery: Option<Recovery>)
    ensures (recovered, recovery) == Recover(journal, now)
    ensures forall r :: r in recovered ==> !Active(r)
    ensures recovery.Some? <==> exists r :: r in journal && NeedsRecovery(r)
    ensures recovery.Some? ==>
      exists i :: 0 <= i < |journal| && NewestNeeds(journal, i) && Describes(recovery.value, journal[i])
  {
    hide Upsert;
    recovery := None;
    recovered := journal;
    for i := 0 to |journal|
      invariant (recovered, recovery) == RecoverPrefix(journal, i, now)
    {
      var r := journal[i];
      if r.state == Approved {
        var completed := CompleteOperation(r, FailedBeforeExecution, Some("PROCESS_RESTARTED"), now);
        recovered := Upsert(recovered, completed.value);
        recovery := Some(Recovery(RecoverFailed, Some(r.id)));
      } else if r.state == Dispatched {
        var unknown := MarkOutcomeUnknown(r, Some("PROCESS_RESTARTED"), now);
        recovered := Upsert(recovered, unknown.value);
        recovery := Some(Recovery(RecoverUnknown, Some(r.id)));
      } else if r.state == OutcomeUnknown && r.acknowledgedAt.None? {
        recovery := Some(Recovery(RecoverUnknown, Some(r.id)));
      } else if r.state == Completed && r.outcome == Some(FailedBeforeExecution) && r.acknowledgedAt.None? {
        recovery := Some(Recovery(RecoverFailed, Some(r.id)));
      }
    }
    RecoverLeavesNoActive(journal, now);
    hide RecoverPrefix;
    RecoveryIsShown(journal, |journal|, now);
    assert forall i :: 0 <= i < |journal| ==> journal[i] in journal;
    RecoveryDescribes(journal, |journal|, now);
  }

  /** Record `i` is the last of the journal that needs recovery. */
  ghost predicate NewestNeeds(journal: seq<Record>, i: nat)
    requires i < |journal|
  {
    NeedsRecovery(journal[i]) && forall k :: i < k < |journal| ==> !NeedsRecovery(journal[k])
  }

  /**
   * The banner names the record and tells what became of it: "did not run" for one
   * that was approved and not dispatched, or failed before execution; "may have
   * completed" for one that was dispatched, or has an unknown outcome.
   */
  ghost predicate Describes(b: Recovery, r: Record) {
    && b.operation == Some(r.id)
    && (b.kind == RecoverFailed <==>
          r.state == Approved || (r.state == Completed && r.outcome == Some(FailedBeforeExecution)))
    && (b.kind == RecoverUnknown <==> r.state == Dispatched || r.state == OutcomeUnknown)
  }

  lemma NeededIsDescribed(r: Record)
    requires NeedsRecovery(r)
    ensures Describes(RecoveryOf(r), r)
  {
  }

  lemma {:induction false} RecoveryDescribes(journal: seq<Record>, k: nat, now: int)
    requires k <= |journal|
    ensures var b := RecoverPrefix(journal, k, now).1;
      b.Some? ==> exists i :: 0 <= i < k && NeedsRecovery(journal[i]) && Describes(b.value, journal[i])
                              && forall n :: i < n < k ==> !NeedsRecovery(journal[n])
  {
    hide Upsert;
    hide Settle;
    if k > 0 {
      RecoveryDescribes(journal, k - 1, now);
      if NeedsRecovery(journal[k - 1]) {
        NeededIsDescribed(journal[k - 1]);
      }
      hide NeedsRecovery;
      hide Describes;
      hide RecoveryOf;
    }
  }

  lemma LastNMembers(s: seq<Record>, n: nat)
    ensures forall r :: r in LastN(s, n) ==> r in s
  {
  }

  lemma {:induction false} UpsertAnyMembers(journal: seq<Record>, op: Record)
    ensures forall r :: r in Upsert(journal, op) ==> r == op || (r in journal && r.id != op.id)
  {
    hide Sort;
    var next := Next(journal, op);
    FilterMembers(journal, op.id);
    FilterMembers(next, 0);
    var t, a := KeptTerminals(journal, op), KeptActive(journal, op);
    LastNMembers(Terminals(next), MAX_TERMINAL_OPERATIONS);
    LastNMembers(Actives(next), 1);
    SortMembers(t + a);
  }

  lemma SettleEnds(r: Record, now: int)
    requires Active(r)
    ensures !Active(Settle(r, now)) && Settle(r, now).id == r.id && Settle(r, now).createdAt == r.createdAt
  {
  }

  /** `r` is an unfinished record of `journal` that none of the first `k` records settles. */
  ghost predicate Unsettled(journal: seq<Record>, k: nat, r: Record)
    requires k <= |journal|
  {
    r in journal && forall i :: 0 <= i < k && Active(journal[i]) ==> journal[i].id != r.id
  }

  lemma {:induction false} RecoverPrefixActives(journal: seq<Record>, k: nat, now: int)
    requires k <= |journal|
    ensures forall r :: r in RecoverPrefix(journal, k, now).0 && Active(r) ==> Unsettled(journal, k, r)
  {
    if k > 0 {
      RecoverPrefixActives(journal, k - 1, now);
      var last := journal[k - 1];
      var before, after := RecoverPrefix(journal, k - 1, now).0, RecoverPrefix(journal, k, now).0;
      if Active(last) {
        SettleEnds(last, now);
        UpsertAnyMembers(before, Settle(last, now));
      }
      hide Settle;
      hide Upsert;
      forall r | r in after && Active(r) ensures Unsettled(journal, k, r) {
        assert r in before && Unsettled(journal, k - 1, r);
      }
    }
  }

  /** Recovery settles every unfinished record, even in a journal that no upsert could have built. */
  lemma RecoverLeavesNoActive(journal: seq<Record>, now: int)
    ensures forall r :: r in Recover(journal, now).0 ==> !Active(r)
  {
    RecoverPrefixActives(journal, |journal|, now);
    forall r | Active(r) ensures !Unsettled(journal, |journal|, r) {
      if r in journal {
        var i :| 0 <= i < |journal| && journal[i] == r;
      }
    }
  }

  lemma {:induction false} RecoveryIsShown(journal: seq<Record>, k: nat, now: int)
    requires k <= |journal|
    ensures RecoverPrefix(journal, k, now).1.Some? <==> exists i :: 0 <= i < k && NeedsRecovery(journal[i])
  {
    if k > 0 {
      RecoveryIsShown(journal, k - 1, now);
      if NeedsRecovery(journal[k - 1]) {
      } else {
        assert forall i :: 0 <= i < k && NeedsRecovery(journal[i]) ==> i < k - 1;
      }
    }
  }

  lemma {:induction false} RecoverNone(journal: seq<Record>, k: nat, now: int)
    requires k <= |journal|
    requires forall r :: r in journal ==> !Active(r)
    ensures RecoverPrefix(journal, k, now).0 == journal
  {
    if k > 0 {
      RecoverNone(journal, k - 1, now);
      assert journal[k - 1] in journal;
    }
  }

  lemma {:induction false} RecoverOne(journal: seq<Record>, p: nat, k: nat, now: int)
    requires k <= |journal| && p < |journal| && Active(journal[p])
    requires forall i :: 0 <= i < |journal| && i != p ==> !Active(journal[i])
    ensures RecoverPrefix(journal, k, now).0 == if p < k then Upsert(journal, Settle(journal[p], now)) else journal
  {
    hide Upsert;
    hide Settle;
    if k > 0 {
      RecoverOne(journal, p, k - 1, now);
    }
  }

  /** Recovery of a canonical journal settles its one unfinished record and touches nothing else. */
  lemma RecoverCanonical(journal: seq<Record>, now: int)
    requires Canonical(journal)
    ensures Canonical(Recover(journal, now).0)
    ensures Actives(journal) == [] ==> Recover(journal, now).0 == journal
    ensures forall a :: a in journal && Active(a) ==> Recover(journal, now).0 == Upsert(journal, Settle(a, now))
  {
    FilterMembers(journal, 0);
    if Actives(journal) == [] {
      RecoverNone(journal, |journal|, now);
    } else {
      var a := Actives(journal)[0];
      assert a in Actives(journal);
      var p :| 0 <= p < |journal| && journal[p] == a;
      forall i | 0 <= i < |journal| && i != p ensures !Active(journal[i]) {
        if Active(journal[i]) {
          ActiveMember(journal, journal[i]);
        }
      }
      RecoverOne(journal, p, |journal|, now);
      UpsertIsCanonical(journal, Settle(a, now));
    }
  }

  /** The banner is about the last record that needs recovery. */
  function Banner(s: seq<Record>): Option<Recovery> {
    if s == [] then None
    else if NeedsRecovery(s[|s| - 1]) then Some(RecoveryOf(s[|s| - 1]))
    else Banner(s[..|s| - 1])
  }

  lemma {:induction false} RecoverBanner(journal: seq<Record>, k: nat, now: int)
    requires k <= |journal|
    ensures RecoverPrefix(journal, k, now).1 == Banner(journal[..k])
  {
    if k > 0 {
      RecoverBanner(journal, k - 1, now);
      assert journal[..k][..k - 1] == journal[..k - 1];
    }
  }

  /** A second restart leaves every journal as the first one left it. */
  lemma RecoverIdempotent(journal: seq<Record>, now: int, later: int)
    ensures Recover(Recover(journal, now).0, later).0 == Recover(journal, now).0
  {
    var once := Recover(journal, now).0;
    RecoverLeavesNoActive(journal, now);
    RecoverNone(once, |once|, later);
  }

  lemma {:induction false} AcknowledgedRecords(journal: seq<Record>, id: Option<nat>, now: int)
    ensures var a := Acknowledge(journal, id, now);
      && |a| == |journal|
      && forall i :: 0 <= i < |a| ==>
           a[i] == if id == Some(journal[i].id) then journal[i].(acknowledgedAt := Some(now)) else journal[i]
  {
    if id.Some? && journal != [] {
      AcknowledgedRecords(journal[..|journal| - 1], id, now);
    }
  }

  lemma {:induction false} SameActives(s: seq<Record>, t: seq<Record>)
    requires |s| == |t| && forall i :: 0 <= i < |s| ==> (Active(s[i]) <==> Active(t[i]))
    ensures |Actives(s)| == |Actives(t)|
  {
    if s != [] {
      SameActives(s[..|s| - 1], t[..|t| - 1]);
    }
  }

  /** Continue acknowledges one record and keeps the shape of the journal. */
  lemma AcknowledgeFacts(journal: seq<Record>, id: Option<nat>, now: int)
    ensures var a := Acknowledge(journal, id, now);
      && |a| == |journal| && |Actives(a)| == |Actives(journal)|
      && forall i :: 0 <= i < |a| ==>
           a[i] == if id == Some(journal[i].id) then journal[i].(acknowledgedAt := Some(now)) else journal[i]
  {
    hide Acknowledge;
    hide Actives;
    AcknowledgedRecords(journal, id, now);
    SameActives(Acknowledge(journal, id, now), journal);
  }

  /** In a journal without unfinished records the acknowledged one needs no recovery. */
  lemma AcknowledgedNeedsNone(journal: seq<Record>, id: nat, now: int, r: Record)
    requires forall q :: q in journal ==> !Active(q)
    requires r in Acknowledge(journal, Some(id), now) && r.id == id
    ensures !NeedsRecovery(r)
  {
    hide Acknowledge;
    AcknowledgedRecords(journal, Some(id), now);
    var a := Acknowledge(journal, Some(id), now);
    var i :| 0 <= i < |a| && a[i] == r;
    assert journal[i] in journal;
  }

  lemma AcknowledgeCanonical(journal: seq<Record>, id: Option<nat>, now: int)
    requires Canonical(journal)
    ensures Canonical(Acknowledge(journal, id, now))
  {
    hide Acknowledge;
    hide Actives;
    hide Terminals;
    hide Without;
    AcknowledgeFacts(journal, id, now);
    FilterMembers(journal, 0);
    FilterMembers(Acknowledge(journal, id, now), 0);
  }
}

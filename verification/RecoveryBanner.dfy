/**
 * The banner a restart shows (open-muse/server/operation-lifecycle.ts), and when a
 * second restart shows the same one.
 */
module RecoveryBanner {
  import opened Common
  import opened OperationLifecycle

  // ---------------------------------------------------------------- what recovery makes of a journal

  lemma {:induction false} WithoutMiddle(init: seq<Record>, a: Record, rest: seq<Record>)
    requires forall r :: r in init || r in rest ==> r.id != a.id
    ensures Without(init + [a] + rest, a.id) == init + rest
    decreases |rest|
  {
    var s := init + [a] + rest;
    if rest == [] {
      AppendedWithout(init, a.id);
      assert s[..|s| - 1] == init && init + rest == init;
    } else {
      var fewer, last := rest[..|rest| - 1], rest[|rest| - 1];
      WithoutMiddle(init, a, fewer);
      assert s[..|s| - 1] == init + [a] + fewer && s[|s| - 1] == last;
      assert init + rest == init + fewer + [last];
    }
  }

  lemma {:induction false} InsertBetween(init: seq<Record>, rest: seq<Record>, x: Record)
    requires init == [] || init[|init| - 1].createdAt <= x.createdAt
    requires forall r :: r in rest ==> x.createdAt < r.createdAt
    ensures Insert(init + rest, x) == init + [x] + rest
    decreases |rest|
  {
    if rest == [] {
      assert init + rest == init && init + [x] + rest == init + [x];
    } else {
      var fewer, last := rest[..|rest| - 1], rest[|rest| - 1];
      InsertBetween(init, fewer, x);
      assert (init + rest)[..|init + rest| - 1] == init + fewer;
      assert init + [x] + rest == init + [x] + fewer + [last];
    }
  }

  /** The unfinished record `a` with the finished ones around it, as a canonical journal has them. */
  ghost predicate Around(init: seq<Record>, a: Record, rest: seq<Record>) {
    && Active(a) && |init + rest| <= MAX_TERMINAL_OPERATIONS && Sorted(init + rest)
    && (forall r :: r in init || r in rest ==> r.id != a.id && !Active(r))
    && (forall r :: r in init ==> r.createdAt <= a.createdAt)
    && (forall r :: r in rest ==> a.createdAt < r.createdAt)
  }

  lemma CanonicalAround(journal: seq<Record>, p: nat)
    requires Canonical(journal) && p < |journal| && Active(journal[p])
    ensures Around(journal[..p], journal[p], journal[p + 1..])
    ensures journal == journal[..p] + [journal[p]] + journal[p + 1..]
  {
    hide Actives;
    hide Terminals;
    var init, a, rest := journal[..p], journal[p], journal[p + 1..];
    CanonicalSize(journal);
    OnlyOne(journal, p);
    forall r | r in init || r in rest ensures r.id != a.id && !Active(r) {
      var i :| 0 <= i < |journal| && i != p && journal[i] == r;
    }
    assert forall i :: 0 <= i < |init + rest| ==> (init + rest)[i] == journal[if i < p then i else i + 1];
    assert Sorted(init + rest);
    hide Canonical;
  }

  lemma CanonicalSize(journal: seq<Record>)
    requires Canonical(journal)
    ensures |journal| <= MAX_TERMINAL_OPERATIONS + 1
  {
    hide Actives;
    hide Terminals;
    FilterMembers(journal, 0);
  }

  /** The finished records that are left when the settled one is written: one too many drops the oldest. */
  function Kept(others: seq<Record>): seq<Record> {
    if |others| < MAX_TERMINAL_OPERATIONS then others else others[1..]
  }

  lemma KeptFacts(others: seq<Record>, x: Record)
    requires |others| <= MAX_TERMINAL_OPERATIONS && Sorted(others)
    ensures LastN(others + [x], MAX_TERMINAL_OPERATIONS) == Kept(others) + [x]
    ensures Sorted(Kept(others))
  {
    if |others| == MAX_TERMINAL_OPERATIONS {
      DropConcat(others, [x]);
      assert forall i :: 0 <= i < |others[1..]| ==> others[1..][i] == others[i + 1];
    }
  }

  lemma SortKept(others: seq<Record>, x: Record)
    requires |others| <= MAX_TERMINAL_OPERATIONS && Sorted(others)
    ensures Sort(LastN(others + [x], MAX_TERMINAL_OPERATIONS)) == Insert(Kept(others), x)
  {
    hide Insert;
    hide Sort;
    KeptFacts(others, x);
    SortedIsFixed(Kept(others));
    SortSnoc(Kept(others), x);
  }

  lemma SettledUpsert(init: seq<Record>, a: Record, rest: seq<Record>, settled: Record)
    requires Around(init, a, rest) && !Active(settled) && settled.id == a.id && settled.createdAt == a.createdAt
    ensures Upsert(init + [a] + rest, settled) == Insert(Kept(init + rest), settled)
  {
    hide Insert;
    hide Sort;
    hide Kept;
    hide Actives;
    hide Terminals;
    var others := init + rest;
    var next := others + [settled];
    WithoutMiddle(init, a, rest);
    hide Without;
    assert Next(init + [a] + rest, settled) == next;
    NoActives(next);
    var kept := LastN(next, MAX_TERMINAL_OPERATIONS);
    assert kept + LastN([], 1) == kept;
    SortKept(others, settled);
  }

  lemma InsertFirst(rest: seq<Record>, x: Record)
    requires forall r :: r in rest ==> x.createdAt < r.createdAt
    ensures Insert(rest, x) == [x] + rest
  {
    hide Insert;
    var none: seq<Record> := [];
    InsertBetween(none, rest, x);
    assert none + rest == rest && none + [x] == [x];
  }

  lemma DropConcat(s: seq<Record>, t: seq<Record>)
    requires s != []
    ensures (s + t)[1..] == s[1..] + t
  {
  }

  /** Dropping the oldest of the records around a place. */
  lemma InsertAfterDrop(init: seq<Record>, rest: seq<Record>, x: Record)
    requires init + rest != []
    requires forall r :: r in init ==> r.createdAt <= x.createdAt
    requires forall r :: r in rest ==> x.createdAt < r.createdAt
    ensures Insert((init + rest)[1..], x) == if init != [] then init[1..] + [x] + rest else [x] + rest[1..]
  {
    hide Insert;
    if init != [] {
      DropConcat(init, rest);
      var fewer := init[1..];
      assert fewer != [] ==> fewer[|fewer| - 1] in init;
      InsertBetween(fewer, rest, x);
    } else {
      assert init + rest == rest;
      var fewer := rest[1..];
      assert forall r :: r in fewer ==> r in rest;
      InsertFirst(fewer, x);
    }
  }

  /** Settling keeps the place of the unfinished record; a full journal loses its oldest finished one. */
  lemma SettledShape(init: seq<Record>, a: Record, rest: seq<Record>, settled: Record)
    requires Around(init, a, rest) && !Active(settled) && settled.id == a.id && settled.createdAt == a.createdAt
    ensures var full := |init + rest| == MAX_TERMINAL_OPERATIONS;
      Upsert(init + [a] + rest, settled) ==
        if !full then init + [settled] + rest
        else if init != [] then init[1..] + [settled] + rest
        else [settled] + rest[1..]
  {
    hide Upsert;
    hide Insert;
    hide Sorted;
    SettledUpsert(init, a, rest, settled);
    if |init + rest| < MAX_TERMINAL_OPERATIONS {
      InsertBetween(init, rest, settled);
    } else {
      InsertAfterDrop(init, rest, settled);
    }
  }

  // ---------------------------------------------------------------- banners

  lemma {:induction false} BannerConcat(s: seq<Record>, t: seq<Record>)
    ensures Banner(s + t) == if Banner(t).Some? then Banner(t) else Banner(s)
    decreases |t|
  {
    if t == [] {
      assert s + t == s;
    } else {
      BannerConcat(s, t[..|t| - 1]);
      assert (s + t)[..|s + t| - 1] == s + t[..|t| - 1];
    }
  }

  /** Some record needs recovery. */
  ghost predicate Needed(s: seq<Record>) {
    exists i :: 0 <= i < |s| && NeedsRecovery(s[i])
  }

  lemma {:induction false} BannerIsNeeded(s: seq<Record>)
    ensures Banner(s).Some? <==> Needed(s)
    ensures Banner(s).Some? ==> exists r :: r in s && Banner(s) == Some(RecoveryOf(r))
  {
    if s != [] {
      BannerIsNeeded(s[..|s| - 1]);
      if Needed(s) && !NeedsRecovery(s[|s| - 1]) {
        var i :| 0 <= i < |s| && NeedsRecovery(s[i]);
        assert s[..|s| - 1][i] == s[i];
      }
    }
  }

  lemma BannerOfOne(r: Record)
    ensures Banner([r]) == if NeedsRecovery(r) then Some(RecoveryOf(r)) else None
  {
    assert [r][..0] == [];
  }

  lemma ThreeBanners(init: seq<Record>, a: Record, rest: seq<Record>)
    ensures Banner(init + [a] + rest) ==
              if Banner(rest).Some? then Banner(rest)
              else if NeedsRecovery(a) then Some(RecoveryOf(a)) else Banner(init)
  {
    BannerConcat(init + [a], rest);
    BannerConcat(init, [a]);
    BannerOfOne(a);
  }

  /** The banner is about a record of the sequence, so not about `a`. */
  lemma BannerOfOthers(s: seq<Record>, a: Record)
    requires forall r :: r in s ==> r.id != a.id
    ensures Banner(s) != Some(RecoveryOf(a))
  {
    BannerIsNeeded(s);
  }

  // ---------------------------------------------------------------- when a second restart shows the same banner

  /**
   * What the first restart shows is not lost: if a record newer than the unfinished
   * one needs recovery, it is not the one that a full journal drops; and if none
   * does, nobody has acknowledged the unfinished one.
   */
  ghost predicate BannerStays(init: seq<Record>, a: Record, rest: seq<Record>) {
    if Needed(rest) then init != [] || |rest| < MAX_TERMINAL_OPERATIONS || Needed(rest[1..])
    else a.acknowledgedAt.None?
  }

  lemma SettledNeeds(a: Record, now: int)
    requires Active(a)
    ensures NeedsRecovery(Settle(a, now)) <==> a.acknowledgedAt.None?
    ensures RecoveryOf(Settle(a, now)) == RecoveryOf(a) && !Active(Settle(a, now))
    ensures Settle(a, now).id == a.id && Settle(a, now).createdAt == a.createdAt
  {
  }

  lemma SettledBanner(init: seq<Record>, a: Record, rest: seq<Record>, now: int)
    requires Around(init, a, rest)
    ensures Banner(Upsert(init + [a] + rest, Settle(a, now))) == Banner(init + [a] + rest) <==>
              BannerStays(init, a, rest)
  {
    var settled := Settle(a, now);
    SettledNeeds(a, now);
    SettledShape(init, a, rest, settled);
    hide Upsert;
    hide Settle;
    hide Banner;
    hide NeedsRecovery;
    assert NeedsRecovery(a) by { ActiveNeeds(a); }
    ThreeBanners(init, a, rest);
    BannerIsNeeded(rest);
    hide RecoveryOf;
    BannerOfOthers(init, a);
    BannerOfOthers(rest, a);
    if |init + rest| < MAX_TERMINAL_OPERATIONS {
      ThreeBanners(init, settled, rest);
    } else if init != [] {
      ThreeBanners(init[1..], settled, rest);
      BannerOfOthers(init[1..], a);
    } else {
      FullBanner(a, rest, settled);
    }
  }

  lemma ActiveNeeds(a: Record)
    requires Active(a)
    ensures NeedsRecovery(a)
  {
  }

  /** A full journal whose oldest record is the unfinished one loses the next oldest. */
  lemma FullBanner(a: Record, rest: seq<Record>, settled: Record)
    requires rest != [] && (forall r :: r in rest ==> r.id != a.id) && NeedsRecovery(a)
    requires (NeedsRecovery(settled) <==> a.acknowledgedAt.None?) && RecoveryOf(settled) == RecoveryOf(a)
    ensures var before := if Needed(rest) then Banner(rest) else Some(RecoveryOf(a));
      Banner([settled] + rest[1..]) == before <==>
        if Needed(rest) then Needed(rest[1..]) else a.acknowledgedAt.None?
  {
    hide NeedsRecovery;
    BannerConcat([settled], rest[1..]);
    BannerConcat([rest[0]], rest[1..]);
    assert rest == [rest[0]] + rest[1..];
    BannerOfOne(settled);
    BannerOfOne(rest[0]);
    BannerIsNeeded(rest);
    BannerIsNeeded(rest[1..]);
    BannerOfOthers(rest, a);
    hide RecoveryOf;
    hide Banner;
    hide Needed;
  }

  /** The second restart changes nothing but, perhaps, the banner. */
  lemma SecondRecovery(journal: seq<Record>, now: int, later: int)
    ensures Recover(Recover(journal, now).0, later) == Recover(journal, now) <==>
              Banner(Recover(journal, now).0) == Banner(journal)
  {
    hide RecoverPrefix;
    hide Banner;
    var once := Recover(journal, now).0;
    RecoverIdempotent(journal, now, later);
    RecoverBanner(once, |once|, later);
    RecoverBanner(journal, |journal|, now);
    assert once[..|once|] == once && journal[..|journal|] == journal;
  }

  lemma RecoveredOnce(journal: seq<Record>, p: nat, now: int)
    requires Canonical(journal) && p < |journal| && Active(journal[p])
    ensures Recover(journal, now).0 == Upsert(journal, Settle(journal[p], now))
  {
    hide RecoverPrefix;
    hide Upsert;
    hide Settle;
    OnlyOne(journal, p);
    RecoverOne(journal, p, |journal|, now);
  }

  lemma RecoveredAsIs(journal: seq<Record>, now: int)
    requires forall i :: 0 <= i < |journal| ==> !Active(journal[i])
    ensures Recover(journal, now).0 == journal
  {
    hide RecoverPrefix;
    RecoverNone(journal, |journal|, now);
  }

  /**
   * A second restart shows the banner of the first one exactly when the journal has
   * no unfinished record or the first banner is not lost in settling it.
   */
  lemma BannerIdempotent(journal: seq<Record>, now: int, later: int)
    requires Canonical(journal)
    ensures Recover(Recover(journal, now).0, later) == Recover(journal, now) <==>
      forall p :: 0 <= p < |journal| && Active(journal[p]) ==> BannerStays(journal[..p], journal[p], journal[p + 1..])
  {
    hide Upsert;
    hide Settle;
    hide Recover;
    hide BannerStays;
    hide Banner;
    hide Around;
    SecondRecovery(journal, now, later);
    if p :| 0 <= p < |journal| && Active(journal[p]) {
      CanonicalAround(journal, p);
      OnlyOne(journal, p);
      RecoveredOnce(journal, p, now);
      hide Canonical;
      SettledBanner(journal[..p], journal[p], journal[p + 1..], now);
    } else {
      RecoveredAsIs(journal, now);
    }
  }

  lemma OnlyOne(journal: seq<Record>, p: nat)
    requires Canonical(journal) && p < |journal| && Active(journal[p])
    ensures forall i :: 0 <= i < |journal| && i != p ==> !Active(journal[i])
  {
    forall i | 0 <= i < |journal| && i != p ensures !Active(journal[i]) {
      if Active(journal[i]) {
        ActiveMember(journal, journal[i]);
        ActiveMember(journal, journal[p]);
      }
    }
  }

  /** Creation times did not decrease: no record is newer than an unfinished one, which nobody has acknowledged yet. */
  ghost predicate NewestIsActive(journal: seq<Record>) {
    forall a, r :: a in journal && Active(a) && r in journal ==> r.createdAt <= a.createdAt && a.acknowledgedAt.None?
  }

  /** With non-decreasing creation times a second restart always shows the same banner. */
  lemma NewestKeepsBanner(journal: seq<Record>, now: int, later: int)
    requires Canonical(journal) && NewestIsActive(journal)
    ensures Recover(Recover(journal, now).0, later) == Recover(journal, now)
  {
    hide Recover;
    forall p | 0 <= p < |journal| && Active(journal[p])
      ensures BannerStays(journal[..p], journal[p], journal[p + 1..])
    {
      assert journal[p] in journal && journal[|journal| - 1] in journal;
      assert journal[p + 1..] == [];
    }
    BannerIdempotent(journal, now, later);
  }
}

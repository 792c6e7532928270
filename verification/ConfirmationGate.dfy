/**
 * The confirmation gate of OpenMuse (open-muse/server/conversation-runtime.ts):
 * one lease at a time, at which a tool call waits for the user's decision and
 * the user's request waits for the tool call to settle.
 */
module ConfirmationGates {
  import opened Common

  /** How the promise of a decision settles; a settled promise never changes. */
  datatype Decision = Resolved(approved: bool) | Rejected

  datatype End = Open | Finished | Interrupted

  class Lease {
    const approvalId: nat
    const actionDigest: nat
    var decided: bool
    var decision: Option<Decision>
    var completed: bool          // the promise every `resolve` caller waits for
    ghost var end: End

    constructor (approvalId: nat, actionDigest: nat)
      ensures this.approvalId == approvalId && this.actionDigest == actionDigest
      ensures !decided && decision.None? && !completed && end == Open
    {
      this.approvalId, this.actionDigest := approvalId, actionDigest;
      decided, decision, completed, end := false, None, false, Open;
    }

    /**
     * A lease is over exactly when its waiters are released; it was interrupted
     * exactly when its decision was refused, and then it had not been decided.
     */
    ghost predicate Ok()
      reads this
    {
      && (completed <==> end != Open)
      && (decided <==> decision.Some? && decision.value.Resolved?)
      && (end == Interrupted <==> decision == Some(Rejected))
    }
  }

  class ConfirmationGate {
    var lease: Lease?
    ghost var past: set<Lease>

    /** The leases before the current one are over, the current one is not. */
    ghost predicate Valid()
      reads this, lease, past
    {
      && (forall l :: l in past ==> l.Ok() && l.end != Open)
      && (lease != null ==> lease.Ok() && lease.end == Open && lease !in past)
    }

    constructor ()
      ensures Valid() && lease == null && past == {}
    {
      lease, past := null, {};
    }

    /** A tool call asks for confirmation; while another lease is open it is refused. */
    method Wait(approvalId: nat, actionDigest: nat) returns (mine: Lease?)
      requires Valid()
      modifies this
      ensures Valid()
      ensures old(lease) != null ==> mine == null && lease == old(lease) && past == old(past)
      ensures old(lease) == null ==>
        && mine != null && fresh(mine) && lease == mine && past == old(past)
        && mine.approvalId == approvalId && mine.actionDigest == actionDigest && mine.decision.None? && !mine.completed
    {
      if lease != null {
        return null;
      }
      mine := new Lease(approvalId, actionDigest);
      lease := mine;
    }

    /**
     * The user decides. A stale or unknown approval is refused and changes
     * nothing; otherwise the caller waits for the lease it decided, and only the
     * first decision counts.
     */
    method Resolve(approvalId: nat, actionDigest: nat, approved: bool) returns (waitsFor: Lease?)
      requires Valid()
      modifies lease
      ensures Valid() && lease == old(lease) && past == old(past)
      ensures waitsFor != null <==>
        lease != null && lease.approvalId == approvalId && lease.actionDigest == actionDigest
      ensures waitsFor != null ==> waitsFor == lease && lease.decided && !lease.completed
      ensures waitsFor != null ==>
        lease.decision == if old(lease.decision).None? then Some(Resolved(approved)) else old(lease.decision)
      ensures waitsFor == null && lease != null ==>
          lease.decision == old(lease.decision) && lease.decided == old(lease.decided)
    {
      if lease == null || lease.approvalId != approvalId || lease.actionDigest != actionDigest {
        return null;
      }
      lease.decided := true;
      if lease.decision.None? {
        lease.decision := Some(Resolved(approved));
      }
      return lease;
    }

    /** The tool call has settled: its own lease, and no other, ends and releases its waiters. */
    method Finish(approvalId: nat)
      requires Valid()
      modifies this, lease
      ensures Valid()
      ensures old(lease) == null || old(lease).approvalId != approvalId ==> lease == old(lease) && past == old(past)
      ensures old(lease) != null && old(lease).approvalId == approvalId ==>
        && lease == null && past == old(past) + {old(lease)}
        && old(lease).completed && old(lease).end == Finished && old(lease).decision == old(lease.decision)
    {
      if lease == null || lease.approvalId != approvalId {
        return;
      }
      var ending := lease;
      lease := null;
      ending.completed, ending.end := true, Finished;
      past := past + {ending};
    }

    /** Cancellation ends an undecided lease and rejects its decision; a decided one cannot be interrupted. */
    method Interrupt()
      requires Valid()
      modifies this, lease
      ensures Valid()
      ensures old(lease) == null || old(lease.decided) ==> lease == old(lease) && past == old(past)
      ensures old(lease) != null && old(lease.decided) ==> lease.decision == old(lease.decision) && !lease.completed
      ensures old(lease) != null && !old(lease.decided) ==>
        && lease == null && past == old(past) + {old(lease)}
        && old(lease).completed && old(lease).end == Interrupted && old(lease).decision == Some(Rejected)
    {
      if lease == null || lease.decided {
        return;
      }
      var ending := lease;
      lease := null;
      ending.decision, ending.completed, ending.end := Some(Rejected), true, Interrupted;
      past := past + {ending};
    }
  }
}

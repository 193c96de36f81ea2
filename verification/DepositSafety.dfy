/** What survives every interleaving of read and write phases on one deposit. */
module DepositSafety {
  import opened Basics
  import opened Lifecycle
  import opened Deposits

  ghost predicate NonDecreasing(h: seq<HistoryEntry>)
  {
    forall i, j :: 0 <= i < j < |h| ==> h[i].timestamp <= h[j].timestamp
  }

  /** The current state is the last one recorded, and each state has the record it needs. */
  ghost predicate WellFormed(d: Deposit)
  {
    && d.history != []
    && d.history[0].state == Requested
    && d.history[|d.history| - 1].state == d.state
    && NonDecreasing(d.history)
    && (d.state == SettleProposed || d.state == Disputed ==> d.settlement.Some?)
    && (d.state == PartiallyReleased ==> d.reservation.Some?)
    && (d.state == Pledged ==> d.pledge.Some?)
  }

  /** A later version of the same deposit: history only grows and no record becomes nil again. */
  ghost predicate Extends(d: Deposit, later: Deposit)
  {
    && later.id == d.id && later.info == d.info
    && d.history <= later.history
    && (d.pledge.Some? ==> later.pledge.Some?)
    && (d.settlement.Some? ==> later.settlement.Some?)
    && (d.reservation.Some? ==> later.reservation.Some?)
  }

  /** The plan can be carried out on `d`, and on every later version of `d`. */
  ghost predicate Fits(d: Deposit, u: Plan)
    requires u.Update?
  {
    && (u.patch.AgreeToProposal? ==> d.settlement.Some?)
    && (u.patch.ResolveReservation? ==> d.reservation.Some?)
    && (u.to == SettleProposed ==> u.patch.SetSettlement? || (u.patch.ResolveReservation? && u.patch.claim.Some?))
    && (u.to == Disputed ==> u.patch.Escalate?)
    && (u.to == PartiallyReleased ==> u.patch.SetReservation?)
    && (u.to == Pledged ==> u.patch.SetPledge? || d.pledge.Some?)
    && u.to != Requested && u.to != Funded
  }

  lemma SettleFits(d: Deposit, r: Request, now: int)
    requires WellFormed(d) && r.Settle?
    ensures !DecideSettle(d, r, now).Panic?
    ensures DecideSettle(d, r, now).Update? ==> Fits(d, DecideSettle(d, r, now))
  {
  }

  lemma UtilityFits(d: Deposit, r: Request, now: int)
    requires WellFormed(d) && r.UtilitySettle?
    ensures !DecideUtility(d, r, now).Panic?
    ensures DecideUtility(d, r, now).Update? ==> Fits(d, DecideUtility(d, r, now))
  {
  }

  /** Whatever a handler reads in a well-formed deposit, it does not panic and its plan fits. */
  lemma DecideFits(d: Deposit, r: Request, now: int)
    requires WellFormed(d)
    ensures !Decide(Some(d), r, now).Panic?
    ensures Decide(Some(d), r, now).Update? ==> Fits(d, Decide(Some(d), r, now))
  {
    if r.Settle? {
      SettleFits(d, r, now);
    } else if r.UtilitySettle? {
      UtilityFits(d, r, now);
    } else {
      match r {
        case SettleAccept(_) =>
        case VpResponse(_, _, _, _) =>
        case _ =>
      }
    }
  }

  lemma FitsLater(d: Deposit, later: Deposit, u: Plan)
    requires u.Update? && Fits(d, u) && Extends(d, later)
    ensures Fits(later, u)
  {
  }

  lemma ExtendsTransitive(a: Deposit, b: Deposit, c: Deposit)
    requires Extends(a, b) && Extends(b, c)
    ensures Extends(a, c)
  {
  }

  /** A fitting plan commits without a nil dereference, whatever happened since it was made. */
  lemma CommitSafe(d: Deposit, u: Plan, now: int)
    requires u.Update? && Fits(d, u) && WellFormed(d)
    requires d.history[|d.history| - 1].timestamp <= now
    ensures Commit(d, u, now).Some?
    ensures WellFormed(Commit(d, u, now).value)
    ensures Extends(d, Commit(d, u, now).value)
    ensures Commit(d, u, now).value.history == d.history + [EntryOf(u, now)]
    ensures Commit(d, u, now).value.state == u.to
  {
    PatchKeeps(d, u.patch);
    var d' := Commit(d, u, now).value;
    forall i, j | 0 <= i < j < |d'.history|
      ensures d'.history[i].timestamp <= d'.history[j].timestamp
    {
      assert d.history[i].timestamp <= d.history[|d.history| - 1].timestamp;
    }
  }

  lemma PatchKeeps(d: Deposit, p: Patch)
    ensures ApplyPatch(d, p).None? <==>
            (p.AgreeToProposal? && d.settlement.None?) || (p.ResolveReservation? && d.reservation.None?)
    ensures ApplyPatch(d, p).Some? ==>
              var d' := ApplyPatch(d, p).value;
              && Extends(d, d') && d'.history == d.history && d'.state == d.state
  {
  }
}

/** The money of a deposit: what a partial release, a utility statement and an agreement record, when
    the records add up, and inputs on which they do not. */
module DepositMoney {
  import opened Basics
  import opened Lifecycle
  import opened Deposits
  import opened DepositSafety
  import opened DepositRuns

  // ---------------------------------------------------------------- the reservation

  /** Requests that neither counter the utility claim nor bring in an outside settlement. */
  ghost predicate Uncontested(rs: seq<Received>)
  {
    forall i :: 0 <= i < |rs| ==> !rs[i].req.Settle? && !rs[i].req.DisputeResolve?
  }

  function Owed(v: Reservation): real
  {
    Shortfall(v.actualCost, v.totalAdvancePaid)
  }

  /** How the reservation of `v0` stands at `d`, with `s0` the settlement that was there before. */
  ghost predicate Reserved(d: Deposit, info: Info, v0: Reservation, s0: Option<Settlement>)
  {
    && d.info == info
    && d.reservation.Some?
    && d.reservation.value.released == v0.released && d.reservation.value.reserved == v0.reserved
    && d.state in {PartiallyReleased, SettleProposed, Disputed, Closed}
    && (d.state == PartiallyReleased || (d.state == Closed && Owed(d.reservation.value) <= 0.0) ==> d.settlement == s0)
    && (d.state == SettleProposed || d.state == Disputed ==>
          && Owed(d.reservation.value) > 0.0
          && d.settlement.Some?
          && d.settlement.value.retention == Retention(Owed(d.reservation.value), v0.reserved)
          && d.settlement.value.refund == v0.reserved - d.settlement.value.retention)
    && (d.state == Closed && Owed(d.reservation.value) > 0.0 ==>
          && d.settlement.Some?
          && d.settlement.value.agreedRetention == Retention(Owed(d.reservation.value), v0.reserved)
          && d.settlement.value.agreedRefund == v0.reserved - d.settlement.value.agreedRetention)
  }

  lemma DisputeKeeps(d: Deposit, r: Request, now: int)
    requires r.Dispute?
    ensures var d' := Step(d, r, now);
            d' != d ==>
              && d.state == SettleProposed && d'.state == Disputed
              && d'.info == d.info && d'.reservation == d.reservation
  {
  }

  lemma OthersLeaveReservation(d: Deposit, r: Request, now: int)
    requires !r.Settle? && !r.DisputeResolve? && !r.SettleAccept? && !r.Dispute? && !r.UtilitySettle?
    requires d.state in {PartiallyReleased, SettleProposed, Disputed, Closed}
    ensures Step(d, r, now) == d
  {
  }

  lemma ReservedStep(d: Deposit, info: Info, v0: Reservation, s0: Option<Settlement>, r: Request, now: int)
    requires Reserved(d, info, v0, s0) && !r.Settle? && !r.DisputeResolve?
    ensures Reserved(Step(d, r, now), info, v0, s0)
  {
    if r.UtilitySettle? {
      UtilityOffers(d, r, now);
    } else if r.SettleAccept? {
      AcceptSeals(d, r, now);
    } else if r.Dispute? {
      DisputeKeeps(d, r, now);
      StepTimestamps(d, r, now);
      if d.settlement.Some? {
        DisputingStep(d, r, now);
      }
    } else {
      OthersLeaveReservation(d, r, now);
    }
  }

  lemma {:induction false} ReservedRun(d: Deposit, info: Info, v0: Reservation, s0: Option<Settlement>, rs: seq<Received>)
    requires Reserved(d, info, v0, s0) && Uncontested(rs)
    ensures Reserved(Replay(d, rs), info, v0, s0)
  {
    if rs != [] {
      ReservedRun(d, info, v0, s0, rs[..|rs| - 1]);
      ReservedStep(Replay(d, rs[..|rs| - 1]), info, v0, s0, rs[|rs| - 1].req, rs[|rs| - 1].at);
    }
  }

  /** What the record of a deposit says that the landlord keeps. */
  function StoredRetention(s: Option<Settlement>): real
  {
    if s.None? then 0.0 else s.value.agreedRetention
  }

  /** After a partial release, along every uncontested run: a utility claim never asks for more than
      the shortfall or the reservation; a run that closes on a shortfall records exactly what was
      released and reserved, hence the deposit amount if and only if the partial release added up to
      it; and a run that closes without one records no split, so the settlement stays what it was. */
  lemma ReservationConserved(p: Deposit, r: Request, at: int, rs: seq<Received>)
    requires r.PartialRelease? && Step(p, r, at) != p && Uncontested(rs)
    ensures var d := Replay(Step(p, r, at), rs);
            && d.info == p.info
            && d.reservation.Some?
            && d.reservation.value.released == r.released && d.reservation.value.reserved == r.reserved
            && (d.state == SettleProposed || d.state == Disputed ==>
                  && d.settlement.Some?
                  && 0.0 <= d.settlement.value.retention <= Owed(d.reservation.value)
                  && d.settlement.value.retention <= r.reserved
                  && d.settlement.value.refund + d.settlement.value.retention == r.reserved)
            && (d.state == Closed && Owed(d.reservation.value) > 0.0 ==>
                  && d.settlement.Some?
                  && 0.0 <= d.settlement.value.agreedRetention <= Owed(d.reservation.value)
                  && d.settlement.value.agreedRetention <= r.reserved
                  && d.settlement.value.agreedRefund + d.settlement.value.agreedRetention == r.reserved
                  && (r.released + d.settlement.value.agreedRefund + d.settlement.value.agreedRetention == d.info.amount
                      <==> r.released + r.reserved == p.info.amount))
            && (d.state == Closed && Owed(d.reservation.value) <= 0.0 ==> d.settlement == p.settlement)
  {
    var d0 := Step(p, r, at);
    var v0 := d0.reservation.value;
    assert v0.reserved == r.reserved > 0.0 && v0.released == r.released && d0.settlement == p.settlement;
    ReservedRun(d0, p.info, v0, d0.settlement, rs);
  }

  predicate Early(s: State)
  {
    s == Requested || s == Identified || s == Pledged
  }

  lemma EarlyStep(d: Deposit, r: Request, now: int)
    requires d.state != Funded && Step(d, r, now) != d && Early(Step(d, r, now).state)
    ensures Early(d.state) && Step(d, r, now).settlement == d.settlement
  {
    StepTimestamps(d, r, now);
    DecideLegal(d, r, now);
  }

  /** Up to and including PLEDGED the settlement is the one that came with the creation request. */
  lemma {:induction false} NoSettlementYet(id: string, info: Info, x: Extras, start: int, rs: seq<Received>)
    requires Ascending(start, rs)
    ensures var d := Replay(NewDeposit(id, info, x, start), rs);
            Early(d.state) ==> d.settlement == x.settlement
  {
    if rs != [] {
      var prefix, r := rs[..|rs| - 1], rs[|rs| - 1];
      NoSettlementYet(id, info, x, start, prefix);
      EveryRunWalks(id, info, x, start, prefix);
      var d := Replay(NewDeposit(id, info, x, start), prefix);
      assert d.history[|d.history| - 1].state in States(d.history);
      if Step(d, r.req, r.at) != d && Early(Step(d, r.req, r.at).state) {
        EarlyStep(d, r.req, r.at);
      }
    }
  }

  /** The retention on record stays within the shortfall and the reservation. */
  ghost predicate RetentionBounded(d: Deposit)
    requires d.reservation.Some?
  {
    var owed := Owed(d.reservation.value);
    0.0 <= StoredRetention(d.settlement) <= (if owed <= 0.0 then 0.0 else Retention(owed, d.reservation.value.reserved))
  }

  lemma ClosedBoundedExactly(p: Deposit, r: Request, at: int, rs: seq<Received>)
    requires r.PartialRelease? && Step(p, r, at) != p && Uncontested(rs) && Replay(Step(p, r, at), rs).state == Closed
    ensures var d := Replay(Step(p, r, at), rs);
            d.reservation.Some?
            && (RetentionBounded(d) <==> Owed(d.reservation.value) > 0.0 || StoredRetention(p.settlement) == 0.0)
  {
    ReservationConserved(p, r, at, rs);
  }

  lemma PartialFromPledged(p: Deposit, r: Request, at: int)
    requires r.PartialRelease? && Step(p, r, at) != p
    ensures p.state == Pledged
  {
  }

  /** The retention that a closed, uncontested deposit records stays within the shortfall and the
      reservation, and is zero without a shortfall, if and only if there was a shortfall or the
      creation request brought no retention of its own. */
  lemma RetentionBoundedExactly(id: string, info: Info, x: Extras, start: int, before: seq<Received>,
                                r: Request, at: int, rs: seq<Received>)
    requires Ascending(start, before)
    requires var p := Replay(NewDeposit(id, info, x, start), before);
             r.PartialRelease? && Step(p, r, at) != p && Uncontested(rs) && Replay(Step(p, r, at), rs).state == Closed
    ensures var d := Replay(Step(Replay(NewDeposit(id, info, x, start), before), r, at), rs);
            d.reservation.Some?
            && (RetentionBounded(d) <==> Owed(d.reservation.value) > 0.0 || StoredRetention(x.settlement) == 0.0)
  {
    var p := Replay(NewDeposit(id, info, x, start), before);
    PartialFromPledged(p, r, at);
    NoSettlementYet(id, info, x, start, before);
    ClosedBoundedExactly(p, r, at, rs);
  }

  // ---------------------------------------------------------------- inputs on which the records do not add up

  const SAMPLE := Info("a", "b", "c", "d", 1000.0, "EUR", "CASH_EQUIVALENT", "2.0.0")
  const NO_EXTRAS := Extras("", None, None, None, None)

  function At0(r: Request): Received
  {
    Received(0, r)
  }

  const IDENTIFY := At0(UpdateIdentity("VERIFIED", None))
  const PLEDGE := At0(PledgeDeposit("2025-01-01", true))

  /** A new deposit, identified and pledged. */
  function Opened(x: Extras): Deposit
  {
    Step(Step(NewDeposit("id", SAMPLE, x, 0), IDENTIFY.req, 0), PLEDGE.req, 0)
  }

  lemma Identifies(d: Deposit)
    requires d.state == Requested
    ensures Step(d, IDENTIFY.req, 0) ==
            d.(eid := "VERIFIED", state := Identified, history := d.history + [HistoryEntry(Identified, 0, IDENTITY_PROVIDER, "")])
  {
  }

  lemma Pledges(d: Deposit)
    requires d.state == Identified
    ensures var d' := Step(d, PLEDGE.req, 0);
            && d'.state == Pledged && d'.info == d.info && d'.settlement == d.settlement && d'.reservation == d.reservation
            && d'.history == d.history + [HistoryEntry(Pledged, 0, "BANK", "")]
  {
  }

  lemma OpenedIsPledged(x: Extras)
    ensures var d := Opened(x);
            && d.state == Pledged && d.info == SAMPLE && d.settlement == x.settlement && d.reservation == x.reservation
            && Disputed !in States(d.history)
  {
    var d0 := NewDeposit("id", SAMPLE, x, 0);
    Identifies(d0);
    Pledges(Step(d0, IDENTIFY.req, 0));
    assert forall i :: 0 <= i < |Opened(x).history| ==> Opened(x).history[i].state != Disputed;
  }

  /** Two more requests after the opening. */
  lemma ReplayOpened(x: Extras, c: Request, e: Request)
    ensures Replay(NewDeposit("id", SAMPLE, x, 0), [IDENTIFY, PLEDGE, At0(c), At0(e)]) == Step(Step(Opened(x), c, 0), e, 0)
  {
    var d, a, b := NewDeposit("id", SAMPLE, x, 0), At0(c), At0(e);
    ReplayAppend(d, [], IDENTIFY);
    ReplayAppend(d, [IDENTIFY], PLEDGE);
    ReplayAppend(d, [IDENTIFY, PLEDGE], a);
    ReplayAppend(d, [IDENTIFY, PLEDGE, a], b);
    assert [] + [IDENTIFY] == [IDENTIFY] && [IDENTIFY] + [PLEDGE] == [IDENTIFY, PLEDGE];
    assert [IDENTIFY, PLEDGE] + [a] == [IDENTIFY, PLEDGE, a] && [IDENTIFY, PLEDGE, a] + [b] == [IDENTIFY, PLEDGE, a, b];
  }

  lemma ProposeThenAccept(d: Deposit, claim: ClaimInput, refund: real, retention: real)
    requires d.state == Pledged && claim.amount > 0.0 && claim.description != ""
    ensures var d1 := Step(d, Settle(LANDLORD, [claim], NO_TENANCY, refund, retention), 0);
            var d2 := Step(d1, SettleAccept(TENANT), 0);
            && d2.state == Closed && d2.info == d.info && d2.settlement.Some?
            && d2.settlement.value.agreedRefund == refund && d2.settlement.value.agreedRetention == retention
  {
    var d1 := Step(d, Settle(LANDLORD, [claim], NO_TENANCY, refund, retention), 0);
    assert d1.state == SettleProposed && d1.info == d.info;
    assert d1.settlement.Some? && d1.settlement.value.lastProposedBy == LANDLORD;
    AcceptsOther(d1);
  }

  lemma AcceptsOther(d: Deposit)
    requires d.state == SettleProposed && d.settlement.Some? && d.settlement.value.lastProposedBy == LANDLORD
    ensures var d' := Step(d, SettleAccept(TENANT), 0);
            && d'.state == Closed && d'.info == d.info && d'.settlement.Some?
            && d'.settlement.value.agreedRefund == d.settlement.value.refund
            && d'.settlement.value.agreedRetention == d.settlement.value.retention
  {
    assert LANDLORD[0] != TENANT[0];
  }

  /** A proposal that does not add up to the deposit is accepted and closes it. */
  lemma SettlementNeedNotAddUp()
    ensures var rs := [IDENTIFY, PLEDGE,
                       At0(Settle(LANDLORD, [ClaimInput("", "paint", 1.0, [], "")], NO_TENANCY, 2.0, 3.0)),
                       At0(SettleAccept(TENANT))];
            var d := Replay(NewDeposit("id", SAMPLE, NO_EXTRAS, 0), rs);
            && d.state == Closed && d.settlement.Some?
            && d.settlement.value.agreedRefund + d.settlement.value.agreedRetention != d.info.amount
  {
    var claim := ClaimInput("", "paint", 1.0, [], "");
    OpenedIsPledged(NO_EXTRAS);
    ProposeThenAccept(Opened(NO_EXTRAS), claim, 2.0, 3.0);
    ReplayOpened(NO_EXTRAS, Settle(LANDLORD, [claim], NO_TENANCY, 2.0, 3.0), SettleAccept(TENANT));
  }

  lemma PartialThenStatement(d: Deposit, released: real, reserved: real)
    requires d.state == Pledged && released >= 0.0 && reserved > 0.0
    ensures var d1 := Step(d, PartialRelease(released, reserved, 0.0, "2025-12-31", true), 0);
            var d2 := Step(d1, UtilitySettle("", 10.0, 10.0), 0);
            && d1.state == PartiallyReleased && d2.state == Closed && d2.info == d.info && d2.settlement == d.settlement
            && d2.reservation.Some?
            && d2.reservation.value.released == released && d2.reservation.value.reserved == reserved
            && d2.history == d.history + [HistoryEntry(PartiallyReleased, 0, LANDLORD, ""),
                                          HistoryEntry(Closed, 0, LANDLORD, NO_SHORTFALL)]
  {
  }

  /** A partial release need not add up to the deposit either. */
  lemma PartialReleaseNeedNotAddUp()
    ensures var rs := [IDENTIFY, PLEDGE, At0(PartialRelease(1.0, 2.0, 0.0, "2025-12-31", true)),
                       At0(UtilitySettle("", 10.0, 10.0))];
            var d := Replay(NewDeposit("id", SAMPLE, NO_EXTRAS, 0), rs);
            && d.state == Closed && d.reservation.Some?
            && d.reservation.value.released + d.reservation.value.reserved != d.info.amount
  {
    OpenedIsPledged(NO_EXTRAS);
    PartialThenStatement(Opened(NO_EXTRAS), 1.0, 2.0);
    ReplayOpened(NO_EXTRAS, PartialRelease(1.0, 2.0, 0.0, "2025-12-31", true), UtilitySettle("", 10.0, 10.0));
  }

  /** A retention that came with the creation request survives a close without any shortfall. */
  lemma OldRetentionSurvives()
    ensures var x := NO_EXTRAS.(settlement := Some(EMPTY_SETTLEMENT.(agreedRetention := 500.0)));
            var rs := [IDENTIFY, PLEDGE, At0(PartialRelease(700.0, 300.0, 0.0, "2025-12-31", true)),
                       At0(UtilitySettle("", 10.0, 10.0))];
            var d := Replay(NewDeposit("id", SAMPLE, x, 0), rs);
            d.state == Closed && StoredRetention(d.settlement) == 500.0
  {
    var x := NO_EXTRAS.(settlement := Some(EMPTY_SETTLEMENT.(agreedRetention := 500.0)));
    OpenedIsPledged(x);
    PartialThenStatement(Opened(x), 700.0, 300.0);
    ReplayOpened(x, PartialRelease(700.0, 300.0, 0.0, "2025-12-31", true), UtilitySettle("", 10.0, 10.0));
  }

  // ---------------------------------------------------------------- resolutions

  /** A resolution is accepted exactly with amounts that are not negative and from a state that the
      table takes to CLOSED, be it disputed or not. */
  lemma ResolutionAcceptedExactly(d: Deposit, refund: real, retention: real, reference: string, now: int)
    ensures Decide(Some(d), DisputeResolve(refund, retention, reference), now).Update?
            <==> refund >= 0.0 && retention >= 0.0
                 && d.state in {Released, PartiallyReleased, SettleProposed, Disputed}
  {
  }

  lemma ReleaseThenResolve(d: Deposit, refund: real, retention: real, reference: string)
    requires d.state == Pledged && refund >= 0.0 && retention >= 0.0
    ensures var d1 := Step(d, Release, 0);
            var d2 := Step(d1, DisputeResolve(refund, retention, reference), 0);
            && d1.state == Released && d2.state == Closed && d2.settlement.Some?
            && d2.settlement.value.agreedRefund == refund && d2.settlement.value.agreedRetention == retention
            && d2.history == d.history + [HistoryEntry(Released, 0, LANDLORD, ""), HistoryEntry(Closed, 0, "EXTERNAL", reference)]
  {
    var d1 := Step(d, Release, 0);
    assert d1.state == Released && d1.history == d.history + [HistoryEntry(Released, 0, LANDLORD, "")];
  }

  /** A released deposit that nobody disputed is closed by a resolution, with its amounts recorded. */
  lemma ResolvedWithoutDispute()
    ensures var rs := [IDENTIFY, PLEDGE, At0(Release), At0(DisputeResolve(5.0, 6.0, "ref"))];
            var d := Replay(NewDeposit("id", SAMPLE, NO_EXTRAS, 0), rs);
            && d.state == Closed && Disputed !in States(d.history)
            && d.settlement.Some? && d.settlement.value.agreedRefund == 5.0 && d.settlement.value.agreedRetention == 6.0
  {
    var d := Opened(NO_EXTRAS);
    OpenedIsPledged(NO_EXTRAS);
    ReleaseThenResolve(d, 5.0, 6.0, "ref");
    ReplayOpened(NO_EXTRAS, Release, DisputeResolve(5.0, 6.0, "ref"));
    assert forall i :: 0 <= i < |d.history| ==> d.history[i].state in States(d.history);
  }
}

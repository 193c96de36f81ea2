/** What each request does, read off the request's fields and the stored record: when it takes effect,
    what it then records, and with which code it is refused otherwise. */
module DepositRequests {
  import opened Basics
  import opened Lifecycle
  import opened Deposits

  /** The deposit after a recorded move. */
  function Moved(d: Deposit, to: State, now: int, actor: string, comment: string): Deposit
  {
    d.(state := to, history := d.history + [HistoryEntry(to, now, actor, comment)])
  }

  /** The code of an error response, if the request gets one. */
  function Refusal(found: Option<Deposit>, r: Request, now: int): Option<Code>
  {
    var plan := Decide(found, r, now);
    if plan.Reject? then Some(plan.code) else None
  }

  // ---------------------------------------------------------------- creation

  /** What is stored for a creation request. */
  lemma CreationRecords(id: string, info: Info, x: Extras, now: int)
    ensures ValidCreate(info) <==>
            info.tenantFirst != "" && info.tenantLast != "" && info.tenantEmail != "" && info.landlordName != ""
            && info.amount > 0.0 && info.depositType != ""
    ensures var d := NewDeposit(id, info, x, now);
            && d.id == id && d.state == Requested && d.history == [HistoryEntry(Requested, now, "TENANT", "")]
            && d.info.tenantFirst == info.tenantFirst && d.info.tenantLast == info.tenantLast
            && d.info.tenantEmail == info.tenantEmail && d.info.landlordName == info.landlordName
            && d.info.amount == info.amount && d.info.depositType == info.depositType
            && d.info.currency == (if info.currency == "" then "EUR" else info.currency)
            && d.info.version == (if info.version == "" then "2.0.0" else info.version)
            && d.eid == x.eid && d.wallet == x.wallet && d.pledge == x.pledge
            && d.settlement == x.settlement && d.reservation == x.reservation
  {
  }

  // ---------------------------------------------------------------- up to the pledge

  lemma IdentityExactly(d: Deposit, eid: string, wallet: Option<Wallet>, now: int)
    ensures Step(d, UpdateIdentity(eid, wallet), now) ==
            if eid == "VERIFIED" && d.state == Requested
            then Moved(d, Identified, now, "IDENTITY_PROVIDER", "").(
                   eid := "VERIFIED", wallet := if wallet.Some? then wallet else d.wallet)
            else d
    ensures Refusal(Some(d), UpdateIdentity(eid, wallet), now) ==
            if eid == "" then Some(ValidationError)
            else if eid == "VERIFIED" && d.state != Requested then Some(InvalidTransition)
            else None
  {
  }

  lemma PledgeExactly(d: Deposit, date: string, confirmed: bool, now: int)
    ensures Step(d, PledgeDeposit(date, confirmed), now) ==
            if date != "" && confirmed && (d.state == Identified || d.state == Funded)
            then Moved(d, Pledged, now, "BANK", "").(pledge := Some(Pledge(date, "BGB \U{00A7} 551", true)))
            else d
    ensures Refusal(Some(d), PledgeDeposit(date, confirmed), now) ==
            if date == "" || !confirmed then Some(ValidationError)
            else if d.state != Identified && d.state != Funded then Some(InvalidTransition)
            else None
  {
  }

  /** A presentation is recorded exactly when a live session brings a token that verifies for this
      deposit while it is PLEDGED; one for another deposit is refused. */
  lemma PresentationExactly(d: Deposit, hasToken: bool, hasState: bool, session: VpLookup, verified: Option<VpClaims>, now: int)
    ensures Step(d, VpResponse(hasToken, hasState, session, verified), now) ==
            if hasToken && hasState && session == Live && d.state == Pledged && verified.Some? && verified.value.depositId == d.id
            then Moved(d, Pledged, now, "WALLET", "").(
                   wallet := Some(Wallet(verified.value.credentialId, "high", "vc+sd-jwt", now)))
            else d
    ensures Refusal(Some(d), VpResponse(hasToken, hasState, session, verified), now) ==
            if !hasToken || !hasState then Some(ValidationError)
            else if session == Missing then Some(NotFound)
            else if session == Expired then Some(SessionExpired)
            else if d.state != Pledged then Some(InvalidState)
            else if verified.None? then Some(VpVerificationFailed)
            else if verified.value.depositId != d.id then Some(DepositMismatch)
            else None
  {
  }

  // ---------------------------------------------------------------- release and claim

  lemma ReleaseExactly(d: Deposit, now: int)
    ensures Step(d, Release, now) ==
            if d.state == Pledged || d.state == Claimed then Moved(d, Released, now, "LANDLORD", "") else d
    ensures Refusal(Some(d), Release, now) ==
            if d.state != Pledged && d.state != Claimed then Some(InvalidTransition) else None
  {
  }

  lemma ClaimExactly(d: Deposit, amount: real, reason: string, now: int)
    ensures Step(d, Claim(amount, reason), now) ==
            if amount > 0.0 && reason != "" && d.state == Pledged then Moved(d, Claimed, now, "LANDLORD", reason) else d
    ensures Refusal(Some(d), Claim(amount, reason), now) ==
            if amount <= 0.0 || reason == "" then Some(ValidationError)
            else if d.state != Pledged then Some(InvalidTransition)
            else None
  {
  }

  lemma PartialReleaseExactly(d: Deposit, released: real, reserved: real, advance: real, end: string, isDate: bool, now: int)
    ensures Step(d, PartialRelease(released, reserved, advance, end, isDate), now) ==
            if released >= 0.0 && reserved > 0.0 && end != "" && isDate && d.state == Pledged
            then Moved(d, PartiallyReleased, now, "LANDLORD", "").(
                   reservation := Some(Reservation(released, reserved, advance, end, "", 0.0, 0.0, None)))
            else d
    ensures Refusal(Some(d), PartialRelease(released, reserved, advance, end, isDate), now) ==
            if released < 0.0 || reserved <= 0.0 || end == "" || !isDate then Some(ValidationError)
            else if d.state != Pledged then Some(InvalidTransition)
            else None
  {
  }

  // ---------------------------------------------------------------- settlement

  predicate Party(who: string)
  {
    who == "LANDLORD" || who == "TENANT"
  }

  /** Claims that can be proposed: there are some, and each has a positive amount and a description. */
  predicate Proposable(claims: seq<ClaimInput>)
  {
    |claims| > 0 && forall c :: c in claims ==> c.amount > 0.0 && c.description != ""
  }

  /** The stored items are the claims, numbered from one. */
  predicate Lists(items: seq<ClaimItem>, claims: seq<ClaimInput>)
  {
    && |items| == |claims|
    && forall i :: 0 <= i < |items| ==>
         && items[i].id == "item-" + Decimal(i + 1)
         && items[i].category == claims[i].category && items[i].description == claims[i].description
         && items[i].amount == claims[i].amount && items[i].evidence == claims[i].evidence
         && items[i].room == claims[i].room
  }

  lemma ProposableAccepted(claims: seq<ClaimInput>)
    ensures Proposable(claims) <==> ClaimsAcceptable(claims)
  {
    if ClaimsAcceptable(claims) {
      forall c | c in claims ensures c.amount > 0.0 && c.description != "" {
        var i :| 0 <= i < |claims| && claims[i] == c;
      }
    }
  }

  /** Whether a proposal opens the negotiation, or answers the other party's last one. */
  predicate MayPropose(d: Deposit, party: string)
  {
    || d.state == Pledged || d.state == Funded
    || (d.state == SettleProposed && d.settlement.Some? && d.settlement.value.lastProposedBy != party)
  }

  /** A proposal, first or counter, takes effect exactly for one of the two parties, with claims that
      can be proposed, when it is that party's turn. */
  lemma ProposalExactly(d: Deposit, party: string, claims: seq<ClaimInput>, tenancy: Tenancy, refund: real, retention: real, now: int)
    ensures Step(d, Settle(party, claims, tenancy, refund, retention), now) != d
            <==> Party(party) && Proposable(claims) && MayPropose(d, party)
    ensures Refusal(Some(d), Settle(party, claims, tenancy, refund, retention), now) ==
            if !Party(party) || !Proposable(claims) then Some(ValidationError)
            else if d.state != Pledged && d.state != Funded && d.state != SettleProposed then Some(InvalidTransition)
            else if d.state == SettleProposed && d.settlement.Some? && d.settlement.value.lastProposedBy == party then Some(Conflict)
            else None
  {
    ProposableAccepted(claims);
    var d' := Step(d, Settle(party, claims, tenancy, refund, retention), now);
    if Party(party) && Proposable(claims) && MayPropose(d, party) {
      assert |d'.history| == |d.history| + 1;
    }
  }

  /** The stored proposal is the request's: its claims, its tenancy and its two amounts, by its party. */
  lemma ProposalRecords(d: Deposit, party: string, claims: seq<ClaimInput>, tenancy: Tenancy, refund: real, retention: real, now: int)
    requires Party(party) && Proposable(claims) && MayPropose(d, party)
    ensures var d' := Step(d, Settle(party, claims, tenancy, refund, retention), now);
            var counter := d.state == SettleProposed;
            && d'.settlement.Some?
            && Lists(d'.settlement.value.items, claims)
            && d' == Moved(d, SettleProposed, now, party, if counter then "counter-proposal" else "").(settlement := d'.settlement)
            && d'.settlement.value == Settlement(
                 if counter then d.settlement.value.initiatedBy else party,
                 if counter then d.settlement.value.initiatedAt else now,
                 party, now, tenancy, d'.settlement.value.items, ItemSum(d'.settlement.value.items),
                 refund, retention, "", "", "", 0.0, 0.0)
  {
    ProposableAccepted(claims);
  }

  /** Either party may accept, exactly when the other one proposed last. */
  lemma AcceptanceExactly(d: Deposit, party: string, now: int)
    ensures Step(d, SettleAccept(party), now) ==
            if Party(party) && d.state == SettleProposed && d.settlement.Some? && d.settlement.value.lastProposedBy != party
            then Moved(d, Closed, now, party, "settlement accepted").(settlement := Some(d.settlement.value.(
                   agreedRefund := d.settlement.value.refund, agreedRetention := d.settlement.value.retention)))
            else d
    ensures Refusal(Some(d), SettleAccept(party), now) ==
            if !Party(party) then Some(ValidationError)
            else if d.state != SettleProposed then Some(InvalidTransition)
            else if d.settlement.None? || d.settlement.value.lastProposedBy == party then Some(Conflict)
            else None
  {
  }

  predicate Escalation(kind: string)
  {
    kind == "PLATFORM_MEDIATION" || kind == "SCHLICHTUNGSBEHOERDE" || kind == "AMTSGERICHT"
  }

  /** The settlement on record, or a blank one. */
  function OnRecord(d: Deposit): Settlement
  {
    if d.settlement.Some? then d.settlement.value
    else Settlement("", 0, "", 0, Tenancy("", "", ""), [], 0.0, 0.0, 0.0, "", "", "", 0.0, 0.0)
  }

  lemma DisputeExactly(d: Deposit, party: string, kind: string, reference: string, now: int)
    ensures Step(d, Dispute(party, kind, reference), now) ==
            if Party(party) && Escalation(kind) && d.state == SettleProposed
            then Moved(d, Disputed, now, party, kind).(settlement := Some(OnRecord(d).(
                   escalationType := kind, externalAuthority := kind, externalReference := reference)))
            else d
    ensures Refusal(Some(d), Dispute(party, kind, reference), now) ==
            if !Party(party) || !Escalation(kind) then Some(ValidationError)
            else if d.state != SettleProposed then Some(InvalidTransition)
            else None
  {
    EscalationsListed(kind);
  }

  lemma EscalationsListed(kind: string)
    ensures kind in ESCALATIONS <==> Escalation(kind)
  {
    assert ESCALATIONS[0] == "PLATFORM_MEDIATION" && ESCALATIONS[1] == "SCHLICHTUNGSBEHOERDE" && ESCALATIONS[2] == "AMTSGERICHT";
  }

  lemma ResolutionExactly(d: Deposit, refund: real, retention: real, reference: string, now: int)
    ensures Step(d, DisputeResolve(refund, retention, reference), now) ==
            if refund >= 0.0 && retention >= 0.0
               && (d.state == Released || d.state == PartiallyReleased || d.state == SettleProposed || d.state == Disputed)
            then Moved(d, Closed, now, "EXTERNAL", reference).(settlement := Some(OnRecord(d).(
                   agreedRefund := refund, agreedRetention := retention, externalReference := reference)))
            else d
    ensures Refusal(Some(d), DisputeResolve(refund, retention, reference), now) ==
            if refund < 0.0 || retention < 0.0 then Some(ValidationError)
            else if d.state != Released && d.state != PartiallyReleased && d.state != SettleProposed && d.state != Disputed
            then Some(InvalidTransition)
            else None
  {
  }

  // ---------------------------------------------------------------- the utility statement

  /** A statement with non-negative figures always takes effect on a partially released deposit. */
  lemma StatementExactly(d: Deposit, reference: string, actual: real, advance: real, now: int)
    ensures Step(d, UtilitySettle(reference, actual, advance), now) != d
            <==> actual >= 0.0 && advance >= 0.0 && d.state == PartiallyReleased && d.reservation.Some?
    ensures Refusal(Some(d), UtilitySettle(reference, actual, advance), now) ==
            if actual < 0.0 || advance < 0.0 then Some(ValidationError)
            else if d.state != PartiallyReleased then Some(InvalidTransition)
            else if d.reservation.None? then Some(Conflict)
            else None
  {
    var d' := Step(d, UtilitySettle(reference, actual, advance), now);
    if actual >= 0.0 && advance >= 0.0 && d.state == PartiallyReleased && d.reservation.Some? {
      assert |d'.history| == |d.history| + 1;
    }
  }

  /** The reservation with the statement on record. */
  function WithStatement(v: Reservation, reference: string, actual: real, advance: real, now: int): Reservation
  {
    Reservation(v.released, v.reserved, v.monthlyAdvance, v.billingPeriodEnd, reference, actual, advance, Some(now))
  }

  /** Without a shortfall a statement closes the deposit. */
  lemma BreakEvenRecords(d: Deposit, reference: string, actual: real, advance: real, now: int)
    requires 0.0 <= actual <= advance && d.state == PartiallyReleased && d.reservation.Some?
    ensures Step(d, UtilitySettle(reference, actual, advance), now) ==
            Moved(d, Closed, now, "LANDLORD", "utility reconciliation — no shortfall").(
              reservation := Some(WithStatement(d.reservation.value, reference, actual, advance, now)))
  {
  }

  /** With a shortfall it claims the whole of it, proposes to retain as much as was reserved, and to
      refund the rest. */
  lemma ShortfallRecords(d: Deposit, reference: string, actual: real, advance: real, now: int)
    requires 0.0 <= advance < actual && d.state == PartiallyReleased && d.reservation.Some?
    ensures var v := d.reservation.value;
            var kept := if actual - advance <= v.reserved then actual - advance else v.reserved;
            var item := ClaimItem("item-1", "UTILITY_ARREARS",
                                  "Utility shortfall: actual cost " + TwoPlaces(actual) + ", advances paid " + TwoPlaces(advance),
                                  actual - advance, if reference == "" then [] else [reference], "");
            Step(d, UtilitySettle(reference, actual, advance), now) ==
            Moved(d, SettleProposed, now, "LANDLORD", "utility reconciliation shortfall").(
              reservation := Some(WithStatement(v, reference, actual, advance, now)),
              settlement := Some(Settlement("LANDLORD", now, "LANDLORD", now, Tenancy("", "", ""), [item], actual - advance,
                                            v.reserved - kept, kept, "", "", "", 0.0, 0.0)))
  {
  }

  // ---------------------------------------------------------------- no deposit

  /** A request for a deposit that is not there is refused, with the code of its own fault if it has one. */
  lemma MissingDepositRefused(r: Request, now: int)
    ensures Decide(None, r, now).Reject?
    ensures !r.VpResponse? ==> Decide(None, r, now).code in {ValidationError, NotFound}
  {
  }
}

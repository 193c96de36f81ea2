/** Deposits and the handlers that change them.

    Every handler works in two phases. It reads the deposit and decides (`Decide`); later, under the
    row lock, it applies a patch, sets the state and appends a history entry (`Commit`). Between the
    two phases nothing is rechecked, so both are functions of the deposit they happen to see. */
module Deposits {
  import opened Basics
  import opened Lifecycle

  // ---------------------------------------------------------------- entities

  datatype HistoryEntry = HistoryEntry(state: State, timestamp: int, actor: string, comment: string)

  /** The parts of a deposit that no handler ever patches. */
  datatype Info = Info(
    tenantFirst: string, tenantLast: string, tenantEmail: string, landlordName: string,
    amount: real, currency: string, depositType: string, version: string)

  datatype Wallet = Wallet(presentationId: string, assuranceLevel: string, format: string, verifiedAt: int)

  datatype Pledge = Pledge(date: string, statutoryBasis: string, confirmedByBank: bool)

  datatype ClaimInput = ClaimInput(
    category: string, description: string, amount: real, evidence: seq<string>, room: string)

  datatype ClaimItem = ClaimItem(
    id: string, category: string, description: string, amount: real, evidence: seq<string>, room: string)

  datatype Tenancy = Tenancy(endDate: string, handoverDate: string, handoverRef: string)

  datatype Settlement = Settlement(
    initiatedBy: string, initiatedAt: int, lastProposedBy: string, lastProposedAt: int,
    tenancy: Tenancy, items: seq<ClaimItem>, totalClaimed: real,
    refund: real, retention: real,
    escalationType: string, externalAuthority: string, externalReference: string,
    agreedRefund: real, agreedRetention: real)

  datatype Reservation = Reservation(
    released: real, reserved: real, monthlyAdvance: real, billingPeriodEnd: string,
    settlementRef: string, actualCost: real, totalAdvancePaid: real, resolvedAt: Option<int>)

  datatype Deposit = Deposit(
    id: string, info: Info, state: State, history: seq<HistoryEntry>,
    eid: string, wallet: Option<Wallet>, pledge: Option<Pledge>,
    settlement: Option<Settlement>, reservation: Option<Reservation>)

  const NO_TENANCY := Tenancy("", "", "")

  /** The zero value of a settlement. */
  const EMPTY_SETTLEMENT :=
    Settlement("", 0, "", 0, NO_TENANCY, [], 0.0, 0.0, 0.0, "", "", "", 0.0, 0.0)

  const LANDLORD := "LANDLORD"
  const TENANT := "TENANT"
  const IDENTITY_PROVIDER := "IDENTITY_PROVIDER"
  const ESCALATIONS := ["PLATFORM_MEDIATION", "SCHLICHTUNGSBEHOERDE", "AMTSGERICHT"]
  const ACCEPTED := "settlement accepted"
  const COUNTERED := "counter-proposal"
  const SHORTFALL := "utility reconciliation shortfall"
  const NO_SHORTFALL := "utility reconciliation — no shortfall"

  // ---------------------------------------------------------------- creation

  /** Everything else that the creation request may bring along. */
  datatype Extras = Extras(
    eid: string, wallet: Option<Wallet>, pledge: Option<Pledge>,
    settlement: Option<Settlement>, reservation: Option<Reservation>)

  predicate ValidCreate(info: Info)
  {
    && info.tenantFirst != "" && info.tenantLast != "" && info.tenantEmail != ""
    && info.landlordName != ""
    && info.amount > 0.0 && info.depositType != ""
  }

  function WithDefaults(info: Info): Info
  {
    info.(version := if info.version == "" then "2.0.0" else info.version,
          currency := if info.currency == "" then "EUR" else info.currency)
  }

  function NewDeposit(id: string, info: Info, x: Extras, now: int): Deposit
  {
    Deposit(id, WithDefaults(info), Requested, [HistoryEntry(Requested, now, TENANT, "")],
            x.eid, x.wallet, x.pledge, x.settlement, x.reservation)
  }

  // ---------------------------------------------------------------- requests and plans

  datatype VpLookup = Missing | Expired | Live
  datatype VpClaims = VpClaims(depositId: string, credentialId: string)

  datatype Request =
    | UpdateIdentity(eidStatus: string, walletMetadata: Option<Wallet>)
    | PledgeDeposit(pledgeDate: string, confirmed: bool)
    | Release
    | Claim(claimAmount: real, reason: string)
    | Settle(party: string, claims: seq<ClaimInput>, tenancy: Tenancy, refund: real, retention: real)
    | SettleAccept(party: string)
    | Dispute(party: string, escalation: string, reference: string)
    | DisputeResolve(refund: real, retention: real, reference: string)
    | PartialRelease(released: real, reserved: real, monthlyAdvance: real, billingEnd: string, billingEndIsDate: bool)
    | UtilitySettle(reference: string, actualCost: real, totalAdvancePaid: real)
    | VpResponse(hasToken: bool, hasState: bool, session: VpLookup, verified: Option<VpClaims>)

  /** What a handler's closure does to the row that it finds under the lock. */
  datatype Patch =
    | NoPatch
    | SetIdentity(eid: string, wallet: Option<Wallet>)
    | SetWallet(newWallet: Wallet)
    | SetPledge(date: string)
    | SetSettlement(settlement: Settlement)
    | AgreeToProposal
    | Escalate(escalation: string, reference: string)
    | Resolve(refund: real, retention: real, reference: string)
    | SetReservation(reservation: Reservation)
    | ResolveReservation(ref: string, actualCost: real, totalAdvancePaid: real, at: int, claim: Option<Settlement>)

  /** The codes that error responses carry. */
  datatype Code =
    | ValidationError | NotFound | SessionExpired | InvalidTransition | Conflict
    | InvalidState | VpVerificationFailed | DepositMismatch | InternalError

  /** `Panic` stands for a nil dereference in the deciding phase. */
  datatype Plan =
    | Reject(code: Code)
    | Unchanged
    | Panic
    | Update(to: State, actor: string, comment: string, patch: Patch, revokes: bool)

  predicate IsParty(who: string)
  {
    who == LANDLORD || who == TENANT
  }

  // ---------------------------------------------------------------- settlement arithmetic

  function Items(inputs: seq<ClaimInput>): seq<ClaimItem>
  {
    seq(|inputs|, i requires 0 <= i < |inputs| =>
      ClaimItem("item-" + Decimal(i + 1), inputs[i].category, inputs[i].description,
                inputs[i].amount, inputs[i].evidence, inputs[i].room))
  }

  function ItemSum(items: seq<ClaimItem>): real
  {
    if items == [] then 0.0 else ItemSum(items[..|items| - 1]) + items[|items| - 1].amount
  }

  predicate ClaimsAcceptable(claims: seq<ClaimInput>)
  {
    && claims != []
    && forall i :: 0 <= i < |claims| ==> claims[i].amount > 0.0 && claims[i].description != ""
  }

  function Proposal(party: string, claims: seq<ClaimInput>, tenancy: Tenancy, refund: real, retention: real,
                    initiatedBy: string, initiatedAt: int, now: int): Settlement
  {
    EMPTY_SETTLEMENT.(initiatedBy := initiatedBy, initiatedAt := initiatedAt,
                      lastProposedBy := party, lastProposedAt := now, tenancy := tenancy,
                      items := Items(claims), totalClaimed := ItemSum(Items(claims)),
                      refund := refund, retention := retention)
  }

  function Shortfall(actualCost: real, totalAdvancePaid: real): real
  {
    actualCost - totalAdvancePaid
  }

  /** The landlord keeps the shortfall, but never more than was held back. */
  function Retention(shortfall: real, reserved: real): real
  {
    if shortfall > reserved then reserved else shortfall
  }

  function Describe(actualCost: real, totalAdvancePaid: real): string
  {
    "Utility shortfall: actual cost " + TwoPlaces(actualCost) + ", advances paid " + TwoPlaces(totalAdvancePaid)
  }

  function UtilityClaim(reference: string, actualCost: real, totalAdvancePaid: real, reserved: real, now: int): Settlement
  {
    var shortfall := Shortfall(actualCost, totalAdvancePaid);
    var item := ClaimItem("item-1", "UTILITY_ARREARS",
                          Describe(actualCost, totalAdvancePaid), shortfall,
                          if reference == "" then [] else [reference], "");
    EMPTY_SETTLEMENT.(initiatedBy := LANDLORD, initiatedAt := now,
                      lastProposedBy := LANDLORD, lastProposedAt := now,
                      items := [item], totalClaimed := shortfall,
                      refund := reserved - Retention(shortfall, reserved),
                      retention := Retention(shortfall, reserved))
  }

  // ---------------------------------------------------------------- deciding

  /** The checks that precede reading the deposit. */
  function Validate(r: Request): Option<Code>
  {
    match r
    case UpdateIdentity(eid, _) => if eid == "" then Some(ValidationError) else None
    case PledgeDeposit(date, confirmed) => if date == "" || !confirmed then Some(ValidationError) else None
    case Release => None
    case Claim(amount, reason) => if amount <= 0.0 || reason == "" then Some(ValidationError) else None
    case Settle(party, claims, _, _, _) =>
      if !IsParty(party) || !ClaimsAcceptable(claims) then Some(ValidationError) else None
    case SettleAccept(party) => if !IsParty(party) then Some(ValidationError) else None
    case Dispute(party, kind, _) =>
      if !IsParty(party) || kind !in ESCALATIONS
      then Some(ValidationError) else None
    case DisputeResolve(refund, retention, _) =>
      if refund < 0.0 || retention < 0.0 then Some(ValidationError) else None
    case PartialRelease(released, reserved, _, end, isDate) =>
      if released < 0.0 || reserved <= 0.0 || end == "" || !isDate then Some(ValidationError) else None
    case UtilitySettle(_, actual, advance) =>
      if actual < 0.0 || advance < 0.0 then Some(ValidationError) else None
    case VpResponse(hasToken, hasState, session, _) =>
      if !hasToken || !hasState then Some(ValidationError)
      else if session == Missing then Some(NotFound)
      else if session == Expired then Some(SessionExpired)
      else None
  }

  function Guarded(d: Deposit, to: State, actor: string, comment: string, patch: Patch, revokes: bool): Plan
  {
    if CanTransition(d.state, to) then Update(to, actor, comment, patch, revokes) else Reject(InvalidTransition)
  }

  function DecideSettle(d: Deposit, r: Request, now: int): Plan
    requires r.Settle?
  {
    var first := d.state == Pledged || d.state == Funded;
    var counter := d.state == SettleProposed;
    if !first && !counter then Reject(InvalidTransition)
    else if counter && d.settlement.Some? && d.settlement.value.lastProposedBy == r.party then Reject(Conflict)
    else if first then
      Guarded(d, SettleProposed, r.party, "",
              SetSettlement(Proposal(r.party, r.claims, r.tenancy, r.refund, r.retention, r.party, now, now)), false)
    else if d.settlement.None? then Panic
    else
      Update(SettleProposed, r.party, COUNTERED,
             SetSettlement(Proposal(r.party, r.claims, r.tenancy, r.refund, r.retention,
                                    d.settlement.value.initiatedBy, d.settlement.value.initiatedAt, now)), false)
  }

  function DecideAccept(d: Deposit, party: string): Plan
  {
    if d.state != SettleProposed then Reject(InvalidTransition)
    else if d.settlement.None? || d.settlement.value.lastProposedBy == party then Reject(Conflict)
    else Guarded(d, Closed, party, ACCEPTED, AgreeToProposal, true)
  }

  function DecideUtility(d: Deposit, r: Request, now: int): Plan
    requires r.UtilitySettle?
  {
    if d.state != PartiallyReleased then Reject(InvalidTransition)
    else if d.reservation.None? then Reject(Conflict)
    else
      var shortfall := Shortfall(r.actualCost, r.totalAdvancePaid);
      if shortfall <= 0.0 then
        Guarded(d, Closed, LANDLORD, NO_SHORTFALL,
                ResolveReservation(r.reference, r.actualCost, r.totalAdvancePaid, now, None), false)
      else
        Guarded(d, SettleProposed, LANDLORD, SHORTFALL,
                ResolveReservation(r.reference, r.actualCost, r.totalAdvancePaid, now,
                                   Some(UtilityClaim(r.reference, r.actualCost, r.totalAdvancePaid,
                                                     d.reservation.value.reserved, now))), false)
  }

  function DecideVp(d: Deposit, verified: Option<VpClaims>, now: int): Plan
  {
    if d.state != Pledged then Reject(InvalidState)
    else if verified.None? then Reject(VpVerificationFailed)
    else if verified.value.depositId != d.id then Reject(DepositMismatch)
    else Update(d.state, "WALLET", "", SetWallet(Wallet(verified.value.credentialId, "high", "vc+sd-jwt", now)), false)
  }

  /** The reading phase of every mutating handler. */
  function Decide(found: Option<Deposit>, r: Request, now: int): Plan
  {
    if Validate(r).Some? then Reject(Validate(r).value)
    else if found.None? then Reject(NotFound)
    else
      var d := found.value;
      match r
      case UpdateIdentity(eid, wallet) =>
        if eid != "VERIFIED" then Unchanged
        else Guarded(d, Identified, IDENTITY_PROVIDER, "", SetIdentity(eid, wallet), false)
      case PledgeDeposit(date, _) => Guarded(d, Pledged, "BANK", "", SetPledge(date), false)
      case Release => Guarded(d, Released, LANDLORD, "", NoPatch, true)
      case Claim(_, reason) => Guarded(d, Claimed, LANDLORD, reason, NoPatch, false)
      case Settle(_, _, _, _, _) => DecideSettle(d, r, now)
      case SettleAccept(party) => DecideAccept(d, party)
      case Dispute(party, kind, reference) => Guarded(d, Disputed, party, kind, Escalate(kind, reference), false)
      case DisputeResolve(refund, retention, reference) =>
        Guarded(d, Closed, "EXTERNAL", reference, Resolve(refund, retention, reference), true)
      case PartialRelease(released, reserved, advance, end, _) =>
        Guarded(d, PartiallyReleased, LANDLORD, "",
                SetReservation(Reservation(released, reserved, advance, end, "", 0.0, 0.0, None)), false)
      case UtilitySettle(_, _, _) => DecideUtility(d, r, now)
      case VpResponse(_, _, _, verified) => DecideVp(d, verified, now)
  }

  // ---------------------------------------------------------------- committing

  /** `None` stands for a nil dereference inside the closure. */
  function ApplyPatch(d: Deposit, p: Patch): Option<Deposit>
  {
    match p
    case NoPatch => Some(d)
    case SetIdentity(eid, wallet) => Some(d.(eid := eid, wallet := if wallet.Some? then wallet else d.wallet))
    case SetWallet(wallet) => Some(d.(wallet := Some(wallet)))
    case SetPledge(date) => Some(d.(pledge := Some(Pledge(date, "BGB \U{00A7} 551", true))))
    case SetSettlement(s) => Some(d.(settlement := Some(s)))
    case AgreeToProposal =>
      if d.settlement.None? then None
      else
        var s := d.settlement.value;
        Some(d.(settlement := Some(s.(agreedRefund := s.refund, agreedRetention := s.retention))))
    case Escalate(kind, reference) =>
      var s := if d.settlement.None? then EMPTY_SETTLEMENT else d.settlement.value;
      Some(d.(settlement := Some(s.(escalationType := kind, externalAuthority := kind, externalReference := reference))))
    case Resolve(refund, retention, reference) =>
      var s := if d.settlement.None? then EMPTY_SETTLEMENT else d.settlement.value;
      Some(d.(settlement := Some(s.(agreedRefund := refund, agreedRetention := retention, externalReference := reference))))
    case SetReservation(reservation) => Some(d.(reservation := Some(reservation)))
    case ResolveReservation(reference, actual, advance, at, claim) =>
      if d.reservation.None? then None
      else
        var v := d.reservation.value;
        var d' := d.(reservation := Some(v.(settlementRef := reference, actualCost := actual,
                                            totalAdvancePaid := advance, resolvedAt := Some(at))));
        Some(if claim.Some? then d'.(settlement := claim) else d')
  }

  function EntryOf(u: Plan, now: int): HistoryEntry
    requires u.Update?
  {
    HistoryEntry(u.to, now, u.actor, u.comment)
  }

  /** The writing phase: patch, set the state, append to the history. */
  function Commit(d: Deposit, u: Plan, now: int): Option<Deposit>
    requires u.Update?
  {
    match ApplyPatch(d, u.patch)
    case None => None
    case Some(p) => Some(p.(state := u.to, history := p.history + [EntryOf(u, now)]))
  }

  /** A handler that no other request interrupts. */
  function Step(d: Deposit, r: Request, now: int): Deposit
  {
    var plan := Decide(Some(d), r, now);
    if plan.Update? && Commit(d, plan, now).Some? then Commit(d, plan, now).value else d
  }
}

/** Whole runs of one deposit when no handler is interrupted: the walk through the lifecycle, the
    alternating negotiation, the claim totals and the conservation of the reserved money. */
module DepositRuns {
  import opened Basics
  import opened Lifecycle
  import opened Deposits
  import opened DepositSafety

  // ---------------------------------------------------------------- runs

  datatype Received = Received(at: int, req: Request)

  function Replay(d: Deposit, rs: seq<Received>): Deposit
  {
    if rs == [] then d
    else
      var r := rs[|rs| - 1];
      Step(Replay(d, rs[..|rs| - 1]), r.req, r.at)
  }

  lemma ReplayAppend(d: Deposit, rs: seq<Received>, r: Received)
    ensures Replay(d, rs + [r]) == Step(Replay(d, rs), r.req, r.at)
  {
    assert (rs + [r])[..|rs|] == rs;
  }

  ghost predicate Ascending(start: int, rs: seq<Received>)
  {
    && (forall i :: 0 <= i < |rs| ==> start <= rs[i].at)
    && (forall i, j :: 0 <= i < j < |rs| ==> rs[i].at <= rs[j].at)
  }

  // ---------------------------------------------------------------- the walk

  function States(h: seq<HistoryEntry>): set<State>
  {
    set i | 0 <= i < |h| :: h[i].state
  }

  ghost predicate LegalHistory(h: seq<HistoryEntry>)
  {
    forall i :: 0 < i < |h| ==> LegalStep(h[i - 1].state, h[i].state)
  }

  ghost predicate Walk(d: Deposit)
  {
    && WellFormed(d)
    && LegalHistory(d.history)
    && Funded !in States(d.history)
    && |States(d.history)| + Rank(d.state) <= 7
  }

  lemma DecideLegal(d: Deposit, r: Request, now: int)
    ensures var u := Decide(Some(d), r, now);
            u.Update? ==> LegalStep(d.state, u.to) && u.to != Funded && u.to != Requested
  {
  }

  lemma StatesAppend(h: seq<HistoryEntry>, e: HistoryEntry)
    ensures States(h + [e]) == States(h) + {e.state}
  {
    var h' := h + [e];
    assert forall i :: 0 <= i < |h| ==> h'[i] == h[i];
    assert h'[|h|] == e;
    forall s | s in States(h) + {e.state} ensures s in States(h') {
      if s == e.state {
        assert h'[|h|].state == s;
      } else {
        var i :| 0 <= i < |h| && h[i].state == s;
        assert h'[i].state == s;
      }
    }
  }

  lemma StatesCount(a: set<State>, from: State, to: State)
    requires from in a && LegalStep(from, to) && from != Funded && to != Funded
    requires |a| + Rank(from) <= 7
    ensures |a + {to}| + Rank(to) <= 7
  {
    if to == from {
      assert a + {to} == a;
    } else {
      assert Rank(to) < Rank(from);
      assert |a + {to}| <= |a| + 1;
    }
  }

  lemma LegalAppend(h: seq<HistoryEntry>, e: HistoryEntry)
    requires LegalHistory(h)
    requires h != [] ==> LegalStep(h[|h| - 1].state, e.state)
    ensures LegalHistory(h + [e])
  {
    var h' := h + [e];
    forall i | 0 < i < |h'| ensures LegalStep(h'[i - 1].state, h'[i].state) {
      assert h'[i - 1] == h[i - 1];
      if i < |h| {
        assert h'[i] == h[i];
      }
    }
  }

  lemma WalkAppend(d: Deposit, d': Deposit, e: HistoryEntry)
    requires Walk(d) && WellFormed(d') && d'.history == d.history + [e]
    requires LegalStep(d.state, e.state) && e.state != Funded
    ensures Walk(d')
  {
    LegalAppend(d.history, e);
    StatesAppend(d.history, e);
    assert d.history[|d.history| - 1].state in States(d.history);
    StatesCount(States(d.history), d.state, e.state);
  }

  lemma WalkStep(d: Deposit, r: Request, now: int)
    requires Walk(d) && d.history[|d.history| - 1].timestamp <= now
    ensures Walk(Step(d, r, now))
    ensures Extends(d, Step(d, r, now))
  {
    var u := Decide(Some(d), r, now);
    if u.Update? {
      DecideFits(d, r, now);
      DecideLegal(d, r, now);
      CommitSafe(d, u, now);
      WalkAppend(d, Commit(d, u, now).value, EntryOf(u, now));
    }
  }

  /** Every uninterrupted run walks the table, lowers the rank on every move and so meets at most
      seven states; FUNDED is never one of them. */
  lemma {:induction false} EveryRunWalks(id: string, info: Info, x: Extras, start: int, rs: seq<Received>)
    requires Ascending(start, rs)
    ensures var d := Replay(NewDeposit(id, info, x, start), rs);
            && Walk(d)
            && d.history[0] == HistoryEntry(Requested, start, TENANT, "")
            && d.history[|d.history| - 1].timestamp <= (if rs == [] then start else rs[|rs| - 1].at)
            && |States(d.history)| <= 7
            && d.info == WithDefaults(info)
  {
    if rs == [] {
      NewWalks(id, info, x, start);
    } else {
      var prefix, r := rs[..|rs| - 1], rs[|rs| - 1];
      EveryRunWalks(id, info, x, start, prefix);
      var d := Replay(NewDeposit(id, info, x, start), prefix);
      WalkStep(d, r.req, r.at);
      StepTimestamps(d, r.req, r.at);
    }
  }

  lemma NewWalks(id: string, info: Info, x: Extras, start: int)
    ensures Walk(NewDeposit(id, info, x, start))
  {
    var d0 := NewDeposit(id, info, x, start);
    StatesAppend([], d0.history[0]);
    assert [] + [d0.history[0]] == d0.history;
    assert States([]) == {};
  }

  lemma StepTimestamps(d: Deposit, r: Request, now: int)
    ensures Step(d, r, now) == d
         || (Decide(Some(d), r, now).Update?
             && Step(d, r, now).history == d.history + [EntryOf(Decide(Some(d), r, now), now)]
             && Step(d, r, now).state == Decide(Some(d), r, now).to)
  {
    var u := Decide(Some(d), r, now);
    if u.Update? {
      PatchKeeps(d, u.patch);
    }
  }

  /** Consecutive distinct states of a run strictly lower the rank. */
  lemma RankFalls(d: Deposit, i: int)
    requires Walk(d) && 0 < i < |d.history|
    ensures d.history[i].state != d.history[i - 1].state ==> Rank(d.history[i].state) < Rank(d.history[i - 1].state)
  {
    assert LegalStep(d.history[i - 1].state, d.history[i].state);
    assert d.history[i - 1].state in States(d.history) && d.history[i].state in States(d.history);
  }

  /** Nothing moves a closed deposit. */
  lemma {:induction false} ClosedIsFinal(d: Deposit, rs: seq<Received>)
    requires d.state == Closed
    ensures Replay(d, rs) == d
  {
    if rs != [] {
      ClosedIsFinal(d, rs[..|rs| - 1]);
      DecideLegal(d, rs[|rs| - 1].req, rs[|rs| - 1].at);
    }
  }

  // ---------------------------------------------------------------- the negotiation

  function FirstProposal(h: seq<HistoryEntry>): Option<HistoryEntry>
  {
    if h == [] then None
    else
      var earlier := FirstProposal(h[..|h| - 1]);
      if earlier.Some? then earlier
      else if h[|h| - 1].state == SettleProposed then Some(h[|h| - 1]) else None
  }

  function LastProposal(h: seq<HistoryEntry>): Option<HistoryEntry>
  {
    if h == [] then None
    else if h[|h| - 1].state == SettleProposed then Some(h[|h| - 1])
    else LastProposal(h[..|h| - 1])
  }

  ghost predicate Alternates(h: seq<HistoryEntry>)
  {
    forall i :: 0 < i < |h| && h[i - 1].state == SettleProposed && h[i].state == SettleProposed
      ==> h[i - 1].actor != h[i].actor
  }

  /** Items are there, positive, numbered in order, and add up to the total. */
  ghost predicate ClaimsInOrder(s: Settlement)
  {
    && s.items != []
    && (forall i :: 0 <= i < |s.items| ==> s.items[i].amount > 0.0 && s.items[i].id == "item-" + Decimal(i + 1))
    && s.totalClaimed == ItemSum(s.items)
  }

  /** While a proposal stands, the stored settlement tells what the history tells. */
  ghost predicate Recorded(s: Settlement, h: seq<HistoryEntry>)
  {
    && ClaimsInOrder(s)
    && FirstProposal(h).Some? && LastProposal(h).Some?
    && s.initiatedBy == FirstProposal(h).value.actor && s.initiatedAt == FirstProposal(h).value.timestamp
    && s.lastProposedBy == LastProposal(h).value.actor && s.lastProposedAt == LastProposal(h).value.timestamp
  }

  /** The stored settlement and the recorded history tell the same story. */
  ghost predicate Negotiation(d: Deposit)
  {
    && Alternates(d.history)
    && (d.state == SettleProposed || d.state == Disputed ==> d.settlement.Some? && Recorded(d.settlement.value, d.history))
    && (d.state !in {SettleProposed, Disputed, Closed} ==> FirstProposal(d.history).None?)
  }

  lemma ProposalsAppend(h: seq<HistoryEntry>, e: HistoryEntry)
    ensures FirstProposal(h + [e]) ==
            if FirstProposal(h).Some? then FirstProposal(h) else if e.state == SettleProposed then Some(e) else None
    ensures LastProposal(h + [e]) == if e.state == SettleProposed then Some(e) else LastProposal(h)
  {
    assert (h + [e])[..|h|] == h;
  }

  lemma ItemsInOrder(claims: seq<ClaimInput>)
    requires ClaimsAcceptable(claims)
    ensures Items(claims) != []
    ensures forall i :: 0 <= i < |Items(claims)| ==>
              Items(claims)[i].amount > 0.0 && Items(claims)[i].id == "item-" + Decimal(i + 1)
  {
  }

  lemma ItemIdsDistinct(s: Settlement, i: nat, j: nat)
    requires ClaimsInOrder(s) && i < j < |s.items|
    ensures s.items[i].id != s.items[j].id
  {
    if s.items[i].id == s.items[j].id {
      assert ("item-" + Decimal(i + 1))[5..] == Decimal(i + 1);
      assert ("item-" + Decimal(j + 1))[5..] == Decimal(j + 1);
      DecimalInjective(i + 1, j + 1);
    }
  }

  /** What a plan must bring to leave the negotiation in order. */
  ghost predicate Proposes(d: Deposit, u: Plan, s: Option<Settlement>, now: int)
    requires u.Update?
  {
    && s.Some?
    && ClaimsInOrder(s.value)
    && s.value.lastProposedBy == u.actor
    && s.value.lastProposedAt == now
    && (if d.state == SettleProposed
        then d.settlement.Some? && d.settlement.value.lastProposedBy != s.value.lastProposedBy
             && s.value.initiatedBy == d.settlement.value.initiatedBy
             && s.value.initiatedAt == d.settlement.value.initiatedAt
        else s.value.initiatedBy == s.value.lastProposedBy && s.value.initiatedAt == now)
  }

  lemma AlternatesAppend(h: seq<HistoryEntry>, e: HistoryEntry)
    requires Alternates(h)
    requires h != [] && h[|h| - 1].state == SettleProposed && e.state == SettleProposed ==> h[|h| - 1].actor != e.actor
    ensures Alternates(h + [e])
  {
    var h' := h + [e];
    forall i | 0 < i < |h'| && h'[i - 1].state == SettleProposed && h'[i].state == SettleProposed
      ensures h'[i - 1].actor != h'[i].actor
    {
      assert h'[i - 1] == h[i - 1];
      if i < |h| {
        assert h'[i] == h[i];
      }
    }
  }

  lemma NegotiationAppend(d: Deposit, d': Deposit, u: Plan, now: int)
    requires WellFormed(d) && Negotiation(d) && u.Update?
    requires LegalStep(d.state, u.to) && d.state != Funded
    requires d'.history == d.history + [EntryOf(u, now)] && d'.state == u.to
    requires u.to == SettleProposed ==> Proposes(d, u, d'.settlement, now)
    requires u.to == Disputed && d.settlement.Some? ==>
               d'.settlement.Some? && SameProposal(d.settlement.value, d'.settlement.value)
    ensures Negotiation(d')
  {
    ProposalsAppend(d.history, EntryOf(u, now));
    AlternatesAppend(d.history, EntryOf(u, now));
  }

  ghost predicate SameProposal(s: Settlement, t: Settlement)
  {
    && t.items == s.items && t.totalClaimed == s.totalClaimed
    && t.initiatedBy == s.initiatedBy && t.initiatedAt == s.initiatedAt
    && t.lastProposedBy == s.lastProposedBy && t.lastProposedAt == s.lastProposedAt
    && t.refund == s.refund && t.retention == s.retention
  }

  lemma DisputingStep(d: Deposit, r: Request, now: int)
    requires d.settlement.Some?
    ensures var u := Decide(Some(d), r, now);
            u.Update? && u.to == Disputed ==>
              Step(d, r, now).settlement.Some? && SameProposal(d.settlement.value, Step(d, r, now).settlement.value)
  {
  }

  lemma NegotiationStep(d: Deposit, r: Request, now: int)
    requires WellFormed(d) && Negotiation(d) && d.state != Funded
    ensures Negotiation(Step(d, r, now))
  {
    StepTimestamps(d, r, now);
    if Step(d, r, now) != d {
      var u := Decide(Some(d), r, now);
      DecideLegal(d, r, now);
      if u.to == SettleProposed {
        ProposingStep(d, r, now);
      }
      if u.to == Disputed && d.settlement.Some? {
        DisputingStep(d, r, now);
      }
      NegotiationAppend(d, Step(d, r, now), u, now);
    }
  }

  lemma SettleProposes(d: Deposit, r: Request, now: int)
    requires WellFormed(d) && d.state != Funded && r.Settle? && Decide(Some(d), r, now).Update?
    ensures Proposes(d, Decide(Some(d), r, now), Step(d, r, now).settlement, now)
  {
    ItemsInOrder(r.claims);
  }

  /** The plan of the utility statement handler, when it has one. */
  ghost predicate StatementPlan(d: Deposit, r: Request, now: int, u: Plan)
    requires r.UtilitySettle?
  {
    var short := Shortfall(r.actualCost, r.totalAdvancePaid) > 0.0;
    && d.state == PartiallyReleased && d.reservation.Some?
    && u.Update?
    && u.to == (if short then SettleProposed else Closed)
    && u.actor == LANDLORD
    && u.patch == ResolveReservation(r.reference, r.actualCost, r.totalAdvancePaid, now,
                                     if short then Some(UtilityClaim(r.reference, r.actualCost, r.totalAdvancePaid,
                                                                     d.reservation.value.reserved, now)) else None)
  }

  lemma StatementPlanned(d: Deposit, r: Request, now: int)
    requires r.UtilitySettle? && Decide(Some(d), r, now).Update?
    ensures StatementPlan(d, r, now, Decide(Some(d), r, now))
  {
  }

  lemma UtilityClaimInOrder(reference: string, actualCost: real, totalAdvancePaid: real, reserved: real, now: int)
    requires Shortfall(actualCost, totalAdvancePaid) > 0.0
    ensures ClaimsInOrder(UtilityClaim(reference, actualCost, totalAdvancePaid, reserved, now))
  {
    var s := UtilityClaim(reference, actualCost, totalAdvancePaid, reserved, now);
    assert s.items[..0] == [];
    assert ItemSum(s.items) == s.items[0].amount;
    assert Decimal(1) == "1";
  }

  lemma StatementProposes(d: Deposit, d': Deposit, r: Request, u: Plan, now: int)
    requires r.UtilitySettle? && StatementPlan(d, r, now, u) && u.to == SettleProposed && Commit(d, u, now) == Some(d')
    ensures Proposes(d, u, d'.settlement, now)
  {
    UtilityClaimInOrder(r.reference, r.actualCost, r.totalAdvancePaid, d.reservation.value.reserved, now);
  }

  lemma UtilityProposes(d: Deposit, r: Request, now: int)
    requires WellFormed(d) && r.UtilitySettle?
    requires Decide(Some(d), r, now).Update? && Decide(Some(d), r, now).to == SettleProposed
    ensures Proposes(d, Decide(Some(d), r, now), Step(d, r, now).settlement, now)
  {
    StatementPlanned(d, r, now);
    StatementProposes(d, Step(d, r, now), r, Decide(Some(d), r, now), now);
  }

  lemma ProposingStep(d: Deposit, r: Request, now: int)
    requires WellFormed(d) && d.state != Funded
    requires Decide(Some(d), r, now).Update? && Decide(Some(d), r, now).to == SettleProposed
    ensures Proposes(d, Decide(Some(d), r, now), Step(d, r, now).settlement, now)
  {
    if r.Settle? {
      SettleProposes(d, r, now);
    } else {
      UtilityProposes(d, r, now);
    }
  }

  /** Over any number of counter-proposals: proposers alternate, the initiator and the initiation
      time stay those of the first proposal, and the claim items stay ordered, positive and summed. */
  lemma {:induction false} EveryRunNegotiates(id: string, info: Info, x: Extras, start: int, rs: seq<Received>)
    requires Ascending(start, rs)
    ensures Negotiation(Replay(NewDeposit(id, info, x, start), rs))
  {
    var d0 := NewDeposit(id, info, x, start);
    if rs == [] {
      assert d0.history[..0] == [];
    } else {
      var prefix, r := rs[..|rs| - 1], rs[|rs| - 1];
      EveryRunNegotiates(id, info, x, start, prefix);
      EveryRunWalks(id, info, x, start, prefix);
      var d := Replay(d0, prefix);
      assert d.history[|d.history| - 1].state in States(d.history);
      NegotiationStep(d, r.req, r.at);
    }
  }

  /** Who last put which amounts on the table, read off the requests that took effect. */
  datatype Offer = Offer(party: string, refund: real, retention: real)

  /** The offer after a request that took effect, given the one before. */
  function OfferAfter(before: Deposit, r: Request, earlier: Option<Offer>): Option<Offer>
  {
    match r
    case Settle(party, _, _, refund, retention) => Some(Offer(party, refund, retention))
    case UtilitySettle(_, actual, advance) =>
      if before.reservation.Some? && actual - advance > 0.0 then
        var held := before.reservation.value.reserved;
        var kept := if actual - advance <= held then actual - advance else held;
        Some(Offer(LANDLORD, held - kept, kept))
      else earlier
    case _ => earlier
  }

  function LastOffer(d: Deposit, rs: seq<Received>): Option<Offer>
  {
    if rs == [] then None
    else
      var prefix := rs[..|rs| - 1];
      var before, earlier := Replay(d, prefix), LastOffer(d, prefix);
      if Replay(d, rs) == before then earlier else OfferAfter(before, rs[|rs| - 1].req, earlier)
  }

  ghost predicate OnTheTable(d: Deposit, o: Option<Offer>)
  {
    d.state == SettleProposed || d.state == Disputed ==>
      && d.settlement.Some? && o.Some?
      && o.value == Offer(d.settlement.value.lastProposedBy, d.settlement.value.refund, d.settlement.value.retention)
  }

  lemma SettleOffers(d: Deposit, r: Request, now: int)
    requires r.Settle?
    ensures var d' := Step(d, r, now);
            d' != d ==>
              && d'.settlement.Some?
              && d'.settlement.value.lastProposedBy == r.party
              && d'.settlement.value.refund == r.refund && d'.settlement.value.retention == r.retention
  {
  }

  lemma StatementCommitted(d: Deposit, d': Deposit, r: Request, u: Plan, now: int)
    requires r.UtilitySettle? && StatementPlan(d, r, now, u) && Commit(d, u, now) == Some(d')
    ensures var shortfall := Shortfall(r.actualCost, r.totalAdvancePaid);
              && d.state == PartiallyReleased
              && d.reservation.Some?
              && d'.state == (if shortfall > 0.0 then SettleProposed else Closed)
              && (shortfall > 0.0 ==>
                    && d'.settlement.Some?
                    && d'.settlement.value.lastProposedBy == LANDLORD
                    && d'.settlement.value.retention == Retention(shortfall, d.reservation.value.reserved)
                    && d'.settlement.value.refund == d.reservation.value.reserved - d'.settlement.value.retention)
              && (shortfall <= 0.0 ==> d'.settlement == d.settlement)
              && d'.info == d.info
              && d'.reservation.Some?
              && d'.reservation.value == d.reservation.value.(
                   settlementRef := r.reference, actualCost := r.actualCost,
                   totalAdvancePaid := r.totalAdvancePaid, resolvedAt := Some(now))
  {
  }

  lemma UtilityOffers(d: Deposit, r: Request, now: int)
    requires r.UtilitySettle?
    ensures var d' := Step(d, r, now);
            var shortfall := Shortfall(r.actualCost, r.totalAdvancePaid);
            d' != d ==>
              && d.state == PartiallyReleased
              && d.reservation.Some?
              && d'.state == (if shortfall > 0.0 then SettleProposed else Closed)
              && (shortfall > 0.0 ==>
                    && d'.settlement.Some?
                    && d'.settlement.value.lastProposedBy == LANDLORD
                    && d'.settlement.value.retention == Retention(shortfall, d.reservation.value.reserved)
                    && d'.settlement.value.refund == d.reservation.value.reserved - d'.settlement.value.retention)
              && (shortfall <= 0.0 ==> d'.settlement == d.settlement)
              && d'.info == d.info
              && d'.reservation.Some?
              && d'.reservation.value == d.reservation.value.(
                   settlementRef := r.reference, actualCost := r.actualCost,
                   totalAdvancePaid := r.totalAdvancePaid, resolvedAt := Some(now))
  {
    if Step(d, r, now) != d {
      StatementPlanned(d, r, now);
      StatementCommitted(d, Step(d, r, now), r, Decide(Some(d), r, now), now);
    }
  }

  lemma OthersOfferNothing(d: Deposit, r: Request, now: int)
    requires !r.Settle? && !r.UtilitySettle?
    ensures var u := Decide(Some(d), r, now);
            u.Update? ==> u.to != SettleProposed && (u.to == Disputed ==> r.Dispute? && d.state == SettleProposed)
  {
  }

  lemma OfferStep(d: Deposit, r: Request, now: int)
    requires WellFormed(d) && !r.Settle? && !r.UtilitySettle?
    ensures var d' := Step(d, r, now);
            (d'.state == SettleProposed || d'.state == Disputed) && d' != d ==>
              && d.state == SettleProposed && d'.settlement.Some?
              && SameProposal(d.settlement.value, d'.settlement.value)
  {
    StepTimestamps(d, r, now);
    OthersOfferNothing(d, r, now);
    if d.settlement.Some? {
      DisputingStep(d, r, now);
    }
  }

  lemma OfferAdvances(d: Deposit, r: Request, now: int, o: Option<Offer>)
    requires WellFormed(d) && OnTheTable(d, o) && Step(d, r, now) != d
    ensures OnTheTable(Step(d, r, now), OfferAfter(d, r, o))
  {
    if r.Settle? {
      SettleOffers(d, r, now);
    } else if r.UtilitySettle? {
      UtilityOffers(d, r, now);
    } else {
      OfferStep(d, r, now);
    }
  }

  lemma {:induction false} LastOfferOnTheTable(id: string, info: Info, x: Extras, start: int, rs: seq<Received>)
    requires Ascending(start, rs)
    ensures var d0 := NewDeposit(id, info, x, start);
            OnTheTable(Replay(d0, rs), LastOffer(d0, rs))
  {
    if rs != [] {
      var prefix, r := rs[..|rs| - 1], rs[|rs| - 1];
      LastOfferOnTheTable(id, info, x, start, prefix);
      EveryRunWalks(id, info, x, start, prefix);
      var d0 := NewDeposit(id, info, x, start);
      var d := Replay(d0, prefix);
      if Step(d, r.req, r.at) != d {
        OfferAdvances(d, r.req, r.at, LastOffer(d0, prefix));
      }
    }
  }

  lemma AcceptSeals(d: Deposit, r: Request, now: int)
    requires r.SettleAccept?
    ensures var d' := Step(d, r, now);
            d' != d ==>
              && d.state == SettleProposed && d'.state == Closed && d.settlement.Some?
              && d.settlement.value.lastProposedBy != r.party
              && d'.info == d.info && d'.reservation == d.reservation
              && d'.settlement == Some(d.settlement.value.(
                   agreedRefund := d.settlement.value.refund, agreedRetention := d.settlement.value.retention))
  {
  }

  /** Acceptance closes the deposit on the last offer, and never by the party that made it. */
  lemma AcceptanceSealsTheLastOffer(id: string, info: Info, x: Extras, start: int, rs: seq<Received>, party: string, now: int)
    requires Ascending(start, rs)
    ensures var d0 := NewDeposit(id, info, x, start);
            var d := Replay(d0, rs);
            var d' := Step(d, SettleAccept(party), now);
            d' != d ==>
              && d.state == SettleProposed && d'.state == Closed
              && LastProposal(d.history).Some? && LastProposal(d.history).value.actor != party
              && LastOffer(d0, rs).Some? && LastOffer(d0, rs).value.party != party
              && d'.settlement.Some?
              && d'.settlement.value.agreedRefund == LastOffer(d0, rs).value.refund
              && d'.settlement.value.agreedRetention == LastOffer(d0, rs).value.retention
  {
    LastOfferOnTheTable(id, info, x, start, rs);
    EveryRunNegotiates(id, info, x, start, rs);
    AcceptSeals(Replay(NewDeposit(id, info, x, start), rs), SettleAccept(party), now);
  }

  /** Nothing checks that a proposal adds up to the deposit: the agreed amounts do if and only if
      those of the last offer did. */
  lemma AgreementAddsUpExactly(id: string, info: Info, x: Extras, start: int, rs: seq<Received>, party: string, now: int)
    requires Ascending(start, rs)
    ensures var d0 := NewDeposit(id, info, x, start);
            var d := Replay(d0, rs);
            var d' := Step(d, SettleAccept(party), now);
            d' != d ==>
              && d'.settlement.Some? && LastOffer(d0, rs).Some?
              && (d'.settlement.value.agreedRefund + d'.settlement.value.agreedRetention == d'.info.amount
                  <==> LastOffer(d0, rs).value.refund + LastOffer(d0, rs).value.retention == info.amount)
  {
    AcceptanceSealsTheLastOffer(id, info, x, start, rs, party, now);
    EveryRunWalks(id, info, x, start, rs);
    AcceptSeals(Replay(NewDeposit(id, info, x, start), rs), SettleAccept(party), now);
  }
}

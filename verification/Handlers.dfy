/** The repository and the server as objects. The handlers are proved against the events of the
    running server, so what holds of every run holds of what these methods do. */
module Handlers {
  import opened Basics
  import opened Lifecycle
  import opened Deposits
  import opened World
  import opened DepositRequests
  import S = Sessions
  import Stores = SessionStores

  datatype UpdateResult = Absent | Failed | Panicked | Updated(deposit: Deposit)

  class Repo {
    var deposits: map<string, Deposit>
    /** The `lifecycle_state` column, kept beside the JSON document. */
    var column: map<string, State>
    var audit: seq<AuditRow>

    ghost predicate Valid()
      reads this
    {
      column.Keys == deposits.Keys && forall id :: id in deposits ==> column[id] == deposits[id].state
    }

    constructor ()
      ensures Valid() && deposits == map[] && audit == []
    {
      deposits, column, audit := map[], map[], [];
    }

    /** Two statements without a transaction around them; either may fail. */
    method Create(id: string, info: Info, x: Extras, now: int, insertOk: bool, auditOk: bool) returns (ok: bool)
      requires Valid() && id !in deposits
      modifies this
      ensures Valid() && (ok <==> insertOk && auditOk)
      ensures deposits == if insertOk then old(deposits)[id := NewDeposit(id, info, x, now)] else old(deposits)
      ensures audit == old(audit) + if ok then [AuditRow(id, HistoryEntry(Requested, now, TENANT, ""))] else []
    {
      var d := NewDeposit(id, info, x, now);
      if !insertOk {
        return false;
      }
      deposits, column := deposits[id := d], column[id := Requested];
      if !auditOk {
        return false;
      }
      audit := audit + [AuditRow(id, d.history[0])];
      return true;
    }

    /** One transaction: a failure or a panic before the commit leaves nothing behind. */
    method UpdateState(id: string, u: Plan, now: int, committed: bool) returns (r: UpdateResult)
      requires Valid() && u.Update?
      modifies this
      ensures Valid()
      ensures r.Absent? <==> id !in old(deposits)
      ensures r.Panicked? <==> id in old(deposits) && Commit(old(deposits)[id], u, now).None?
      ensures r.Updated? <==> id in old(deposits) && committed && Commit(old(deposits)[id], u, now).Some?
      ensures if r.Updated?
              then && Commit(old(deposits)[id], u, now) == Some(r.deposit)
                   && deposits == old(deposits)[id := r.deposit]
                   && audit == old(audit) + [AuditRow(id, EntryOf(u, now))]
              else deposits == old(deposits) && audit == old(audit)
    {
      if id !in deposits {
        return Absent;
      }
      var patched := ApplyPatch(deposits[id], u.patch);
      if patched.None? {
        return Panicked;
      }
      var d := patched.value;
      d := d.(state := u.to);
      var entry := HistoryEntry(u.to, now, u.actor, u.comment);
      d := d.(history := d.history + [entry]);
      if !committed {
        return Failed;
      }
      deposits, column := deposits[id := d], column[id := u.to];
      audit := audit + [AuditRow(id, entry)];
      return Updated(d);
    }
  }

  /** Hands out status list indices, one after the other. */
  class IndexAllocator {
    var counter: nat

    constructor ()
      ensures counter == 0
    {
      counter := 0;
    }

    method AllocateIndex() returns (index: nat)
      modifies this
      ensures index == old(counter) && counter == old(counter) + 1
    {
      counter := counter + 1;
      return counter - 1;
    }
  }

  datatype Reply = Accepted | Rejected(code: Code) | Crashed

  function ReplyTo(plan: Plan, crashed: bool, committed: bool): Reply
  {
    if crashed then Crashed
    else if plan.Reject? then Rejected(plan.code)
    else if plan.Update? && !committed then Rejected(InternalError)
    else Accepted
  }

  /** The world after a handler: its event, unless the update did not commit. An update that fails
      at the end still panics where it panics, and leaves nothing else behind. */
  function Handled(w: World, id: string, req: Request, committed: bool): World
  {
    if Decide(Find(w, id), req, w.clock).Update? && !committed
    then w.(panicked := ApplyHandle(w, id, req).panicked)
    else ApplyHandle(w, id, req)
  }

  /** The two halves of a handler: the update, and the revocation that follows it. */
  lemma HandledParts(w: World, id: string, req: Request, committed: bool)
    requires !w.panicked
    ensures var plan := Decide(Find(w, id), req, w.clock);
            var updated := if plan.Update? then ApplyUpdate(w, id, plan) else w;
            var after := Handled(w, id, req, committed);
            && after.panicked == (plan.Panic? || updated.panicked)
            && after.deposits == (if committed then updated.deposits else w.deposits)
            && after.audit == (if committed then updated.audit else w.audit)
            && after.store == (if plan.Update? && plan.revokes && committed && !after.panicked
                               then S.MemRevoke(w.store, id) else w.store)
  {
  }

  /** A refused request is answered with its code; any other is accepted, unless the closure panics
      or the update does not commit, which is an internal error. */
  lemma RepliesExactly(w: World, id: string, req: Request, committed: bool)
    requires !w.panicked
    ensures var refusal, after := Refusal(Find(w, id), req, w.clock), Handled(w, id, req, committed);
            var reply := ReplyTo(Decide(Find(w, id), req, w.clock), after.panicked, committed);
            && (refusal.Some? ==> reply == Rejected(refusal.value))
            && (refusal.None? && !after.panicked && committed ==> reply == Accepted)
            && (after.panicked ==> reply == Crashed)
            && (reply.Rejected? && refusal.None? ==> reply == Rejected(InternalError) && !committed)
            && (!committed ==> after.deposits == w.deposits && after.store == w.store)
  {
    HandledParts(w, id, req, committed);
  }

  /** The session that issuing opens for a pledged deposit. */
  lemma IssueOpens(w: World, id: string, validUntil: string, sid: string, code: string, nonce: string)
    requires id in w.deposits && w.deposits[id].state == Pledged
    ensures var s := ApplyIssue(w, id, validUntil, sid, code, nonce).store;
            && sid in s.rows && code in s.codes && s.codes[code] == sid
            && s.rows[sid] == S.Row(sid, id, code, None, nonce, S.Pending, w.clock, w.clock + 900_000_000_000, None,
                                    validUntil, w.nextIndex)
  {
  }

  class Server {
    const repo: Repo
    const sessions: Stores.MemoryStore
    const allocator: IndexAllocator

    ghost predicate Valid()
      reads repo, sessions, sessions.sessions
    {
      repo.Valid() && sessions.Valid()
    }

    /** The part of the world that this object holds, at a given time. */
    ghost function View(now: int): World
      reads repo, sessions, allocator
    {
      World(now, repo.deposits, repo.audit, {}, sessions.model, allocator.counter, map[], [], false)
    }

    constructor (repo: Repo, sessions: Stores.MemoryStore, allocator: IndexAllocator)
      ensures this.repo == repo && this.sessions == sessions && this.allocator == allocator
    {
      this.repo, this.sessions, this.allocator := repo, sessions, allocator;
    }

    /** Creation: the checks, the two defaults, and then the two statements. */
    method CreateDeposit(id: string, info: Info, x: Extras, now: int, insertOk: bool, auditOk: bool) returns (reply: Reply)
      requires Valid() && id !in repo.deposits
      modifies repo
      ensures Valid()
      ensures var after := if insertOk then ApplyCreate(old(View(now)), id, info, x, auditOk) else old(View(now));
              repo.deposits == after.deposits && repo.audit == after.audit
      ensures reply == if info.tenantFirst == "" || info.tenantLast == "" || info.tenantEmail == "" || info.landlordName == ""
                          || info.amount <= 0.0 || info.depositType == "" then Rejected(ValidationError)
                       else if insertOk && auditOk then Accepted else Rejected(InternalError)
      ensures id in repo.deposits <==> reply.Accepted? || (reply == Rejected(InternalError) && insertOk)
    {
      if info.tenantFirst == "" || info.tenantLast == "" || info.tenantEmail == "" {
        return Rejected(ValidationError);
      }
      if info.landlordName == "" {
        return Rejected(ValidationError);
      }
      if info.amount <= 0.0 || info.depositType == "" {
        return Rejected(ValidationError);
      }
      var ok := repo.Create(id, info, x, now, insertOk, auditOk);
      return if ok then Accepted else Rejected(InternalError);
    }

    /** A mutating handler: read and decide, then update, and only then revoke. */
    method Handle(id: string, req: Request, now: int, committed: bool) returns (reply: Reply)
      requires Valid()
      modifies repo, sessions, sessions.sessions
      ensures Valid()
      ensures var after := Handled(old(View(now)), id, req, committed);
              && repo.deposits == after.deposits && repo.audit == after.audit && sessions.model == after.store
              && reply == ReplyTo(Decide(Find(old(View(now)), id), req, now), after.panicked, committed)
    {
      var plan := Decide(if id in repo.deposits then Some(repo.deposits[id]) else None, req, now);
      ghost var w := View(now);
      HandledParts(w, id, req, committed);
      reply := Carry(id, plan, now, committed);
      if reply.Accepted? && plan.Update? && plan.revokes {
        sessions.RevokeByDepositId(id);
      }
    }

    /** The proposal handler: its checks and its two kinds of proposal, then the update. */
    method Settle(id: string, party: string, claims: seq<ClaimInput>, tenancy: Tenancy,
                  refund: real, retention: real, now: int, committed: bool)
      returns (reply: Reply)
      requires Valid()
      modifies repo
      ensures Valid()
      ensures var req := Request.Settle(party, claims, tenancy, refund, retention);
              var after := Handled(old(View(now)), id, req, committed);
              && repo.deposits == after.deposits && repo.audit == after.audit && sessions.model == after.store
              && reply == ReplyTo(Decide(Find(old(View(now)), id), req, now), after.panicked, committed)
    {
      var found := if id in repo.deposits then Some(repo.deposits[id]) else None;
      var plan := PlanProposal(found, party, claims, tenancy, refund, retention, now);
      reply := Carry(id, plan, now, committed);
    }

    /** The utility statement handler: close, or claim what the reservation can bear. */
    method UtilitySettle(id: string, reference: string, actualCost: real, totalAdvancePaid: real, now: int, committed: bool)
      returns (reply: Reply)
      requires Valid()
      modifies repo
      ensures Valid()
      ensures var req := Request.UtilitySettle(reference, actualCost, totalAdvancePaid);
              var after := Handled(old(View(now)), id, req, committed);
              && repo.deposits == after.deposits && repo.audit == after.audit && sessions.model == after.store
              && reply == ReplyTo(Decide(Find(old(View(now)), id), req, now), after.panicked, committed)
    {
      var found := if id in repo.deposits then Some(repo.deposits[id]) else None;
      var plan := PlanStatement(found, reference, actualCost, totalAdvancePaid, now);
      reply := Carry(id, plan, now, committed);
    }

    /** Carries a plan out, all but its revocation. */
    method Carry(id: string, plan: Plan, now: int, committed: bool) returns (reply: Reply)
      requires Valid() && (plan.Update? ==> id in repo.deposits)
      modifies repo
      ensures Valid()
      ensures var w := old(View(now));
              var after := if plan.Update? then ApplyUpdate(w, id, plan) else w;
              && repo.deposits == (if committed then after.deposits else w.deposits)
              && repo.audit == (if committed then after.audit else w.audit)
              && reply == ReplyTo(plan, plan.Panic? || after.panicked, committed)
    {
      match plan {
        case Reject(code) => return Rejected(code);
        case Unchanged => return Accepted;
        case Panic => return Crashed;
        case Update(_, _, _, _, _) =>
          var r := repo.UpdateState(id, plan, now, committed);
          return match r
            case Panicked => Crashed
            case Updated(_) => Accepted
            case _ => Rejected(InternalError);
      }
    }

    // -------------------------------------------------------------- issuance

    /** The bank's trigger: check the state, take an index, open a session. */
    method IssueCredential(id: string, validUntil: string, now: int, sid: string, code: string, nonce: string)
      returns (done: bool)
      requires Valid() && sid !in sessions.model.rows && code !in sessions.model.codes
      modifies sessions, allocator
      ensures Valid()
      ensures sessions.model == ApplyIssue(old(View(now)), id, validUntil, sid, code, nonce).store
      ensures allocator.counter == ApplyIssue(old(View(now)), id, validUntil, sid, code, nonce).nextIndex
      ensures done <==> id in repo.deposits && repo.deposits[id].state == Pledged
      ensures done ==> sid in sessions.model.rows && code in sessions.model.codes && sessions.model.codes[code] == sid
      ensures done ==> sessions.model.rows[sid]
                       == S.Row(sid, id, code, None, nonce, S.Pending, now, now + 900_000_000_000, None, validUntil, old(allocator.counter))
    {
      if id !in repo.deposits || repo.deposits[id].state != Pledged {
        return false;
      }
      IssueOpens(View(now), id, validUntil, sid, code, nonce);
      var index := allocator.AllocateIndex();
      OpenSession(id, validUntil, index, now, sid, code, nonce);
      return true;
    }

    method OpenSession(id: string, validUntil: string, index: nat, now: int, sid: string, code: string, nonce: string)
      requires Valid() && sid !in sessions.model.rows && code !in sessions.model.codes
      modifies sessions
      ensures Valid()
      ensures sessions.model == S.MemCreate(old(sessions.model), S.NewRow(sid, code, nonce, id, validUntil, index, now))
    {
      var _ := sessions.Create(id, validUntil, index, now, sid, code, nonce);
    }

    /** The token endpoint. */
    method Token(grantType: string, code: string, now: int, token: string, nonce: string) returns (ok: bool)
      requires Valid()
      modifies sessions, sessions.sessions
      ensures Valid()
      ensures var exchanges := grantType == "urn:ietf:params:oauth:grant-type:pre-authorized_code" && code != "";
              && sessions.model == (if exchanges then ApplyToken(old(View(now)), code, token, nonce).store else old(sessions.model))
              && (ok <==> exchanges && S.MemExchange(old(sessions.model), code, token, nonce, now).1)
    {
      if grantType != "urn:ietf:params:oauth:grant-type:pre-authorized_code" || code == "" {
        return false;
      }
      ok := sessions.ExchangeCodeForToken(code, now, token, nonce);
    }

    /** The checks of the credential endpoint, and the index that goes into the credential. */
    method Claim(token: string, format: string, vct: string, now: int) returns (claim: Option<string>)
      requires Valid()
      ensures var hit := S.Deref(sessions.model, sessions.model.tokens, token);
              && (claim.Some? <==> && hit.Some? && now <= hit.value.expiresAt && hit.value.depositId in repo.deposits
                                   && format == "vc+sd-jwt" && vct == "DepositPledgeAttestation")
              && (claim.Some? ==> claim.value == PrintInt(hit.value.index))
    {
      var sess := sessions.GetByToken(token);
      if sess.None? || now > sess.value.expiresAt {
        return None;
      }
      if format != "vc+sd-jwt" || vct != "DepositPledgeAttestation" {
        return None;
      }
      if sess.value.depositId !in repo.deposits {
        return None;
      }
      return Some(PrintInt(sess.value.index));
    }

    /** The credential endpoint, when nothing comes between its lookup, its build and its consumption. */
    method Credential(token: string, format: string, vct: string, now: int, cred: string) returns (out: Option<Issued>)
      requires Valid()
      modifies sessions, sessions.sessions
      ensures Valid()
      ensures var (store, row) := S.MemConsume(old(sessions.model), token, cred, now);
              if out.Some?
              then && row.Some? && sessions.model == store
                   && out.value == Issued(cred, row.value.id, row.value.depositId, PrintInt(row.value.index), now)
              else sessions.model == old(sessions.model)
      ensures var row := S.MemConsume(old(sessions.model), token, cred, now).1;
              out.Some? <==> && row.Some? && row.value.depositId in repo.deposits
                             && format == "vc+sd-jwt" && vct == "DepositPledgeAttestation"
    {
      var claim := Claim(token, format, vct, now);
      if claim.None? {
        return None;
      }
      var consumed := sessions.ConsumeByToken(token, cred, now);
      if consumed.None? {
        return None;
      }
      return Some(Issued(cred, consumed.value.id, consumed.value.depositId, claim.value, now));
    }
  }

  /** The first loop of the proposal handler. */
  method ChecksClaims(party: string, claims: seq<ClaimInput>) returns (ok: bool)
    ensures ok <==> IsParty(party) && ClaimsAcceptable(claims)
  {
    if !IsParty(party) || |claims| == 0 {
      return false;
    }
    for i := 0 to |claims|
      invariant forall k :: 0 <= k < i ==> claims[k].amount > 0.0 && claims[k].description != ""
    {
      if claims[i].amount <= 0.0 || claims[i].description == "" {
        return false;
      }
    }
    return true;
  }

  /** The second loop: number the items and run the total. */
  method Itemize(claims: seq<ClaimInput>) returns (items: seq<ClaimItem>, total: real)
    ensures items == Items(claims)
    ensures total == ItemSum(items)
  {
    items, total := [], 0.0;
    for i := 0 to |claims|
      invariant items == Items(claims)[..i]
      invariant total == ItemSum(items)
    {
      var c := claims[i];
      var item := ClaimItem("item-" + Decimal(i + 1), c.category, c.description, c.amount, c.evidence, c.room);
      assert (items + [item])[..i] == items;
      items := items + [item];
      total := total + c.amount;
    }
  }

  /** The decision of the proposal handler: checks first, then the loops, then one of two proposals. */
  method PlanProposal(found: Option<Deposit>, party: string, claims: seq<ClaimInput>, tenancy: Tenancy,
                      refund: real, retention: real, now: int)
    returns (plan: Plan)
    ensures plan == Decide(found, Request.Settle(party, claims, tenancy, refund, retention), now)
    ensures plan.Update? ==> !plan.revokes && found.Some?
  {
    var valid := ChecksClaims(party, claims);
    if !valid {
      return Reject(ValidationError);
    }
    if found.None? {
      return Reject(NotFound);
    }
    var current := found.value;
    var isFirst := current.state == Pledged || current.state == Funded;
    var isCounter := current.state == SettleProposed;
    if !isFirst && !isCounter {
      return Reject(InvalidTransition);
    }
    if isCounter && current.settlement.Some? && current.settlement.value.lastProposedBy == party {
      return Reject(Conflict);
    }
    var items, total := Itemize(claims);
    var s := EMPTY_SETTLEMENT.(lastProposedBy := party, lastProposedAt := now, tenancy := tenancy,
                               items := items, totalClaimed := total, refund := refund, retention := retention);
    if isFirst {
      s := s.(initiatedBy := party, initiatedAt := now);
    } else if current.settlement.None? {
      return Panic;
    } else {
      s := s.(initiatedBy := current.settlement.value.initiatedBy, initiatedAt := current.settlement.value.initiatedAt);
    }
    return Update(SettleProposed, party, if isCounter then COUNTERED else "", SetSettlement(s), false);
  }

  /** The claim for a shortfall: the landlord keeps it, up to what was reserved. */
  method ClaimShortfall(reference: string, actualCost: real, totalAdvancePaid: real, reserved: real, now: int)
    returns (s: Settlement)
    ensures s == UtilityClaim(reference, actualCost, totalAdvancePaid, reserved, now)
  {
    var shortfall := actualCost - totalAdvancePaid;
    var retention := shortfall;
    if retention > reserved {
      retention := reserved;
    }
    var item := ClaimItem("item-1", "UTILITY_ARREARS", Describe(actualCost, totalAdvancePaid), shortfall, [reference], "");
    if reference == "" {
      item := item.(evidence := []);
    }
    s := EMPTY_SETTLEMENT.(initiatedBy := LANDLORD, initiatedAt := now,
                               lastProposedBy := LANDLORD, lastProposedAt := now,
                               items := [item], totalClaimed := shortfall,
                               refund := reserved - retention, retention := retention);
  }

  /** The decision of the utility statement handler. */
  method PlanStatement(found: Option<Deposit>, reference: string, actualCost: real, totalAdvancePaid: real, now: int)
    returns (plan: Plan)
    ensures plan == Decide(found, Request.UtilitySettle(reference, actualCost, totalAdvancePaid), now)
    ensures plan.Update? ==> !plan.revokes && found.Some?
  {
    if actualCost < 0.0 || totalAdvancePaid < 0.0 {
      return Reject(ValidationError);
    }
    if found.None? {
      return Reject(NotFound);
    }
    var current := found.value;
    if current.state != PartiallyReleased {
      return Reject(InvalidTransition);
    }
    if current.reservation.None? {
      return Reject(Conflict);
    }
    var reserved := current.reservation.value.reserved;
    var shortfall := actualCost - totalAdvancePaid;
    if shortfall <= 0.0 {
      return Update(Closed, LANDLORD, NO_SHORTFALL,
                    ResolveReservation(reference, actualCost, totalAdvancePaid, now, None), false);
    }
    var s := ClaimShortfall(reference, actualCost, totalAdvancePaid, reserved, now);
    return Update(SettleProposed, LANDLORD, SHORTFALL,
                  ResolveReservation(reference, actualCost, totalAdvancePaid, now, Some(s)), false);
  }
}

/** Which credentials survive the closing of their deposit. */
module WorldClosing {
  import opened Basics
  import opened Lifecycle
  import opened Deposits
  import opened DepositSafety
  import Runs = DepositRuns
  import opened World
  import opened WorldSessions
  import opened WorldDeposits
  import opened WorldTheorems
  import S = Sessions

  // ---------------------------------------------------------------- revoked means released or closed

  predicate Ended(s: State)
  {
    s == Released || s == Closed
  }

  /** A revoked session belongs to a deposit that was released or closed. */
  ghost predicate RevokedRight(rows: S.Table, deposits: map<string, Deposit>)
  {
    forall sid :: sid in rows && rows[sid].state == S.Revoked ==>
      rows[sid].depositId in deposits && Ended(deposits[rows[sid].depositId].state)
  }

  /** A request that takes effect on an ended deposit leaves it ended; one that revokes ends it. */
  lemma EndedStays(d: Deposit, r: Request, now: int)
    ensures Ended(d.state) ==> Ended(Step(d, r, now).state)
    ensures Step(d, r, now) != d && RevokingRequest(r) ==> Ended(Step(d, r, now).state)
  {
    Runs.StepTimestamps(d, r, now);
    Runs.DecideLegal(d, r, now);
  }

  lemma RightReplaced(rows: S.Table, m: map<string, Deposit>, id: string, d: Deposit)
    requires RevokedRight(rows, m) && id in m && (Ended(m[id].state) ==> Ended(d.state))
    ensures RevokedRight(rows, m[id := d])
  {
  }

  lemma RightRevoked(s: S.Store, m: map<string, Deposit>, dep: string)
    requires RevokedRight(s.rows, m) && dep in m && Ended(m[dep].state)
    ensures RevokedRight(S.MemRevoke(s, dep).rows, m)
  {
  }

  /** What an uninterrupted handler does to deposits and sessions. */
  lemma HandleParts(w: World, dep: string, req: Request)
    requires DepositsOk(w)
    ensures var w', d := ApplyHandle(w, dep, req), Find(w, dep);
            && w'.deposits == (if d.Some? then w.deposits[dep := Step(d.value, req, w.clock)] else w.deposits)
            && w'.store == (if d.Some? && Step(d.value, req, w.clock) != d.value && RevokingRequest(req)
                            then S.MemRevoke(w.store, dep) else w.store)
  {
    HandleEffect(w, dep, req);
    DecideFindsFit(w, dep, req);
    RevokersRevoke(Find(w, dep), req, w.clock);
    var plan := Decide(Find(w, dep), req, w.clock);
    if plan.Update? {
      UpdateOk(w, dep, plan);
      LongerHistory(w.deposits[dep], req, w.clock, plan);
    }
  }

  lemma LongerHistory(d: Deposit, req: Request, now: int, plan: Plan)
    requires plan == Decide(Some(d), req, now) && plan.Update? && Fits(d, plan)
    ensures Step(d, req, now) != d
  {
    PatchKeeps(d, plan.patch);
    assert Commit(d, plan, now).value.history == d.history + [EntryOf(plan, now)];
  }

  lemma RightHandled(w: World, dep: string, req: Request)
    requires DepositsOk(w) && RevokedRight(w.store.rows, w.deposits)
    ensures RevokedRight(ApplyHandle(w, dep, req).store.rows, ApplyHandle(w, dep, req).deposits)
  {
    HandleParts(w, dep, req);
    if dep in w.deposits {
      var d := Step(w.deposits[dep], req, w.clock);
      EndedStays(w.deposits[dep], req, w.clock);
      RightReplaced(w.store.rows, w.deposits, dep, d);
      if d != w.deposits[dep] && RevokingRequest(req) {
        RightRevoked(w.store, w.deposits[dep := d], dep);
      }
    }
  }

  /** Revoked rows were revoked before, and existing deposits stay as they are. */
  ghost predicate RevokesNothing(w: World, w': World)
  {
    && (forall sid :: sid in w'.store.rows && w'.store.rows[sid].state == S.Revoked ==>
          sid in w.store.rows && w.store.rows[sid].state == S.Revoked
          && w.store.rows[sid].depositId == w'.store.rows[sid].depositId)
    && (forall id :: id in w.deposits ==> id in w'.deposits && w'.deposits[id] == w.deposits[id])
  }

  lemma RedeemRevokesNothing(w: World, task: nat)
    ensures RevokesNothing(w, ApplyRedeem(w, task))
  {
  }

  lemma TokenRevokesNothing(w: World, code: string, token: string, nonce: string)
    ensures RevokesNothing(w, ApplyToken(w, code, token, nonce))
  {
  }

  /** No uninterrupted event but a handler's revokes anything or touches an existing deposit. */
  lemma NothingRevoked(w: World, e: Event, now: int)
    requires Atomic(e) && Enabled(w, e, now) && !e.Handle?
    ensures RevokesNothing(w, Apply(w, e, now))
  {
    if e.Redeem? {
      RedeemRevokesNothing(w.(clock := now), e.task);
    } else if e.Token? {
      TokenRevokesNothing(w.(clock := now), e.code, e.token, e.nonce);
    }
  }

  lemma {:induction false} RightAlongRun(ws: seq<World>, es: seq<Timed>, n: nat)
    requires IsAtomicRun(ws, es) && n < |ws|
    ensures RevokedRight(ws[n].store.rows, ws[n].deposits)
  {
    if n > 0 {
      RightAlongRun(ws, es, n - 1);
      RunOk(ws, es, n - 1);
      RunStep(ws, es, n - 1);
      assert Atomic(es[n - 1].e);
      RightStep(ws[n - 1], es[n - 1].e, es[n - 1].at);
    }
  }

  lemma RightStep(w: World, e: Event, now: int)
    requires DepositsOk(w) && Enabled(w, e, now) && Atomic(e) && RevokedRight(w.store.rows, w.deposits)
    ensures RevokedRight(Apply(w, e, now).store.rows, Apply(w, e, now).deposits)
  {
    if e.Handle? {
      TasksKeep(w, w.(clock := now));
      RightHandled(w.(clock := now), e.dep, e.req);
    } else {
      NothingRevoked(w, e, now);
    }
  }

  // ---------------------------------------------------------------- after the close

  /** Of the deposit's credentials exactly those in the set are reported revoked. */
  ghost predicate ExactlyRevoked(s: S.Store, dep: string, revoked: set<string>)
  {
    && revoked <= s.creds.Keys
    && forall c :: IssuedFor(s, c, dep) ==> (SaysRevoked(s, c) <==> c in revoked)
  }

  /** Rows that keep their state and deposit, with the same credentials registered. */
  lemma ExactlyKept(s: S.Store, t: S.Store, dep: string, revoked: set<string>)
    requires ExactlyRevoked(s, dep, revoked) && S.CredsExact(s) && t.creds == s.creds
    requires forall sid :: sid in s.rows ==>
               sid in t.rows && t.rows[sid].depositId == s.rows[sid].depositId
               && (s.rows[sid].depositId == dep ==> t.rows[sid].state == s.rows[sid].state)
    ensures ExactlyRevoked(t, dep, revoked)
  {
    forall c | IssuedFor(t, c, dep) ensures SaysRevoked(t, c) <==> c in revoked {
      assert IssuedFor(s, c, dep);
      assert SaysRevoked(s, c) <==> SaysRevoked(t, c);
    }
  }

  lemma ExactlyConsumed(s: S.Store, token: string, cred: string, now: int, dep: string, revoked: set<string>)
    requires ExactlyRevoked(s, dep, revoked) && S.CredsExact(s) && cred !in s.creds
    ensures ExactlyRevoked(S.MemConsume(s, token, cred, now).0, dep, revoked)
  {
    var (t, row) := S.MemConsume(s, token, cred, now);
    if row.Some? {
      forall c | IssuedFor(t, c, dep) ensures SaysRevoked(t, c) <==> c in revoked {
        if c != cred {
          assert s.rows[s.creds[c]].cred == Some(c);
          assert t.rows[t.creds[c]] == s.rows[s.creds[c]];
          assert IssuedFor(s, c, dep);
        }
      }
    }
  }

  lemma ClosedStays(d: Deposit, r: Request, now: int)
    requires d.state == Closed
    ensures Step(d, r, now) == d
  {
    Runs.DecideLegal(d, r, now);
  }

  lemma OtherRevoked(s: S.Store, id: string, dep: string, revoked: set<string>)
    requires S.CredsExact(s) && ExactlyRevoked(s, dep, revoked) && id != dep
    ensures ExactlyRevoked(S.MemRevoke(s, id), dep, revoked)
  {
    ExactlyKept(s, S.MemRevoke(s, id), dep, revoked);
  }

  lemma HandleAfterClose(w: World, id: string, req: Request, dep: string, revoked: set<string>)
    requires S.CredsExact(w.store) && DepositsOk(w) && dep in w.deposits && w.deposits[dep].state == Closed
    requires ExactlyRevoked(w.store, dep, revoked)
    ensures ExactlyRevoked(ApplyHandle(w, id, req).store, dep, revoked)
  {
    HandleParts(w, id, req);
    if id == dep {
      ClosedStays(w.deposits[dep], req, w.clock);
    } else {
      OtherRevoked(w.store, id, dep, revoked);
    }
  }

  lemma OpenedAfterClose(w: World, id: string, validUntil: string, sid: string, code: string, nonce: string,
                         dep: string, revoked: set<string>)
    requires S.CredsExact(w.store) && ExactlyRevoked(w.store, dep, revoked) && sid !in w.store.rows
    ensures ExactlyRevoked(ApplyIssue(w, id, validUntil, sid, code, nonce).store, dep, revoked)
  {
    ExactlyKept(w.store, ApplyIssue(w, id, validUntil, sid, code, nonce).store, dep, revoked);
  }

  lemma ExchangedAfterClose(w: World, code: string, token: string, nonce: string, dep: string, revoked: set<string>)
    requires S.CredsExact(w.store) && ExactlyRevoked(w.store, dep, revoked)
    ensures ExactlyRevoked(ApplyToken(w, code, token, nonce).store, dep, revoked)
  {
    ExactlyKept(w.store, S.MemExchange(w.store, code, token, nonce, w.clock).0, dep, revoked);
  }

  lemma RedeemedAfterClose(w: World, task: nat, dep: string, revoked: set<string>)
    requires S.CredsExact(w.store) && FlightsOk(w.store, w.tasks) && ExactlyRevoked(w.store, dep, revoked)
    ensures ExactlyRevoked(ApplyRedeem(w, task).store, dep, revoked)
  {
    if task in w.tasks && w.tasks[task].Built? {
      ExactlyConsumed(w.store, w.tasks[task].token, w.tasks[task].cred, w.clock, dep, revoked);
    }
  }

  lemma WalletAfterClose(w: World, e: Event, now: int, dep: string, revoked: set<string>)
    requires S.CredsExact(w.store) && FlightsOk(w.store, w.tasks) && Enabled(w, e, now) && Atomic(e) && !e.Handle?
    requires ExactlyRevoked(w.store, dep, revoked)
    ensures ExactlyRevoked(Apply(w, e, now).store, dep, revoked)
  {
    var v := w.(clock := now);
    match e {
      case Issue(id, validUntil, sid, code, nonce) => OpenedAfterClose(v, id, validUntil, sid, code, nonce, dep, revoked);
      case Token(code, token, nonce) => ExchangedAfterClose(v, code, token, nonce, dep, revoked);
      case Redeem(task) => RedeemedAfterClose(v, task, dep, revoked);
      case _ =>
    }
  }

  /** A deposit that is closed, with the credentials that are revoked for good. */
  ghost predicate ClosedWith(w: World, dep: string, revoked: set<string>)
  {
    dep in w.deposits && w.deposits[dep].state == Closed && ExactlyRevoked(w.store, dep, revoked)
  }

  lemma StillClosed(w: World, e: Event, now: int, dep: string)
    requires DepositsOk(w) && Enabled(w, e, now) && Atomic(e) && dep in w.deposits && w.deposits[dep].state == Closed
    ensures dep in Apply(w, e, now).deposits && Apply(w, e, now).deposits[dep].state == Closed
  {
    AdvancedHere(w, e, now, dep);
    if e.Handle? {
      ClosedStays(w.deposits[dep], e.req, now);
    }
  }

  lemma StepAfterClose(w: World, e: Event, now: int, dep: string, revoked: set<string>)
    requires S.CredsExact(w.store) && FlightsOk(w.store, w.tasks) && DepositsOk(w) && Enabled(w, e, now) && Atomic(e)
    requires ClosedWith(w, dep, revoked)
    ensures ExactlyRevoked(Apply(w, e, now).store, dep, revoked)
  {
    if e.Handle? {
      TasksKeep(w, w.(clock := now));
      HandleAfterClose(w.(clock := now), e.dep, e.req, dep, revoked);
    } else {
      WalletAfterClose(w, e, now, dep, revoked);
    }
  }

  lemma NextAfterClose(ws: seq<World>, es: seq<Timed>, i: nat, dep: string, revoked: set<string>)
    requires IsAtomicRun(ws, es) && i < |es| && ClosedWith(ws[i], dep, revoked)
    ensures ClosedWith(ws[i + 1], dep, revoked)
  {
    RunOk(ws, es, i);
    RunStep(ws, es, i);
    assert Atomic(es[i].e);
    StillClosed(ws[i], es[i].e, es[i].at, dep);
    StepAfterClose(ws[i], es[i].e, es[i].at, dep, revoked);
  }

  lemma {:induction false} LongAfterClose(ws: seq<World>, es: seq<Timed>, i: nat, n: nat, dep: string, revoked: set<string>)
    requires IsAtomicRun(ws, es) && i <= n < |ws| && ClosedWith(ws[i], dep, revoked)
    ensures ClosedWith(ws[n], dep, revoked)
    decreases n
  {
    if i < n {
      LongAfterClose(ws, es, i, n - 1, dep, revoked);
      NextAfterClose(ws, es, n - 1, dep, revoked);
    }
  }

  // ---------------------------------------------------------------- the close itself

  lemma ClosingRequests(d: Deposit, r: Request, now: int)
    requires d.state != Closed && Step(d, r, now).state == Closed
    ensures r.SettleAccept? || r.DisputeResolve? || r.UtilitySettle?
    ensures r.UtilitySettle? ==> d.state == PartiallyReleased
  {
    Runs.StepTimestamps(d, r, now);
    if r.UtilitySettle? {
      Runs.UtilityOffers(d, r, now);
    }
  }

  lemma NoneRevoked(s: S.Store, m: map<string, Deposit>, dep: string)
    requires RevokedRight(s.rows, m) && dep in m && !Ended(m[dep].state)
    ensures ExactlyRevoked(s, dep, {})
  {
  }

  lemma AllRevoked(s: S.Store, dep: string)
    ensures ExactlyRevoked(S.MemRevoke(s, dep), dep, s.creds.Keys)
  {
    RevokeReaches(s, dep);
  }

  /** The credentials that a closing request revokes: all of them, or none. */
  lemma AtTheClose(w: World, dep: string, req: Request)
    requires DepositsOk(w) && RevokedRight(w.store.rows, w.deposits)
    requires dep in w.deposits && w.deposits[dep].state != Closed && Step(w.deposits[dep], req, w.clock).state == Closed
    ensures ExactlyRevoked(ApplyHandle(w, dep, req).store, dep, if req.UtilitySettle? then {} else w.store.creds.Keys)
  {
    HandleParts(w, dep, req);
    ClosingRequests(w.deposits[dep], req, w.clock);
    if req.UtilitySettle? {
      NoneRevoked(w.store, w.deposits, dep);
    } else {
      AllRevoked(w.store, dep);
    }
  }

  /** With uninterrupted handlers: a closed deposit's credential is reported revoked if and only if it
      was issued before the close and the close was not a utility statement without shortfall. */
  lemma ActiveAfterClosingExactly(ws: seq<World>, es: seq<Timed>, i: nat, n: nat, dep: string, req: Request)
    requires IsAtomicRun(ws, es) && i < n < |ws| && es[i].e == Handle(dep, req)
    requires dep in ws[i].deposits && ws[i].deposits[dep].state != Closed
    requires dep in ws[i + 1].deposits && ws[i + 1].deposits[dep].state == Closed
    ensures req.SettleAccept? || req.DisputeResolve? || req.UtilitySettle?
    ensures forall c :: IssuedFor(ws[n].store, c, dep) ==>
              (SaysRevoked(ws[n].store, c) <==> c in ws[i].store.creds && !req.UtilitySettle?)
  {
    RunOk(ws, es, i);
    RightAlongRun(ws, es, i);
    RunStep(ws, es, i);
    var w := ws[i].(clock := es[i].at);
    TasksKeep(ws[i], w);
    HandledHere(ws[i], dep, req, es[i].at, dep);
    ClosingRequests(ws[i].deposits[dep], req, es[i].at);
    AtTheClose(w, dep, req);
    LongAfterClose(ws, es, i + 1, n, dep, if req.UtilitySettle? then {} else ws[i].store.creds.Keys);
  }
}

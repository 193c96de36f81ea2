/** What holds of every run of the server. */
module WorldTheorems {
  import opened Basics
  import opened Lifecycle
  import opened Deposits
  import opened DepositSafety
  import Runs = DepositRuns
  import opened World
  import opened WorldSessions
  import opened WorldDeposits
  import S = Sessions
  import opened StatusList
  import Stores = SessionStores

  // ---------------------------------------------------------------- invariants along a run

  lemma RunStep(ws: seq<World>, es: seq<Timed>, i: nat)
    requires IsRun(ws, es) && i < |es|
    ensures Enabled(ws[i], es[i].e, es[i].at) && ws[i + 1] == Apply(ws[i], es[i].e, es[i].at)
    ensures ws[i + 1].clock == es[i].at
  {
    ClockIs(ws[i], es[i].e, es[i].at);
  }

  lemma StartOk(now: int)
    ensures SessionsOk(Start(now)) && DepositsOk(Start(now))
  {
  }

  lemma {:induction false} RunOk(ws: seq<World>, es: seq<Timed>, i: nat)
    requires IsRun(ws, es) && i < |ws|
    ensures SessionsOk(ws[i]) && DepositsOk(ws[i])
  {
    if i == 0 {
      StartOk(ws[0].clock);
    } else {
      RunOk(ws, es, i - 1);
      RunStep(ws, es, i - 1);
      SessionsStep(ws[i - 1], es[i - 1].e, es[i - 1].at);
      DepositsStep(ws[i - 1], es[i - 1].e, es[i - 1].at);
    }
  }

  lemma {:induction false} RunAdvances(ws: seq<World>, es: seq<Timed>, i: nat, j: nat)
    requires IsRun(ws, es) && i <= j < |ws|
    ensures Evolves(ws[i].store, ws[j].store) && Grows(ws[i].deposits, ws[j].deposits)
    decreases j
  {
    if i < j {
      RunAdvances(ws, es, i, j - 1);
      RunOk(ws, es, j - 1);
      RunStep(ws, es, j - 1);
      SessionsStep(ws[j - 1], es[j - 1].e, es[j - 1].at);
      DepositsStep(ws[j - 1], es[j - 1].e, es[j - 1].at);
      EvolvesTransitive(ws[i].store, ws[j - 1].store, ws[j].store);
      GrowsTransitive(ws[i].deposits, ws[j - 1].deposits, ws[j].deposits);
    }
  }

  lemma {:induction false} AtomicRunOk(ws: seq<World>, es: seq<Timed>, i: nat)
    requires IsAtomicRun(ws, es) && i < |ws|
    ensures AtomicOk(ws[i])
  {
    if i > 0 {
      AtomicRunOk(ws, es, i - 1);
      RunOk(ws, es, i - 1);
      var e := es[i - 1];
      assert Enabled(ws[i - 1], e.e, e.at) && ws[i] == Apply(ws[i - 1], e.e, e.at) && Atomic(e.e);
      AtomicStep(ws[i - 1], e.e, e.at);
    }
  }

  /** The requests for one deposit among the events, in order. */
  function HandlesFor(es: seq<Timed>, id: string): seq<Runs.Received>
  {
    if es == [] then []
    else
      var earlier, last := HandlesFor(es[..|es| - 1], id), es[|es| - 1];
      if last.e.Handle? && last.e.dep == id then earlier + [Runs.Received(last.at, last.e.req)] else earlier
  }

  lemma HandlesAppend(es: seq<Timed>, e: Timed, id: string)
    ensures HandlesFor(es + [e], id) ==
            if e.e.Handle? && e.e.dep == id then HandlesFor(es, id) + [Runs.Received(e.at, e.e.req)] else HandlesFor(es, id)
  {
    assert (es + [e])[..|es|] == es;
  }

  /** The deposit that a creation event makes. */
  function Created(e: Timed): Deposit
    requires e.e.CreateDeposit?
  {
    NewDeposit(e.e.id, e.e.info, e.e.extras, e.at)
  }

  /** The requests between a creation and some later moment, at ascending times. */
  ghost predicate Since(ws: seq<World>, es: seq<Timed>, c: nat, n: nat, id: string)
    requires |ws| == |es| + 1
  {
    && c < n < |ws|
    && es[c].e.CreateDeposit? && es[c].e.id == id && ValidCreate(es[c].e.info) && id !in ws[c].deposits
    && Runs.Ascending(es[c].at, HandlesFor(es[c + 1..n], id))
  }

  /** The deposit at `n` is the replay of its requests since its creation at `c`. */
  ghost predicate Replayed(ws: seq<World>, es: seq<Timed>, c: nat, n: nat, id: string)
    requires |ws| == |es| + 1
  {
    && Since(ws, es, c, n, id)
    && es[c].at <= ws[n].clock && (forall r :: r in HandlesFor(es[c + 1..n], id) ==> r.at <= ws[n].clock)
    && id in ws[n].deposits
    && ws[n].deposits[id] == Runs.Replay(Created(es[c]), HandlesFor(es[c + 1..n], id))
  }

  lemma ReplayBegins(ws: seq<World>, es: seq<Timed>, c: nat, id: string)
    requires IsRun(ws, es) && c < |es| && id !in ws[c].deposits && id in ws[c + 1].deposits
    ensures Replayed(ws, es, c, c + 1, id)
  {
    RunStep(ws, es, c);
    CreatedHere(ws[c], es[c].e, es[c].at, id);
    assert es[c + 1..c + 1] == [];
  }

  lemma ReplayContinues(ws: seq<World>, es: seq<Timed>, c: nat, n: nat, id: string, e: Timed)
    requires |ws| == |es| + 1 && n < |es| && e == es[n] && Replayed(ws, es, c, n, id)
    requires ws[n].clock <= e.at == ws[n + 1].clock && id in ws[n + 1].deposits
    requires ws[n + 1].deposits[id] ==
             if e.e.Handle? && e.e.dep == id then Step(ws[n].deposits[id], e.e.req, e.at) else ws[n].deposits[id]
    ensures Replayed(ws, es, c, n + 1, id)
  {
    assert es[c + 1..n + 1] == es[c + 1..n] + [e];
    RequestsContinue(es[c + 1..n], e, id, Created(es[c]), es[c].at);
  }

  /** One more event: its request, if it is one for the deposit, extends the replay. */
  lemma RequestsContinue(es: seq<Timed>, e: Timed, id: string, d: Deposit, start: int)
    requires Runs.Ascending(start, HandlesFor(es, id)) && start <= e.at
    requires forall r :: r in HandlesFor(es, id) ==> r.at <= e.at
    ensures Runs.Ascending(start, HandlesFor(es + [e], id))
    ensures forall r :: r in HandlesFor(es + [e], id) ==> r.at <= e.at
    ensures var before := Runs.Replay(d, HandlesFor(es, id));
            Runs.Replay(d, HandlesFor(es + [e], id)) ==
            if e.e.Handle? && e.e.dep == id then Step(before, e.e.req, e.at) else before
  {
    HandlesAppend(es, e, id);
    if e.e.Handle? && e.e.dep == id {
      ReplayMore(d, start, HandlesFor(es, id), Runs.Received(e.at, e.e.req));
    }
  }

  /** In an uninterrupted run every deposit is what replaying its own requests makes of what its
      creation event brought, so everything proved of replays holds of what the server was sent. */
  lemma {:induction false} AtomicRunReplays(ws: seq<World>, es: seq<Timed>, n: nat, id: string) returns (c: nat)
    requires IsAtomicRun(ws, es) && n < |ws| && id in ws[n].deposits
    ensures Replayed(ws, es, c, n, id)
  {
    if id !in ws[n - 1].deposits {
      c := n - 1;
      ReplayBegins(ws, es, c, id);
    } else {
      c := AtomicRunReplays(ws, es, n - 1, id);
      RunOk(ws, es, n - 1);
      RunStep(ws, es, n - 1);
      AdvancedHere(ws[n - 1], es[n - 1].e, es[n - 1].at, id);
      ReplayContinues(ws, es, c, n - 1, id, es[n - 1]);
    }
  }

  lemma ClockIs(w: World, e: Event, now: int)
    ensures Apply(w, e, now).clock == now
  {
  }

  lemma ReplayMore(d: Deposit, start: int, rs: seq<Runs.Received>, r: Runs.Received)
    requires Runs.Ascending(start, rs) && start <= r.at && forall q :: q in rs ==> q.at <= r.at
    ensures Runs.Replay(d, rs + [r]) == Step(Runs.Replay(d, rs), r.req, r.at)
    ensures Runs.Ascending(start, rs + [r])
  {
    Runs.ReplayAppend(d, rs, r);
    assert forall i :: 0 <= i < |rs| ==> rs[i] in rs;
  }

  lemma CreatedHere(w: World, e: Event, now: int, id: string)
    requires id !in w.deposits && id in Apply(w, e, now).deposits
    ensures e.CreateDeposit? && e.id == id
    ensures Apply(w, e, now).deposits[id] == NewDeposit(id, e.info, e.extras, now)
  {
  }

  lemma OthersLeaveDeposits(w: World, e: Event, now: int)
    requires Atomic(e) && !e.Handle? && !e.CreateDeposit?
    ensures Apply(w, e, now).deposits == w.deposits
  {
  }

  lemma HandledHere(w: World, dep: string, req: Request, now: int, id: string)
    requires DepositsOk(w) && w.clock <= now && id in w.deposits
    ensures id in ApplyHandle(w.(clock := now), dep, req).deposits
    ensures ApplyHandle(w.(clock := now), dep, req).deposits[id] ==
            if dep == id then Step(w.deposits[id], req, now) else w.deposits[id]
  {
    TasksKeep(w, w.(clock := now));
    HandleEffect(w.(clock := now), dep, req);
  }

  lemma CreateLeaves(w: World, dep: string, info: Info, x: Extras, auditOk: bool, id: string)
    requires id in w.deposits && dep != id
    ensures id in ApplyCreate(w, dep, info, x, auditOk).deposits
    ensures ApplyCreate(w, dep, info, x, auditOk).deposits[id] == w.deposits[id]
  {
  }

  lemma AdvancedHere(w: World, e: Event, now: int, id: string)
    requires DepositsOk(w) && Enabled(w, e, now) && Atomic(e) && id in w.deposits
    ensures id in Apply(w, e, now).deposits
    ensures Apply(w, e, now).deposits[id] ==
            if e.Handle? && e.dep == id then Step(w.deposits[id], e.req, now) else w.deposits[id]
  {
    match e {
      case Handle(dep, req) => HandledHere(w, dep, req, now, id);
      case CreateDeposit(dep, info, x, auditOk) => CreateLeaves(w.(clock := now), dep, info, x, auditOk, id);
      case _ => OthersLeaveDeposits(w, e, now);
    }
  }

  /** On the server: an acceptance that takes effect closes the deposit on the last offer among the
      requests that the server received for it, and comes from the other party. */
  lemma AcceptanceOnTheServer(ws: seq<World>, es: seq<Timed>, n: nat, id: string, party: string) returns (c: nat)
    requires IsAtomicRun(ws, es) && n < |es| && es[n].e == Handle(id, SettleAccept(party))
    requires id in ws[n].deposits && id in ws[n + 1].deposits && ws[n + 1].deposits[id] != ws[n].deposits[id]
    ensures Since(ws, es, c, n, id)
    ensures var offer, d := Runs.LastOffer(Created(es[c]), HandlesFor(es[c + 1..n], id)), ws[n + 1].deposits[id];
            && offer.Some? && offer.value.party != party
            && d.state == Closed && d.settlement.Some?
            && d.settlement.value.agreedRefund == offer.value.refund
            && d.settlement.value.agreedRetention == offer.value.retention
  {
    c := AtomicRunReplays(ws, es, n, id);
    RunOk(ws, es, n);
    assert Enabled(ws[n], es[n].e, es[n].at) && ws[n + 1] == Apply(ws[n], es[n].e, es[n].at);
    AdvancedHere(ws[n], es[n].e, es[n].at, id);
    var e := es[c].e;
    Runs.AcceptanceSealsTheLastOffer(id, e.info, e.extras, es[c].at, HandlesFor(es[c + 1..n], id), party, es[n].at);
  }

  // ---------------------------------------------------------------- deposits, any interleaving

  /** Under every interleaving of read and write phases: no handler dereferences nil; the JSON history
      starts at REQUESTED, ends in the current state, never goes back in time and, after a successful
      creation, is the audit log; and from any point on it only grows, while pledge, settlement and
      reservation never become nil again. */
  lemma HistoryAndAuditAgree(ws: seq<World>, es: seq<Timed>, i: nat, j: nat, id: string)
    requires IsRun(ws, es) && i <= j < |ws| && id in ws[i].deposits
    ensures id in ws[j].deposits && !ws[j].panicked
    ensures var d, d' := ws[i].deposits[id], ws[j].deposits[id];
            && d'.history != [] && d'.history[0].state == Requested
            && d'.history[|d'.history| - 1].state == d'.state
            && NonDecreasing(d'.history)
            && (id in ws[j].created ==> RowsFor(ws[j].audit, id) == d'.history)
            && (id !in ws[j].created ==> RowsFor(ws[j].audit, id) == d'.history[1..])
            && d.history <= d'.history
            && (d.pledge.Some? ==> d'.pledge.Some?)
            && (d.settlement.Some? ==> d'.settlement.Some?)
            && (d.reservation.Some? ==> d'.reservation.Some?)
            && d'.info == d.info
  {
    RunOk(ws, es, j);
    RunAdvances(ws, es, i, j);
    var d' := ws[j].deposits[id];
    assert Extends(ws[i].deposits[id], d');
    assert SoundDeposit(d', id, ws[j].clock);
    assert Audited(d'.history, RowsFor(ws[j].audit, id), id in ws[j].created);
  }

  // ---------------------------------------------------------------- credentials, any interleaving

  /** No two credentials share a session or an id. */
  ghost predicate Paired(issued: seq<Issued>)
  {
    forall i, j :: 0 <= i < j < |issued| ==> issued[i].sid != issued[j].sid && issued[i].cred != issued[j].cred
  }

  /** Each credential is registered for its session and carries its index. */
  ghost predicate Registered(s: S.Store, issued: seq<Issued>)
  {
    forall i :: 0 <= i < |issued| ==>
      && issued[i].sid in s.rows
      && s.rows[issued[i].sid].cred == Some(issued[i].cred)
      && s.rows[issued[i].sid].state != S.Pending
      && issued[i].cred in s.creds && s.creds[issued[i].cred] == issued[i].sid
      && issued[i].dep == s.rows[issued[i].sid].depositId
      && ParseDecimal(issued[i].claim) == s.rows[issued[i].sid].index
  }

  /** Nothing else is registered. */
  ghost predicate AllIssued(s: S.Store, issued: seq<Issued>)
  {
    forall c :: c in s.creds ==> exists i :: 0 <= i < |issued| && issued[i].cred == c
  }

  /** Sessions and credentials are paired, and each credential carries its session's index. */
  ghost predicate OnePerSession(w: World)
  {
    Paired(w.issued) && Registered(w.store, w.issued) && AllIssued(w.store, w.issued)
  }

  /** However wallet requests interleave, and however many tokens a code was exchanged for: a session
      yields at most one credential, that credential is registered for its session, is CONSUMED or
      REVOKED, and carries the session's own index; conversely nothing else is registered. */
  lemma OneCredentialPerSession(ws: seq<World>, es: seq<Timed>, n: nat)
    requires IsRun(ws, es) && n < |ws|
    ensures OnePerSession(ws[n])
  {
    RunOk(ws, es, n);
    PairedUp(ws[n]);
  }

  lemma PairedUp(w: World)
    requires SessionsOk(w)
    ensures OnePerSession(w)
  {
    forall i | 0 <= i < |w.issued| ensures ParseDecimal(w.issued[i].claim) == w.store.rows[w.issued[i].sid].index {
      DecimalRoundTrip(w.store.rows[w.issued[i].sid].index);
    }
    forall i, j | 0 <= i < j < |w.issued| ensures w.issued[i].cred != w.issued[j].cred {
      assert w.store.creds[w.issued[i].cred] == w.issued[i].sid && w.store.creds[w.issued[j].cred] == w.issued[j].sid;
    }
    forall c | c in w.store.creds ensures exists i :: 0 <= i < |w.issued| && w.issued[i].cred == c {
      var i :| 0 <= i < |w.issued| && w.issued[i].sid == w.store.creds[c];
      assert w.issued[i].cred == c;
    }
  }

  // ---------------------------------------------------------------- the status list

  /** A bitstring that publishes a set of revoked indices. */
  ghost predicate Publishes(bytes: seq<bv8>, revoked: set<int>)
  {
    && |bytes| == 16_384
    && forall k :: 0 <= k < 131_072 ==> (BitAt(bytes, k) <==> k in revoked)
  }

  /** The status list endpoint. */
  method ServeStatusList(sessions: Stores.MemoryStore) returns (bytes: seq<bv8>)
    requires sessions.Valid()
    ensures Publishes(bytes, S.MemRevoked(sessions.model))
  {
    var indices := sessions.RevokedStatusListIndices();
    bytes := BuildBitstring(indices);
  }

  /** The answer of the per-credential status endpoint. */
  predicate SaysRevoked(s: S.Store, cred: string)
  {
    S.Report(S.Deref(s, s.creds, cred)) == S.CredStatus("revoked", true)
  }

  lemma RevokedByIndex(w: World, cred: string)
    requires S.CredsExact(w.store) && IndicesOk(w.store.rows, w.nextIndex, w.tasks) && cred in w.store.creds
    ensures w.store.creds[cred] in w.store.rows
    ensures SaysRevoked(w.store, cred) <==> w.store.rows[w.store.creds[cred]].index in S.MemRevoked(w.store)
  {
    var rows, creds := w.store.rows, w.store.creds;
    var index := rows[creds[cred]].index;
    if index in S.MemRevoked(w.store) {
      var c :| c in creds && creds[c] in rows && rows[creds[c]].state == S.Revoked && rows[creds[c]].index == index;
      assert creds[c] == creds[cred];
    }
  }

  lemma RevokedIsHandedOut(w: World, k: int)
    requires Registered(w.store, w.issued) && AllIssued(w.store, w.issued) && k in S.MemRevoked(w.store)
    ensures exists i :: 0 <= i < |w.issued| && ParseDecimal(w.issued[i].claim) == k && SaysRevoked(w.store, w.issued[i].cred)
  {
    var rows, creds := w.store.rows, w.store.creds;
    var c :| c in creds && creds[c] in rows && rows[creds[c]].state == S.Revoked && rows[creds[c]].index == k;
    var i :| 0 <= i < |w.issued| && w.issued[i].cred == c;
    assert ParseDecimal(w.issued[i].claim) == k && SaysRevoked(w.store, w.issued[i].cred);
  }

  /** The bit that a credential's own status claim points to tells what the status endpoint tells, and
      every set bit belongs to a handed-out credential that is revoked. */
  ghost predicate BitsAgree(w: World, bytes: seq<bv8>)
    requires |bytes| == 16_384
  {
    && (forall i :: 0 <= i < |w.issued| ==>
          var index := ParseDecimal(w.issued[i].claim);
          && 0 <= index < w.nextIndex
          && (index < 131_072 ==> (BitAt(bytes, index) <==> SaysRevoked(w.store, w.issued[i].cred))))
    && (forall k :: 0 <= k < 131_072 && BitAt(bytes, k) ==>
          exists i :: 0 <= i < |w.issued| && ParseDecimal(w.issued[i].claim) == k && SaysRevoked(w.store, w.issued[i].cred))
  }

  lemma BitsTell(w: World, bytes: seq<bv8>)
    requires SessionsOk(w) && OnePerSession(w) && Publishes(bytes, S.MemRevoked(w.store))
    ensures BitsAgree(w, bytes)
  {
    forall i | 0 <= i < |w.issued|
      ensures 0 <= ParseDecimal(w.issued[i].claim) < w.nextIndex
      ensures ParseDecimal(w.issued[i].claim) in S.MemRevoked(w.store) <==> SaysRevoked(w.store, w.issued[i].cred)
    {
      RevokedByIndex(w, w.issued[i].cred);
    }
    forall k | 0 <= k < 131_072 && BitAt(bytes, k)
      ensures exists i :: 0 <= i < |w.issued| && ParseDecimal(w.issued[i].claim) == k && SaysRevoked(w.store, w.issued[i].cred)
    {
      RevokedIsHandedOut(w, k);
    }
  }

  /** In every reachable state the two ways to ask agree, for every credential whose index the list
      has room for. */
  lemma StatusAndBitsAgree(ws: seq<World>, es: seq<Timed>, n: nat, bytes: seq<bv8>)
    requires IsRun(ws, es) && n < |ws| && Publishes(bytes, S.MemRevoked(ws[n].store))
    ensures BitsAgree(ws[n], bytes)
  {
    RunOk(ws, es, n);
    PairedUp(ws[n]);
    BitsTell(ws[n], bytes);
  }

  // ---------------------------------------------------------------- revocation

  predicate RevokingRequest(r: Request)
  {
    r.Release? || r.SettleAccept? || r.DisputeResolve?
  }

  lemma RevokersRevoke(found: Option<Deposit>, r: Request, now: int)
    ensures Decide(found, r, now).Update? ==> (Decide(found, r, now).revokes <==> RevokingRequest(r))
  {
  }

  /** A credential registered for a session of the deposit. */
  predicate IssuedFor(s: S.Store, cred: string, dep: string)
  {
    cred in s.creds && s.creds[cred] in s.rows && s.rows[s.creds[cred]].depositId == dep
  }

  /** Revoking one deposit's credentials: all registered ones, and no row of another deposit. */
  lemma RevokeReaches(s: S.Store, dep: string)
    ensures var s' := S.MemRevoke(s, dep);
            && (forall c :: IssuedFor(s, c, dep) ==> SaysRevoked(s', c))
            && (forall id :: id in s.rows && s.rows[id].depositId != dep ==> id in s'.rows && s'.rows[id] == s.rows[id])
  {
    forall c | IssuedFor(s, c, dep) ensures S.MemRevoke(s, dep).rows[s.creds[c]].state == S.Revoked {
      assert s.creds[c] in s.creds.Values;
    }
  }

  lemma StaysRevoked(s: S.Store, t: S.Store, cred: string)
    requires Evolves(s, t) && SaysRevoked(s, cred)
    ensures SaysRevoked(t, cred)
  {
    assert Later(s.rows[s.creds[cred]], t.rows[s.creds[cred]]);
  }

  /** A release, an acceptance or a resolution that takes effect revokes every credential issued for
      the deposit so far, for good, and touches no other deposit's sessions. */
  lemma ClosingRevokes(ws: seq<World>, es: seq<Timed>, i: nat, j: nat, dep: string, req: Request)
    requires IsRun(ws, es) && i < j < |ws|
    requires es[i].e == Handle(dep, req) && RevokingRequest(req)
    requires ws[i + 1].deposits != ws[i].deposits
    ensures forall c :: IssuedFor(ws[i].store, c, dep) ==> SaysRevoked(ws[j].store, c)
    ensures forall id :: id in ws[i].store.rows && ws[i].store.rows[id].depositId != dep ==>
              id in ws[i + 1].store.rows && ws[i + 1].store.rows[id] == ws[i].store.rows[id]
  {
    RunOk(ws, es, i);
    assert ws[i + 1] == Apply(ws[i], es[i].e, es[i].at);
    RevokingStep(ws[i].(clock := es[i].at), dep, req);
    RevokeReaches(ws[i].store, dep);
    RunAdvances(ws, es, i + 1, j);
    forall c | IssuedFor(ws[i].store, c, dep) ensures SaysRevoked(ws[j].store, c) {
      StaysRevoked(ws[i + 1].store, ws[j].store, c);
    }
  }

  lemma RevokingStep(w: World, dep: string, req: Request)
    requires RevokingRequest(req) && ApplyHandle(w, dep, req).deposits != w.deposits && !w.panicked
    ensures ApplyHandle(w, dep, req).store == S.MemRevoke(w.store, dep)
  {
    RevokersRevoke(Find(w, dep), req, w.clock);
  }

  /** Nothing is ever un-revoked: what the status list publishes only grows. */
  lemma RevokedOnlyGrows(ws: seq<World>, es: seq<Timed>, i: nat, j: nat)
    requires IsRun(ws, es) && i <= j < |ws|
    ensures S.MemRevoked(ws[i].store) <= S.MemRevoked(ws[j].store)
    ensures forall c :: SaysRevoked(ws[i].store, c) ==> SaysRevoked(ws[j].store, c)
  {
    RunAdvances(ws, es, i, j);
    RevokedGrows(ws[i].store, ws[j].store);
    forall c | SaysRevoked(ws[i].store, c) ensures SaysRevoked(ws[j].store, c) {
      StaysRevoked(ws[i].store, ws[j].store, c);
    }
  }

  // ---------------------------------------------------------------- the quarter of an hour

  /** With uninterrupted handlers no credential is issued more than fifteen minutes after its deposit
      left PLEDGED. */
  lemma IssuedWithinQuarterHour(ws: seq<World>, es: seq<Timed>, n: nat, k: nat)
    requires IsAtomicRun(ws, es) && n < |ws| && k < |ws[n].issued|
    ensures var i := ws[n].issued[k];
            && i.dep in ws[n].deposits
            && (ws[n].deposits[i.dep].state == Pledged
                || (&& LeftPledged(ws[n].deposits[i.dep].history).Some?
                    && i.at <= LeftPledged(ws[n].deposits[i.dep].history).value + 900_000_000_000))
  {
    RunOk(ws, es, n);
    AtomicRunOk(ws, es, n);
    var w, i := ws[n], ws[n].issued[k];
    assert w.store.rows[i.sid].expiresAt == w.store.rows[i.sid].createdAt + S.SESSION_TTL;
    assert OpenedWhilePledged(w.deposits[i.dep], w.store.rows[i.sid].createdAt);
  }
}

/** Invariants of the issuing side under every interleaving: distinct status list indices, at most
    one credential per session, and revocation that is never taken back. */
module WorldSessions {
  import opened Basics
  import opened Deposits
  import opened World
  import S = Sessions

  // ---------------------------------------------------------------- how a store may change

  /** A later version of the same row. */
  ghost predicate Later(a: S.Row, b: S.Row)
  {
    && b.id == a.id && b.depositId == a.depositId && b.code == a.code && b.index == a.index
    && b.createdAt == a.createdAt && b.expiresAt == a.expiresAt && b.validUntil == a.validUntil
    && (a.cred.Some? ==> b.cred == a.cred)
    && (a.state != S.Pending ==> b.state != S.Pending)
    && (a.state == S.Revoked ==> b.state == S.Revoked)
  }

  ghost predicate Evolves(s: S.Store, t: S.Store)
  {
    && (forall id :: id in s.rows ==> id in t.rows && Later(s.rows[id], t.rows[id]))
    && (forall k :: k in s.tokens ==> k in t.tokens && t.tokens[k] == s.tokens[k])
    && (forall c :: c in s.creds ==> c in t.creds && t.creds[c] == s.creds[c])
  }

  lemma EvolvesTransitive(a: S.Store, b: S.Store, c: S.Store)
    requires Evolves(a, b) && Evolves(b, c)
    ensures Evolves(a, c)
  {
    forall id | id in a.rows ensures id in c.rows && Later(a.rows[id], c.rows[id]) {
      assert Later(a.rows[id], b.rows[id]) && Later(b.rows[id], c.rows[id]);
    }
  }

  lemma CreateEvolves(s: S.Store, row: S.Row)
    requires row.id !in s.rows
    ensures Evolves(s, S.MemCreate(s, row))
  {
  }

  lemma ExchangeEvolves(s: S.Store, code: string, token: string, nonce: string, now: int)
    requires token !in s.tokens
    ensures Evolves(s, S.MemExchange(s, code, token, nonce, now).0)
  {
  }

  lemma ConsumeEvolves(s: S.Store, token: string, cred: string, now: int)
    requires S.CredsExact(s) && cred !in s.creds
    ensures Evolves(s, S.MemConsume(s, token, cred, now).0)
  {
  }

  lemma RevokeEvolves(s: S.Store, dep: string)
    requires S.CredsExact(s)
    ensures Evolves(s, S.MemRevoke(s, dep))
  {
  }

  /** Under evolution the set of revoked indices only grows. */
  lemma RevokedGrows(s: S.Store, t: S.Store)
    requires Evolves(s, t)
    ensures S.MemRevoked(s) <= S.MemRevoked(t)
  {
    forall v | v in S.MemRevoked(s) ensures v in S.MemRevoked(t) {
      var c :| c in s.creds && s.creds[c] in s.rows && s.rows[s.creds[c]].state == S.Revoked && s.rows[s.creds[c]].index == v;
      assert Later(s.rows[s.creds[c]], t.rows[t.creds[c]]);
    }
  }

  // ---------------------------------------------------------------- indices

  predicate Passive(t: Task)
  {
    t.Planned? || t.ToRevoke? || t.Checked?
  }

  /** Every index, in a session or still in flight, was allocated once. */
  ghost predicate IndicesOk(rows: S.Table, next: nat, tasks: map<nat, Task>)
  {
    && (forall id :: id in rows ==> 0 <= rows[id].index < next)
    && (forall a, b :: a in rows && b in rows && a != b ==> rows[a].index != rows[b].index)
    && (forall t :: t in tasks && tasks[t].Allocated? ==> tasks[t].index < next)
    && (forall t, id :: t in tasks && tasks[t].Allocated? && id in rows ==> tasks[t].index != rows[id].index)
    && (forall t, u :: t in tasks && u in tasks && tasks[t].Allocated? && tasks[u].Allocated? && t != u ==>
          tasks[t].index != tasks[u].index)
  }

  lemma IndicesKept(rows: S.Table, rows': S.Table, next: nat, tasks: map<nat, Task>, tasks': map<nat, Task>)
    requires IndicesOk(rows, next, tasks)
    requires rows'.Keys == rows.Keys && forall id :: id in rows ==> rows'[id].index == rows[id].index
    requires forall t :: t in tasks' && tasks'[t].Allocated? ==> t in tasks && tasks[t] == tasks'[t]
    ensures IndicesOk(rows', next, tasks')
  {
  }

  lemma IndexAllocated(rows: S.Table, next: nat, tasks: map<nat, Task>, task: nat, a: Task)
    requires IndicesOk(rows, next, tasks) && a.Allocated? && a.index == next
    ensures IndicesOk(rows, next + 1, tasks[task := a])
  {
  }

  lemma IndexSettled(rows: S.Table, next: nat, tasks: map<nat, Task>, row: S.Row)
    requires IndicesOk(rows, next, tasks) && row.id !in rows && 0 <= row.index < next
    requires forall id :: id in rows ==> rows[id].index != row.index
    requires forall t :: t in tasks && tasks[t].Allocated? ==> tasks[t].index != row.index
    ensures IndicesOk(rows[row.id := row], next, tasks)
  {
  }

  // ---------------------------------------------------------------- wallet requests in flight

  ghost predicate FlightsOk(s: S.Store, tasks: map<nat, Task>)
  {
    && (forall t :: t in tasks && (tasks[t].Looked? || tasks[t].Built?) ==>
          tasks[t].token in s.tokens && s.tokens[tasks[t].token] == tasks[t].sid && tasks[t].sid in s.rows)
    && (forall t :: t in tasks && tasks[t].Built? ==>
          tasks[t].claim == PrintInt(s.rows[tasks[t].sid].index) && tasks[t].cred !in s.creds)
    && (forall t, u :: t in tasks && u in tasks && tasks[t].Built? && tasks[u].Built? && t != u ==>
          tasks[t].cred != tasks[u].cred)
  }

  lemma FlightsKept(s: S.Store, s': S.Store, tasks: map<nat, Task>, tasks': map<nat, Task>)
    requires FlightsOk(s, tasks) && Evolves(s, s')
    requires forall t :: t in tasks' && (tasks'[t].Looked? || tasks'[t].Built?) ==> t in tasks && tasks[t] == tasks'[t]
    requires forall t :: t in tasks' && tasks'[t].Built? ==> tasks'[t].cred !in s'.creds
    ensures FlightsOk(s', tasks')
  {
    forall t | t in tasks' && tasks'[t].Built? ensures tasks'[t].claim == PrintInt(s'.rows[tasks'[t].sid].index) {
      assert Later(s.rows[tasks[t].sid], s'.rows[tasks[t].sid]);
    }
  }

  lemma FlightLooked(s: S.Store, tasks: map<nat, Task>, task: nat, token: string)
    requires FlightsOk(s, tasks) && token in s.tokens && s.tokens[token] in s.rows
    ensures FlightsOk(s, tasks[task := Looked(token, s.tokens[token])])
  {
  }

  lemma FlightBuilt(s: S.Store, tasks: map<nat, Task>, task: nat, cred: string)
    requires FlightsOk(s, tasks) && task in tasks && tasks[task].Looked? && cred !in s.creds
    requires forall t :: t in tasks && tasks[t].Built? ==> tasks[t].cred != cred
    ensures tasks[task].sid in s.rows
    ensures FlightsOk(s, tasks[task := Built(tasks[task].token, tasks[task].sid, cred,
                                             PrintInt(s.rows[tasks[task].sid].index))])
  {
  }

  // ---------------------------------------------------------------- credentials handed out

  ghost predicate LedgerOk(rows: S.Table, issued: seq<Issued>, clock: int)
  {
    && (forall i :: 0 <= i < |issued| ==>
          && issued[i].sid in rows
          && rows[issued[i].sid].cred == Some(issued[i].cred)
          && issued[i].claim == PrintInt(rows[issued[i].sid].index)
          && issued[i].dep == rows[issued[i].sid].depositId
          && issued[i].at <= rows[issued[i].sid].expiresAt && issued[i].at <= clock)
    && (forall i, j :: 0 <= i < j < |issued| ==> issued[i].sid != issued[j].sid)
    && (forall id :: id in rows && rows[id].cred.Some? ==> exists i :: 0 <= i < |issued| && issued[i].sid == id)
  }

  lemma LedgerKept(s: S.Store, s': S.Store, issued: seq<Issued>, clock: int, clock': int)
    requires LedgerOk(s.rows, issued, clock) && clock <= clock'
    requires forall id :: id in s.rows ==> id in s'.rows && Later(s.rows[id], s'.rows[id])
    requires forall id :: id in s'.rows && s'.rows[id].cred.Some? ==> id in s.rows && s.rows[id].cred.Some?
    ensures LedgerOk(s'.rows, issued, clock')
  {
    forall i | 0 <= i < |issued| ensures Later(s.rows[issued[i].sid], s'.rows[issued[i].sid]) {
    }
  }

  lemma LedgerEntered(rows: S.Table, issued: seq<Issued>, clock: int, row: S.Row, e: Issued)
    requires LedgerOk(rows, issued, clock)
    requires row.id in rows && rows[row.id].cred.None? && Later(rows[row.id], row)
    requires e.sid == row.id && e.dep == row.depositId && e.claim == PrintInt(row.index) && row.cred == Some(e.cred)
    requires e.at <= row.expiresAt && e.at <= clock
    ensures LedgerOk(rows[row.id := row], issued + [e], clock)
  {
    var rows', issued' := rows[row.id := row], issued + [e];
    forall i | 0 <= i < |issued| ensures issued[i].sid != row.id {
      assert rows[issued[i].sid].cred.Some?;
    }
    forall id | id in rows' && rows'[id].cred.Some? ensures exists i :: 0 <= i < |issued'| && issued'[i].sid == id {
      if id == row.id {
        assert issued'[|issued|].sid == id;
      } else {
        var i :| 0 <= i < |issued| && issued[i].sid == id;
        assert issued'[i].sid == id;
      }
    }
  }

  // ---------------------------------------------------------------- the invariant

  /** Indices, requests in flight and the ledger of issued credentials fit the store. */
  ghost predicate FlowOk(s: S.Store, next: nat, tasks: map<nat, Task>, issued: seq<Issued>, clock: int)
  {
    IndicesOk(s.rows, next, tasks) && FlightsOk(s, tasks) && LedgerOk(s.rows, issued, clock)
  }

  ghost predicate SessionsOk(w: World)
  {
    S.Consistent(w.store) && FlowOk(w.store, w.nextIndex, w.tasks, w.issued, w.clock)
  }

  /** No request that matters here is new or changed. */
  ghost predicate Calm(tasks: map<nat, Task>, tasks': map<nat, Task>)
  {
    forall t :: t in tasks' && !Passive(tasks'[t]) ==> t in tasks && tasks[t] == tasks'[t]
  }

  /** The rows are later versions of the same rows, with the same credentials. */
  ghost predicate Quiet(s: S.Store, s': S.Store)
  {
    && s'.rows.Keys == s.rows.Keys && s'.creds == s.creds
    && forall id :: id in s.rows ==> Later(s.rows[id], s'.rows[id]) && s'.rows[id].cred == s.rows[id].cred
  }

  lemma QuietIndices(s: S.Store, s': S.Store, next: nat, tasks: map<nat, Task>, tasks': map<nat, Task>)
    requires IndicesOk(s.rows, next, tasks) && Quiet(s, s') && Calm(tasks, tasks')
    ensures IndicesOk(s'.rows, next, tasks')
  {
    IndicesKept(s.rows, s'.rows, next, tasks, tasks');
  }

  lemma QuietFlights(s: S.Store, s': S.Store, tasks: map<nat, Task>, tasks': map<nat, Task>)
    requires FlightsOk(s, tasks) && Quiet(s, s') && Evolves(s, s') && Calm(tasks, tasks')
    ensures FlightsOk(s', tasks')
  {
    FlightsKept(s, s', tasks, tasks');
  }

  lemma QuietLedger(s: S.Store, s': S.Store, issued: seq<Issued>, clock: int, clock': int)
    requires LedgerOk(s.rows, issued, clock) && Quiet(s, s') && clock <= clock'
    ensures LedgerOk(s'.rows, issued, clock')
  {
    LedgerKept(s, s', issued, clock, clock');
  }

  /** Steps that enter no session, register no credential and touch no index and no wallet request. */
  lemma QuietFlow(s: S.Store, s': S.Store, next: nat, tasks: map<nat, Task>, tasks': map<nat, Task>,
                  issued: seq<Issued>, clock: int, clock': int)
    requires FlowOk(s, next, tasks, issued, clock) && clock <= clock'
    requires Quiet(s, s') && Evolves(s, s') && Calm(tasks, tasks')
    ensures FlowOk(s', next, tasks', issued, clock')
  {
    QuietIndices(s, s', next, tasks, tasks');
    QuietFlights(s, s', tasks, tasks');
    QuietLedger(s, s', issued, clock, clock');
  }

  lemma SelfQuiet(s: S.Store)
    ensures Quiet(s, s) && Evolves(s, s)
  {
  }

  lemma IdleOk(w: World, w': World)
    requires SessionsOk(w) && w.clock <= w'.clock
    requires w'.store == w.store && w'.nextIndex == w.nextIndex && w'.issued == w.issued && Calm(w.tasks, w'.tasks)
    ensures SessionsOk(w') && Evolves(w.store, w'.store)
  {
    SelfQuiet(w.store);
    QuietFlow(w.store, w.store, w.nextIndex, w.tasks, w'.tasks, w.issued, w.clock, w'.clock);
  }

  lemma RevokeQuiet(s: S.Store, dep: string)
    requires S.CredsExact(s)
    ensures Quiet(s, S.MemRevoke(s, dep))
  {
  }

  lemma RevokeOk(w: World, w': World, dep: string)
    requires SessionsOk(w) && w.clock <= w'.clock
    requires w'.store == S.MemRevoke(w.store, dep) && w'.nextIndex == w.nextIndex && w'.issued == w.issued
    requires Calm(w.tasks, w'.tasks)
    ensures SessionsOk(w') && Evolves(w.store, w'.store)
  {
    S.RevokeConsistent(w.store, dep);
    RevokeEvolves(w.store, dep);
    RevokeQuiet(w.store, dep);
    QuietFlow(w.store, w'.store, w.nextIndex, w.tasks, w'.tasks, w.issued, w.clock, w'.clock);
  }

  /** A new session under an index that nobody else has. */
  ghost predicate Unused(rows: S.Table, tasks: map<nat, Task>, index: int)
  {
    && (forall id :: id in rows ==> rows[id].index != index)
    && (forall t :: t in tasks && tasks[t].Allocated? ==> tasks[t].index != index)
  }

  lemma OpenFlow(s: S.Store, row: S.Row, next: nat, tasks: map<nat, Task>, issued: seq<Issued>, clock: int)
    requires FlowOk(s, next, tasks, issued, clock) && row.id !in s.rows && row.cred.None?
    requires 0 <= row.index < next && Unused(s.rows, tasks, row.index)
    ensures FlowOk(S.MemCreate(s, row), next, tasks, issued, clock)
    ensures Evolves(s, S.MemCreate(s, row))
  {
    CreateEvolves(s, row);
    IndexSettled(s.rows, next, tasks, row);
    FlightsKept(s, S.MemCreate(s, row), tasks, tasks);
    LedgerKept(s, S.MemCreate(s, row), issued, clock, clock);
  }

  lemma OpenOk(w: World, dep: string, validUntil: string, index: int, sid: string, code: string, nonce: string)
    requires SessionsOk(w) && sid !in w.store.rows && code !in w.store.codes
    requires 0 <= index < w.nextIndex && Unused(w.store.rows, w.tasks, index)
    ensures SessionsOk(Open(w, dep, validUntil, index, sid, code, nonce))
    ensures Evolves(w.store, Open(w, dep, validUntil, index, sid, code, nonce).store)
  {
    var row := S.NewRow(sid, code, nonce, dep, validUntil, index, w.clock);
    S.CreateConsistent(w.store, row);
    OpenFlow(w.store, row, w.nextIndex, w.tasks, w.issued, w.clock);
  }

  lemma NextIndexUnused(rows: S.Table, next: nat, tasks: map<nat, Task>)
    requires IndicesOk(rows, next, tasks)
    ensures IndicesOk(rows, next + 1, tasks) && Unused(rows, tasks, next)
  {
  }

  lemma IssueOk(w: World, dep: string, validUntil: string, sid: string, code: string, nonce: string)
    requires SessionsOk(w) && sid !in w.store.rows && code !in w.store.codes
    ensures SessionsOk(ApplyIssue(w, dep, validUntil, sid, code, nonce))
    ensures Evolves(w.store, ApplyIssue(w, dep, validUntil, sid, code, nonce).store)
  {
    if Issuable(w, dep) {
      NextIndexUnused(w.store.rows, w.nextIndex, w.tasks);
      OpenOk(w.(nextIndex := w.nextIndex + 1), dep, validUntil, w.nextIndex, sid, code, nonce);
    } else {
      SelfQuiet(w.store);
    }
  }

  lemma AllocateOk(w: World, task: nat)
    requires SessionsOk(w)
    ensures SessionsOk(ApplyAllocate(w, task))
    ensures Evolves(w.store, ApplyAllocate(w, task).store)
  {
    IdleOk(w, w);
    if task in w.tasks && w.tasks[task].Checked? {
      var a := Allocated(w.tasks[task].dep, w.tasks[task].validUntil, w.nextIndex);
      IndexAllocated(w.store.rows, w.nextIndex, w.tasks, task, a);
      FlightsKept(w.store, w.store, w.tasks, w.tasks[task := a]);
    }
  }

  lemma OpenTaskOk(w: World, task: nat, sid: string, code: string, nonce: string)
    requires SessionsOk(w) && sid !in w.store.rows && code !in w.store.codes
    ensures SessionsOk(ApplyOpen(w, task, sid, code, nonce))
    ensures Evolves(w.store, ApplyOpen(w, task, sid, code, nonce).store)
  {
    IdleOk(w, w);
    if task in w.tasks && w.tasks[task].Allocated? {
      var t := w.tasks[task];
      var w1 := w.(tasks := w.tasks - {task});
      IdleOk(w, w1);
      OpenOk(w1, t.dep, t.validUntil, t.index, sid, code, nonce);
    }
  }

  lemma TokenOk(w: World, code: string, token: string, nonce: string)
    requires SessionsOk(w) && token !in w.store.tokens
    ensures SessionsOk(ApplyToken(w, code, token, nonce))
    ensures Evolves(w.store, ApplyToken(w, code, token, nonce).store)
  {
    S.ExchangeConsistent(w.store, code, token, nonce, w.clock);
    ExchangeEvolves(w.store, code, token, nonce, w.clock);
    ExchangeQuiet(w.store, code, token, nonce, w.clock);
    QuietFlow(w.store, ApplyToken(w, code, token, nonce).store, w.nextIndex, w.tasks, w.tasks, w.issued, w.clock, w.clock);
  }

  lemma ExchangeQuiet(s: S.Store, code: string, token: string, nonce: string, now: int)
    ensures Quiet(s, S.MemExchange(s, code, token, nonce, now).0)
  {
  }

  lemma LookupOk(w: World, task: nat, token: string)
    requires SessionsOk(w)
    ensures SessionsOk(ApplyLookup(w, task, token))
    ensures ApplyLookup(w, task, token).store == w.store
  {
    var w' := ApplyLookup(w, task, token);
    if w' != w {
      FlightLooked(w.store, w.tasks, task, token);
      IndicesKept(w.store.rows, w.store.rows, w.nextIndex, w.tasks, w'.tasks);
    }
  }

  lemma BuildOk(w: World, task: nat, cred: string)
    requires SessionsOk(w) && cred !in w.store.creds
    requires forall t :: t in w.tasks && w.tasks[t].Built? ==> w.tasks[t].cred != cred
    ensures SessionsOk(ApplyBuild(w, task, cred))
    ensures ApplyBuild(w, task, cred).store == w.store
  {
    var w' := ApplyBuild(w, task, cred);
    if w' != w {
      FlightBuilt(w.store, w.tasks, task, cred);
      IndicesKept(w.store.rows, w.store.rows, w.nextIndex, w.tasks, w'.tasks);
    }
  }

  /** What a successful consumption writes. */
  lemma ConsumeShape(s: S.Store, token: string, cred: string, now: int)
    requires S.RowsKeyed(s) && S.CredsExact(s)
    ensures var (s', row) := S.MemConsume(s, token, cred, now);
            if row.None? then s' == s
            else
              && token in s.tokens && s.tokens[token] in s.rows
              && row.value.id == s.tokens[token] && s.rows[row.value.id].cred.None?
              && row.value == s.rows[row.value.id].(state := S.Consumed, cred := Some(cred))
              && now <= row.value.expiresAt
              && s' == s.(rows := s.rows[row.value.id := row.value], creds := s.creds[cred := row.value.id])
  {
  }

  lemma RedeemFlow(s: S.Store, s': S.Store, next: nat, tasks: map<nat, Task>, issued: seq<Issued>, clock: int,
                   task: nat, row: S.Row)
    requires FlowOk(s, next, tasks, issued, clock) && task in tasks && tasks[task].Built?
    requires row.id == tasks[task].sid && row.id in s.rows && s.rows[row.id].cred.None?
    requires row == s.rows[row.id].(state := S.Consumed, cred := Some(tasks[task].cred))
    requires clock <= row.expiresAt
    requires s' == s.(rows := s.rows[row.id := row], creds := s.creds[tasks[task].cred := row.id]) && Evolves(s, s')
    ensures FlowOk(s', next, tasks - {task},
                   issued + [Issued(tasks[task].cred, row.id, row.depositId, tasks[task].claim, clock)], clock)
  {
    IndicesLanded(s.rows, next, tasks, task, row);
    FlightLanded(s, s', tasks, task);
    LedgerEntered(s.rows, issued, clock, row, Issued(tasks[task].cred, row.id, row.depositId, tasks[task].claim, clock));
  }

  lemma IndicesLanded(rows: S.Table, next: nat, tasks: map<nat, Task>, task: nat, row: S.Row)
    requires IndicesOk(rows, next, tasks) && row.id in rows && row.index == rows[row.id].index
    ensures IndicesOk(rows[row.id := row], next, tasks - {task})
  {
    IndicesKept(rows, rows[row.id := row], next, tasks, tasks - {task});
  }

  lemma FlightLanded(s: S.Store, s': S.Store, tasks: map<nat, Task>, task: nat)
    requires FlightsOk(s, tasks) && Evolves(s, s') && task in tasks && tasks[task].Built?
    requires s'.creds.Keys == s.creds.Keys + {tasks[task].cred}
    ensures FlightsOk(s', tasks - {task})
  {
    FlightsKept(s, s', tasks, tasks - {task});
  }

  lemma RedeemOk(w: World, task: nat)
    requires SessionsOk(w)
    ensures SessionsOk(ApplyRedeem(w, task))
    ensures Evolves(w.store, ApplyRedeem(w, task).store)
  {
    if task in w.tasks && w.tasks[task].Built? {
      RedeemBuilt(w, task);
    } else {
      SelfQuiet(w.store);
    }
  }

  lemma RedeemBuilt(w: World, task: nat)
    requires SessionsOk(w) && task in w.tasks && w.tasks[task].Built?
    ensures SessionsOk(ApplyRedeem(w, task))
    ensures Evolves(w.store, ApplyRedeem(w, task).store)
  {
    var t := w.tasks[task];
    S.ConsumeConsistent(w.store, t.token, t.cred, w.clock);
    ConsumeEvolves(w.store, t.token, t.cred, w.clock);
    ConsumeShape(w.store, t.token, t.cred, w.clock);
    var (store, row) := S.MemConsume(w.store, t.token, t.cred, w.clock);
    if row.Some? {
      RedeemFlow(w.store, store, w.nextIndex, w.tasks, w.issued, w.clock, task, row.value);
    } else {
      IdleOk(w, ApplyRedeem(w, task));
    }
  }

  /** Every event keeps the invariant and lets the store only evolve. */
  lemma SessionsStep(w0: World, e: Event, now: int)
    requires SessionsOk(w0) && Enabled(w0, e, now)
    ensures SessionsOk(Apply(w0, e, now))
    ensures Evolves(w0.store, Apply(w0, e, now).store)
  {
    IdleOk(w0, w0.(clock := now));
    if e.Lookup? || e.Build? || e.Redeem? || e.Token? {
      WalletOk(w0.(clock := now), e, now);
    } else if e.Issue? || e.Allocate? || e.OpenSession? {
      BankOk(w0.(clock := now), e, now);
    } else {
      DepositSideOk(w0.(clock := now), e, now);
    }
  }

  lemma WalletOk(w: World, e: Event, now: int)
    requires SessionsOk(w) && w.clock == now && Enabled(w, e, now) && (e.Lookup? || e.Build? || e.Redeem? || e.Token?)
    ensures SessionsOk(Apply(w, e, now)) && Evolves(w.store, Apply(w, e, now).store)
  {
    assert w.(clock := now) == w;
    match e {
      case Token(code, token, nonce) => TokenOk(w, code, token, nonce);
      case Lookup(task, token) => LookupOk(w, task, token); SelfQuiet(w.store);
      case Build(task, cred) => BuildOk(w, task, cred); SelfQuiet(w.store);
      case Redeem(task) => RedeemOk(w, task);
    }
  }

  lemma BankOk(w: World, e: Event, now: int)
    requires SessionsOk(w) && w.clock == now && Enabled(w, e, now) && (e.Issue? || e.Allocate? || e.OpenSession?)
    ensures SessionsOk(Apply(w, e, now)) && Evolves(w.store, Apply(w, e, now).store)
  {
    assert w.(clock := now) == w;
    match e {
      case Issue(dep, validUntil, sid, code, nonce) => IssueOk(w, dep, validUntil, sid, code, nonce);
      case Allocate(task) => AllocateOk(w, task);
      case OpenSession(task, sid, code, nonce) => OpenTaskOk(w, task, sid, code, nonce);
    }
  }

  lemma DepositSideOk(w: World, e: Event, now: int)
    requires SessionsOk(w) && w.clock == now
    requires e.Handle? || e.Write? || e.Revoke? || e.CreateDeposit? || e.Read? || e.CheckIssue?
    ensures SessionsOk(Apply(w, e, now)) && Evolves(w.store, Apply(w, e, now).store)
  {
    assert w.(clock := now) == w;
    if e.Handle? {
      HandleOk(w, e.dep, e.req);
    } else if e.Write? {
      WriteOk(w, e.task, e.committed);
    } else {
      OtherSideOk(w, e, now);
    }
  }

  lemma OtherSideOk(w: World, e: Event, now: int)
    requires SessionsOk(w) && w.clock == now && (e.Revoke? || e.CreateDeposit? || e.Read? || e.CheckIssue?)
    ensures SessionsOk(Apply(w, e, now)) && Evolves(w.store, Apply(w, e, now).store)
  {
    assert w.(clock := now) == w;
    match e {
      case Revoke(task) => RevokeTaskOk(w, task);
      case CreateDeposit(id, info, x, auditOk) => CreateIdle(w, id, info, x, auditOk);
      case Read(task, dep, req) => ReadIdle(w, task, dep, req);
      case CheckIssue(task, dep, validUntil) => CheckIdle(w, task, dep, validUntil);
    }
  }

  lemma CreateIdle(w: World, id: string, info: Info, x: Extras, auditOk: bool)
    requires SessionsOk(w)
    ensures var w' := ApplyCreate(w, id, info, x, auditOk); SessionsOk(w') && Evolves(w.store, w'.store)
  {
    IdleOk(w, ApplyCreate(w, id, info, x, auditOk));
  }

  lemma CheckIdle(w: World, task: nat, dep: string, validUntil: string)
    requires SessionsOk(w)
    ensures var w' := ApplyCheckIssue(w, task, dep, validUntil); SessionsOk(w') && Evolves(w.store, w'.store)
  {
    IdleOk(w, ApplyCheckIssue(w, task, dep, validUntil));
  }

  lemma RevokeTaskOk(w: World, task: nat)
    requires SessionsOk(w)
    ensures SessionsOk(ApplyRevokeTask(w, task)) && Evolves(w.store, ApplyRevokeTask(w, task).store)
  {
    if task in w.tasks && w.tasks[task].ToRevoke? {
      RevokeOk(w, ApplyRevokeTask(w, task), w.tasks[task].dep);
    } else {
      SelfQuiet(w.store);
    }
  }

  lemma ReadIdle(w: World, task: nat, dep: string, req: Request)
    requires SessionsOk(w)
    ensures SessionsOk(ApplyRead(w, task, dep, req)) && Evolves(w.store, ApplyRead(w, task, dep, req).store)
  {
    IdleOk(w, ApplyRead(w, task, dep, req));
  }

  lemma UpdateIdle(w: World, dep: string, u: Plan)
    requires u.Update?
    ensures var w' := ApplyUpdate(w, dep, u);
            w'.store == w.store && w'.nextIndex == w.nextIndex && w'.issued == w.issued && w'.tasks == w.tasks
            && w'.clock == w.clock
  {
  }

  lemma HandleOk(w: World, dep: string, req: Request)
    requires SessionsOk(w)
    ensures SessionsOk(ApplyHandle(w, dep, req))
    ensures Evolves(w.store, ApplyHandle(w, dep, req).store)
  {
    var plan := Decide(Find(w, dep), req, w.clock);
    if plan.Update? {
      UpdateIdle(w, dep, plan);
      if plan.revokes && !ApplyUpdate(w, dep, plan).panicked {
        RevokeOk(w, ApplyHandle(w, dep, req), dep);
      } else {
        IdleOk(w, ApplyHandle(w, dep, req));
      }
    } else {
      IdleOk(w, ApplyHandle(w, dep, req));
    }
  }

  lemma WriteOk(w: World, task: nat, committed: bool)
    requires SessionsOk(w)
    ensures SessionsOk(ApplyWrite(w, task, committed))
    ensures Evolves(w.store, ApplyWrite(w, task, committed).store)
  {
    if task in w.tasks && w.tasks[task].Planned? && w.tasks[task].plan.Update? {
      UpdateIdle(w, w.tasks[task].dep, w.tasks[task].plan);
    }
    IdleOk(w, ApplyWrite(w, task, committed));
  }
}

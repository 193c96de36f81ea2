/** Invariants of the deposit side: the ones that survive every interleaving of read and write
    phases, and the ones that need uninterrupted handlers. */
module WorldDeposits {
  import opened Basics
  import opened Lifecycle
  import opened Deposits
  import opened DepositSafety
  import Runs = DepositRuns
  import opened World
  import S = Sessions

  // ---------------------------------------------------------------- any interleaving

  /** The audit rows of one deposit, oldest first. */
  function RowsFor(audit: seq<AuditRow>, id: string): seq<HistoryEntry>
  {
    if audit == [] then []
    else
      var last := audit[|audit| - 1];
      RowsFor(audit[..|audit| - 1], id) + if last.depositId == id then [last.entry] else []
  }

  lemma RowsForAppend(audit: seq<AuditRow>, r: AuditRow, id: string)
    ensures RowsFor(audit + [r], id) == RowsFor(audit, id) + if r.depositId == id then [r.entry] else []
  {
    assert (audit + [r])[..|audit|] == audit;
  }

  ghost predicate SoundDeposit(d: Deposit, id: string, clock: int)
  {
    d.id == id && WellFormed(d) && d.history[|d.history| - 1].timestamp <= clock
  }

  ghost predicate AllSound(deposits: map<string, Deposit>, clock: int)
  {
    forall id :: id in deposits ==> SoundDeposit(deposits[id], id, clock)
  }

  /** Every plan in flight still fits its deposit. */
  ghost predicate PlansOk(deposits: map<string, Deposit>, tasks: map<nat, Task>)
  {
    forall t :: t in tasks && tasks[t].Planned? ==>
      tasks[t].plan.Update? && tasks[t].dep in deposits && Fits(deposits[tasks[t].dep], tasks[t].plan)
  }

  /** The audit rows are the JSON history; a creation whose audit insert failed lacks the first row
      and nothing else. */
  ghost predicate AuditOk(deposits: map<string, Deposit>, audit: seq<AuditRow>, created: set<string>)
  {
    && created <= deposits.Keys
    && (forall id :: id in deposits ==> Audited(deposits[id].history, RowsFor(audit, id), id in created))
    && (forall id :: id !in deposits ==> RowsFor(audit, id) == [])
  }

  ghost predicate Audited(h: seq<HistoryEntry>, rows: seq<HistoryEntry>, created: bool)
  {
    h != [] && rows == if created then h else h[1..]
  }

  ghost predicate DepositsOk(w: World)
  {
    && !w.panicked
    && AllSound(w.deposits, w.clock)
    && PlansOk(w.deposits, w.tasks)
    && AuditOk(w.deposits, w.audit, w.created)
  }

  ghost predicate Grows(m: map<string, Deposit>, n: map<string, Deposit>)
  {
    forall id :: id in m ==> id in n && Extends(m[id], n[id])
  }

  lemma GrowsTransitive(a: map<string, Deposit>, b: map<string, Deposit>, c: map<string, Deposit>)
    requires Grows(a, b) && Grows(b, c)
    ensures Grows(a, c)
  {
    forall id | id in a ensures id in c && Extends(a[id], c[id]) {
      ExtendsTransitive(a[id], b[id], c[id]);
    }
  }

  lemma GrowsReplaced(m: map<string, Deposit>, id: string, d: Deposit)
    requires id in m ==> Extends(m[id], d)
    ensures Grows(m, m[id := d])
  {
  }

  lemma SoundReplaced(m: map<string, Deposit>, clock: int, id: string, d: Deposit)
    requires AllSound(m, clock) && SoundDeposit(d, id, clock)
    ensures AllSound(m[id := d], clock)
  {
  }

  lemma PlansReplaced(m: map<string, Deposit>, tasks: map<nat, Task>, id: string, d: Deposit)
    requires PlansOk(m, tasks) && (id in m ==> Extends(m[id], d))
    ensures PlansOk(m[id := d], tasks)
  {
    forall t | t in tasks && tasks[t].Planned? ensures Fits(m[id := d][tasks[t].dep], tasks[t].plan) {
      if tasks[t].dep == id {
        FitsLater(m[id], d, tasks[t].plan);
      }
    }
  }

  lemma HistoryExtended(h: seq<HistoryEntry>, rows: seq<HistoryEntry>, created: bool, e: HistoryEntry)
    requires Audited(h, rows, created)
    ensures Audited(h + [e], rows + [e], created)
  {
    assert (h + [e])[1..] == h[1..] + [e];
  }

  lemma AuditExtended(m: map<string, Deposit>, audit: seq<AuditRow>, created: set<string>, id: string, d: Deposit, e: HistoryEntry)
    requires AuditOk(m, audit, created) && id in m && d.history == m[id].history + [e]
    ensures AuditOk(m[id := d], audit + [AuditRow(id, e)], created)
  {
    var m', audit' := m[id := d], audit + [AuditRow(id, e)];
    HistoryExtended(m[id].history, RowsFor(audit, id), id in created, e);
    forall k | k in m' ensures Audited(m'[k].history, RowsFor(audit', k), k in created) {
      RowsForAppend(audit, AuditRow(id, e), k);
    }
    forall k | k !in m' ensures RowsFor(audit', k) == [] {
      RowsForAppend(audit, AuditRow(id, e), k);
    }
  }

  lemma AuditCreated(m: map<string, Deposit>, audit: seq<AuditRow>, created: set<string>, id: string, d: Deposit)
    requires AuditOk(m, audit, created) && id !in m && |d.history| == 1
    ensures AuditOk(m[id := d], audit + [AuditRow(id, d.history[0])], created + {id})
  {
    var r := AuditRow(id, d.history[0]);
    var m', audit', created' := m[id := d], audit + [r], created + {id};
    assert [] + [d.history[0]] == d.history;
    forall k | k in m' ensures Audited(m'[k].history, RowsFor(audit', k), k in created') {
      RowsForAppend(audit, r, k);
    }
    forall k | k !in m' ensures RowsFor(audit', k) == [] {
      RowsForAppend(audit, r, k);
    }
  }

  lemma AuditMissed(m: map<string, Deposit>, audit: seq<AuditRow>, created: set<string>, id: string, d: Deposit)
    requires AuditOk(m, audit, created) && id !in m && |d.history| == 1
    ensures AuditOk(m[id := d], audit, created)
  {
    assert d.history[1..] == [];
  }

  lemma CreateOk(w: World, id: string, info: Info, x: Extras, auditOk: bool)
    requires DepositsOk(w) && id !in w.deposits
    ensures DepositsOk(ApplyCreate(w, id, info, x, auditOk))
    ensures Grows(w.deposits, ApplyCreate(w, id, info, x, auditOk).deposits)
  {
    if ValidCreate(info) {
      var d := NewDeposit(id, info, x, w.clock);
      SoundReplaced(w.deposits, w.clock, id, d);
      PlansReplaced(w.deposits, w.tasks, id, d);
      AuditCreated(w.deposits, w.audit, w.created, id, d);
      AuditMissed(w.deposits, w.audit, w.created, id, d);
      GrowsReplaced(w.deposits, id, d);
    }
  }

  lemma UpdateOk(w: World, dep: string, u: Plan)
    requires DepositsOk(w) && u.Update? && dep in w.deposits && Fits(w.deposits[dep], u)
    ensures Commit(w.deposits[dep], u, w.clock).Some?
    ensures var w' := ApplyUpdate(w, dep, u);
            && DepositsOk(w') && Grows(w.deposits, w'.deposits)
            && w'.deposits == w.deposits[dep := Commit(w.deposits[dep], u, w.clock).value]
            && w'.store == w.store && w'.tasks == w.tasks && w'.clock == w.clock
  {
    var d := w.deposits[dep];
    assert SoundDeposit(d, dep, w.clock);
    CommitSafe(d, u, w.clock);
    Replaced(w, ApplyUpdate(w, dep, u), dep, Commit(d, u, w.clock).value, EntryOf(u, w.clock));
  }

  lemma Replaced(w: World, w': World, dep: string, d: Deposit, e: HistoryEntry)
    requires DepositsOk(w) && dep in w.deposits
    requires Extends(w.deposits[dep], d) && WellFormed(d) && d.history == w.deposits[dep].history + [e]
    requires e.timestamp == w.clock
    requires w' == w.(deposits := w.deposits[dep := d], audit := w.audit + [AuditRow(dep, e)])
    ensures DepositsOk(w') && Grows(w.deposits, w'.deposits)
  {
    assert SoundDeposit(w.deposits[dep], dep, w.clock);
    SoundReplaced(w.deposits, w.clock, dep, d);
    PlansReplaced(w.deposits, w.tasks, dep, d);
    AuditExtended(w.deposits, w.audit, w.created, dep, d, e);
    GrowsReplaced(w.deposits, dep, d);
  }

  /** A plan that a handler may make in a well-ordered world. */
  ghost predicate Sensible(w: World, dep: string, plan: Plan)
  {
    !plan.Panic? && (plan.Update? ==> dep in w.deposits && Fits(w.deposits[dep], plan))
  }

  lemma DecideFindsFit(w: World, dep: string, req: Request)
    requires DepositsOk(w)
    ensures Sensible(w, dep, Decide(Find(w, dep), req, w.clock))
  {
    if dep in w.deposits {
      assert SoundDeposit(w.deposits[dep], dep, w.clock);
      DecideFits(w.deposits[dep], req, w.clock);
    }
  }

  lemma HandleKeeps(w: World, dep: string, req: Request)
    requires DepositsOk(w)
    ensures DepositsOk(ApplyHandle(w, dep, req))
    ensures Grows(w.deposits, ApplyHandle(w, dep, req).deposits)
  {
    DecideFindsFit(w, dep, req);
    PlanKeeps(w, dep, Decide(Find(w, dep), req, w.clock));
  }

  lemma PlanKeeps(w: World, dep: string, plan: Plan)
    requires DepositsOk(w) && Sensible(w, dep, plan)
    ensures DepositsOk(ApplyPlan(w, dep, plan)) && Grows(w.deposits, ApplyPlan(w, dep, plan).deposits)
  {
    if plan.Update? {
      UpdateOk(w, dep, plan);
      TasksKeep(ApplyUpdate(w, dep, plan), ApplyPlan(w, dep, plan));
    } else {
      TasksKeep(w, w);
    }
  }

  lemma StepIsCommit(d: Deposit, r: Request, now: int)
    ensures var u := Decide(Some(d), r, now);
            Step(d, r, now) == if u.Update? && Commit(d, u, now).Some? then Commit(d, u, now).value else d
  {
  }

  lemma SameDeposit(m: map<string, Deposit>, id: string)
    requires id in m
    ensures m[id := m[id]] == m
  {
  }

  lemma PlanEffect(w: World, dep: string, plan: Plan)
    requires DepositsOk(w) && Sensible(w, dep, plan)
    ensures ApplyPlan(w, dep, plan).deposits ==
            if plan.Update? && Commit(w.deposits[dep], plan, w.clock).Some?
            then w.deposits[dep := Commit(w.deposits[dep], plan, w.clock).value] else w.deposits
  {
    if plan.Update? {
      UpdateOk(w, dep, plan);
    }
  }

  /** An uninterrupted handler makes one step of its deposit and leaves the others alone. */
  lemma HandleEffect(w: World, dep: string, req: Request)
    requires DepositsOk(w)
    ensures ApplyHandle(w, dep, req).deposits ==
            if dep in w.deposits then w.deposits[dep := Step(w.deposits[dep], req, w.clock)] else w.deposits
  {
    DecideFindsFit(w, dep, req);
    PlanEffect(w, dep, Decide(Find(w, dep), req, w.clock));
    if dep in w.deposits {
      StepIsCommit(w.deposits[dep], req, w.clock);
      SameDeposit(w.deposits, dep);
    }
  }

  lemma PlanAdded(deposits: map<string, Deposit>, tasks: map<nat, Task>, task: nat, dep: string, plan: Plan)
    requires PlansOk(deposits, tasks) && plan.Update? && dep in deposits && Fits(deposits[dep], plan)
    ensures PlansOk(deposits, tasks[task := Planned(dep, plan)])
  {
  }

  lemma ReadKeeps(w: World, task: nat, dep: string, req: Request)
    requires DepositsOk(w)
    ensures DepositsOk(ApplyRead(w, task, dep, req))
    ensures ApplyRead(w, task, dep, req).deposits == w.deposits
  {
    DecideFindsFit(w, dep, req);
    var plan := Decide(Find(w, dep), req, w.clock);
    if plan.Update? {
      PlanAdded(w.deposits, w.tasks, task, dep, plan);
    }
  }

  lemma SoundLater(m: map<string, Deposit>, clock: int, clock': int)
    requires AllSound(m, clock) && clock <= clock'
    ensures AllSound(m, clock')
  {
  }

  lemma PlansKept(m: map<string, Deposit>, tasks: map<nat, Task>, tasks': map<nat, Task>)
    requires PlansOk(m, tasks)
    requires forall t :: t in tasks' && tasks'[t].Planned? ==> t in tasks && tasks[t] == tasks'[t]
    ensures PlansOk(m, tasks')
  {
  }

  lemma TasksKeep(w: World, w': World)
    requires DepositsOk(w)
    requires w'.deposits == w.deposits && w'.audit == w.audit && w'.created == w.created
    requires w'.panicked == w.panicked && w.clock <= w'.clock
    requires forall t :: t in w'.tasks && w'.tasks[t].Planned? ==> t in w.tasks && w.tasks[t] == w'.tasks[t]
    ensures DepositsOk(w') && Grows(w.deposits, w'.deposits)
  {
    SoundLater(w.deposits, w.clock, w'.clock);
    PlansKept(w.deposits, w.tasks, w'.tasks);
  }

  lemma WriteKeeps(w: World, task: nat, committed: bool)
    requires DepositsOk(w)
    ensures DepositsOk(ApplyWrite(w, task, committed))
    ensures Grows(w.deposits, ApplyWrite(w, task, committed).deposits)
  {
    if task in w.tasks && w.tasks[task].Planned? && committed {
      CommittedKeeps(w, task);
    } else {
      TasksKeep(w, ApplyWrite(w, task, committed));
    }
  }

  lemma CommittedKeeps(w: World, task: nat)
    requires DepositsOk(w) && task in w.tasks && w.tasks[task].Planned?
    ensures DepositsOk(ApplyWrite(w, task, true))
    ensures Grows(w.deposits, ApplyWrite(w, task, true).deposits)
  {
    var t := w.tasks[task];
    assert t.plan.Update? && t.dep in w.deposits && Fits(w.deposits[t.dep], t.plan);
    UpdateOk(w, t.dep, t.plan);
    Retired(ApplyUpdate(w, t.dep, t.plan), task, ToRevoke(t.dep));
  }

  /** A finished write phase leaves the request to its revoking phase, or ends it. */
  lemma Retired(w: World, task: nat, next: Task)
    requires DepositsOk(w) && !next.Planned?
    ensures DepositsOk(w.(tasks := w.tasks - {task}))
    ensures DepositsOk(w.(tasks := w.tasks[task := next]))
  {
    TasksKeep(w, w.(tasks := w.tasks - {task}));
    TasksKeep(w, w.(tasks := w.tasks[task := next]));
  }

  /** Deposits, audit log and plans are left alone. */
  ghost predicate LeavesDeposits(w: World, w': World)
  {
    && w'.deposits == w.deposits && w'.audit == w.audit && w'.created == w.created && w'.panicked == w.panicked
    && forall t :: t in w'.tasks && w'.tasks[t].Planned? ==> t in w.tasks && w.tasks[t] == w'.tasks[t]
  }

  lemma WalletLeaves(w: World, e: Event, now: int)
    requires e.Token? || e.Lookup? || e.Build? || e.Redeem?
    ensures LeavesDeposits(w, Apply(w, e, now)) && Apply(w, e, now).clock == now
  {
  }

  lemma BankLeaves(w: World, e: Event, now: int)
    requires e.Revoke? || e.Issue? || e.CheckIssue? || e.Allocate? || e.OpenSession?
    ensures LeavesDeposits(w, Apply(w, e, now)) && Apply(w, e, now).clock == now
  {
  }

  /** The events of the issuing side, and the revoking phase. */
  lemma IssuingLeaves(w: World, e: Event, now: int)
    requires !e.CreateDeposit? && !e.Handle? && !e.Read? && !e.Write?
    ensures LeavesDeposits(w, Apply(w, e, now)) && Apply(w, e, now).clock == now
  {
    if e.Token? || e.Lookup? || e.Build? || e.Redeem? {
      WalletLeaves(w, e, now);
    } else {
      BankLeaves(w, e, now);
    }
  }

  /** Every event keeps deposits and audit log in order and only extends deposits. */
  lemma DepositsStep(w0: World, e: Event, now: int)
    requires DepositsOk(w0) && Enabled(w0, e, now)
    ensures DepositsOk(Apply(w0, e, now)) && Grows(w0.deposits, Apply(w0, e, now).deposits)
  {
    if e.CreateDeposit? || e.Handle? || e.Read? || e.Write? {
      TasksKeep(w0, w0.(clock := now));
      LifecycleStep(w0.(clock := now), e, now);
    } else {
      IssuingLeaves(w0, e, now);
      TasksKeep(w0, Apply(w0, e, now));
    }
  }

  lemma LifecycleStep(w: World, e: Event, now: int)
    requires DepositsOk(w) && w.clock == now && Enabled(w, e, now) && (e.CreateDeposit? || e.Handle? || e.Read? || e.Write?)
    ensures DepositsOk(Apply(w, e, now)) && Grows(w.deposits, Apply(w, e, now).deposits)
  {
    assert w.(clock := now) == w;
    match e {
      case CreateDeposit(id, info, x, auditOk) => CreateOk(w, id, info, x, auditOk);
      case Handle(dep, req) => HandleKeeps(w, dep, req);
      case Read(task, dep, req) => ReadKeeps(w, task, dep, req); TasksKeep(w, w);
      case Write(task, committed) => WriteKeeps(w, task, committed);
    }
  }

  // ---------------------------------------------------------------- uninterrupted handlers

  /** When a deposit first left PLEDGED. */
  function LeftPledged(h: seq<HistoryEntry>): Option<int>
  {
    if |h| < 2 then None
    else
      var earlier := LeftPledged(h[..|h| - 1]);
      if earlier.Some? then earlier
      else if h[|h| - 2].state == Pledged && h[|h| - 1].state != Pledged then Some(h[|h| - 1].timestamp)
      else None
  }

  lemma LeftAppend(h: seq<HistoryEntry>, e: HistoryEntry)
    requires h != []
    ensures LeftPledged(h + [e]) ==
            if LeftPledged(h).Some? then LeftPledged(h)
            else if h[|h| - 1].state == Pledged && e.state != Pledged then Some(e.timestamp) else None
  {
    assert (h + [e])[..|h|] == h;
  }

  /** A walk that left PLEDGED is below it for good. */
  lemma {:induction false} NeverBack(h: seq<HistoryEntry>)
    requires Runs.LegalHistory(h) && (forall i :: 0 <= i < |h| ==> h[i].state != Funded)
    requires LeftPledged(h).Some?
    ensures Rank(h[|h| - 1].state) < Rank(Pledged)
  {
    var g := h[..|h| - 1];
    assert LegalStep(h[|h| - 2].state, h[|h| - 1].state);
    if LeftPledged(g).Some? {
      forall i | 0 < i < |g| ensures LegalStep(g[i - 1].state, g[i].state) {
        assert LegalStep(h[i - 1].state, h[i].state);
      }
      NeverBack(g);
    }
  }

  /** A session opened at `at` while the deposit was PLEDGED. */
  ghost predicate OpenedWhilePledged(d: Deposit, at: int)
  {
    d.state == Pledged || (LeftPledged(d.history).Some? && at <= LeftPledged(d.history).value)
  }

  ghost predicate Walks(deposits: map<string, Deposit>)
  {
    forall id :: id in deposits ==> Runs.Walk(deposits[id])
  }

  ghost predicate OpenedRight(rows: S.Table, deposits: map<string, Deposit>, clock: int)
  {
    forall sid :: sid in rows ==>
      && rows[sid].createdAt <= clock
      && rows[sid].depositId in deposits
      && OpenedWhilePledged(deposits[rows[sid].depositId], rows[sid].createdAt)
  }

  ghost predicate AtomicOk(w: World)
  {
    Walks(w.deposits) && OpenedRight(w.store.rows, w.deposits, w.clock)
  }

  lemma OpenedKept(d: Deposit, r: Request, now: int, at: int)
    requires Runs.Walk(d) && d.history[|d.history| - 1].timestamp <= now && at <= now
    requires OpenedWhilePledged(d, at)
    ensures OpenedWhilePledged(Step(d, r, now), at)
  {
    Runs.StepTimestamps(d, r, now);
    if Step(d, r, now) != d {
      LeftAppend(d.history, EntryOf(Decide(Some(d), r, now), now));
      if d.state == Pledged && LeftPledged(d.history).Some? {
        forall i | 0 <= i < |d.history| ensures d.history[i].state != Funded {
          assert d.history[i].state in Runs.States(d.history);
        }
        NeverBack(d.history);
        assert false;
      }
    }
  }

  /** The rows that matter here: none is new, and deposit and opening time stay put. */
  ghost predicate SameOpenings(s: S.Store, s': S.Store)
  {
    && s'.rows.Keys == s.rows.Keys
    && forall sid :: sid in s.rows ==>
         s'.rows[sid].depositId == s.rows[sid].depositId && s'.rows[sid].createdAt == s.rows[sid].createdAt
  }

  lemma WalksReplaced(m: map<string, Deposit>, id: string, d: Deposit)
    requires Walks(m) && Runs.Walk(d)
    ensures Walks(m[id := d])
  {
  }

  lemma OpenedReplaced(rows: S.Table, m: map<string, Deposit>, clock: int, id: string, req: Request)
    requires OpenedRight(rows, m, clock) && id in m && Runs.Walk(m[id])
    requires m[id].history[|m[id].history| - 1].timestamp <= clock
    ensures OpenedRight(rows, m[id := Step(m[id], req, clock)], clock)
  {
    forall sid | sid in rows && rows[sid].depositId == id
      ensures OpenedWhilePledged(Step(m[id], req, clock), rows[sid].createdAt)
    {
      OpenedKept(m[id], req, clock, rows[sid].createdAt);
    }
  }

  lemma SelfOpenings(s: S.Store)
    ensures SameOpenings(s, s)
  {
  }

  lemma RevokeOpenings(s: S.Store, dep: string)
    ensures SameOpenings(s, S.MemRevoke(s, dep))
  {
  }

  /** The part of a handler that a walk and the openings depend on. */
  lemma StepStays(w: World, w': World, dep: string, req: Request)
    requires AtomicOk(w) && dep in w.deposits && SoundDeposit(w.deposits[dep], dep, w.clock) && w'.clock == w.clock
    requires w'.deposits == w.deposits[dep := Step(w.deposits[dep], req, w.clock)] && SameOpenings(w.store, w'.store)
    ensures AtomicOk(w')
  {
    var d := w.deposits[dep];
    Runs.WalkStep(d, req, w.clock);
    WalksReplaced(w.deposits, dep, Step(d, req, w.clock));
    OpenedReplaced(w.store.rows, w.deposits, w.clock, dep, req);
    AtomicQuiet(w.(deposits := w'.deposits), w');
  }

  lemma PlanStore(w: World, dep: string, plan: Plan)
    ensures var w' := ApplyPlan(w, dep, plan);
            w'.clock == w.clock && (w'.store == w.store || w'.store == S.MemRevoke(w.store, dep))
  {
  }

  lemma HandleStays(w: World, dep: string, req: Request)
    requires DepositsOk(w) && AtomicOk(w)
    ensures AtomicOk(ApplyHandle(w, dep, req))
  {
    HandleEffect(w, dep, req);
    PlanStore(w, dep, Decide(Find(w, dep), req, w.clock));
    RevokeOpenings(w.store, dep);
    SelfOpenings(w.store);
    if dep in w.deposits {
      assert SoundDeposit(w.deposits[dep], dep, w.clock);
      StepStays(w, ApplyHandle(w, dep, req), dep, req);
    } else {
      AtomicQuiet(w, ApplyHandle(w, dep, req));
    }
  }

  lemma AtomicQuiet(w: World, w': World)
    requires AtomicOk(w) && w'.deposits == w.deposits && w.clock <= w'.clock
    requires SameOpenings(w.store, w'.store)
    ensures AtomicOk(w')
  {
  }

  lemma CreateStays(w: World, id: string, info: Info, x: Extras, auditOk: bool)
    requires AtomicOk(w) && id !in w.deposits
    ensures AtomicOk(ApplyCreate(w, id, info, x, auditOk))
  {
    if ValidCreate(info) {
      Runs.EveryRunWalks(id, info, x, w.clock, []);
      WalksReplaced(w.deposits, id, NewDeposit(id, info, x, w.clock));
    }
  }

  lemma IssueStays(w: World, dep: string, validUntil: string, sid: string, code: string, nonce: string)
    requires AtomicOk(w) && sid !in w.store.rows
    ensures AtomicOk(ApplyIssue(w, dep, validUntil, sid, code, nonce))
  {
  }

  lemma ConsumeOpenings(s: S.Store, token: string, cred: string, now: int)
    ensures SameOpenings(s, S.MemConsume(s, token, cred, now).0)
  {
  }

  lemma ExchangeOpenings(s: S.Store, code: string, token: string, nonce: string, now: int)
    ensures SameOpenings(s, S.MemExchange(s, code, token, nonce, now).0)
  {
  }

  lemma StoreStays(w: World, w': World)
    requires AtomicOk(w) && w'.deposits == w.deposits && w'.store == w.store && w'.clock == w.clock
    ensures AtomicOk(w')
  {
  }

  lemma LookupStays(w: World, task: nat, token: string)
    requires AtomicOk(w)
    ensures AtomicOk(ApplyLookup(w, task, token))
  {
    StoreStays(w, ApplyLookup(w, task, token));
  }

  lemma BuildStays(w: World, task: nat, cred: string)
    requires AtomicOk(w)
    ensures AtomicOk(ApplyBuild(w, task, cred))
  {
    StoreStays(w, ApplyBuild(w, task, cred));
  }

  lemma TokenStays(w: World, code: string, token: string, nonce: string)
    requires AtomicOk(w)
    ensures AtomicOk(ApplyToken(w, code, token, nonce))
  {
    ExchangeOpenings(w.store, code, token, nonce, w.clock);
    AtomicQuiet(w, ApplyToken(w, code, token, nonce));
  }

  lemma RedeemStays(w: World, task: nat)
    requires AtomicOk(w)
    ensures AtomicOk(ApplyRedeem(w, task))
  {
    var w' := ApplyRedeem(w, task);
    if task in w.tasks && w.tasks[task].Built? {
      var t := w.tasks[task];
      ConsumeOpenings(w.store, t.token, t.cred, w.clock);
      assert w'.store == S.MemConsume(w.store, t.token, t.cred, w.clock).0;
      AtomicQuiet(w, w');
    }
  }

  /** A wallet's request keeps walks and openings. */
  lemma WalletStays(w: World, e: Event, now: int)
    requires AtomicOk(w) && w.clock == now && (e.Token? || e.Redeem? || e.Lookup? || e.Build?)
    ensures AtomicOk(Apply(w, e, now))
  {
    assert w.(clock := now) == w;
    match e {
      case Token(code, token, nonce) => TokenStays(w, code, token, nonce);
      case Redeem(task) => RedeemStays(w, task);
      case Lookup(task, token) => LookupStays(w, task, token);
      case Build(task, cred) => BuildStays(w, task, cred);
    }
  }

  /** Every uninterrupted event keeps the walk of each deposit and the openings in PLEDGED. */
  lemma AtomicStep(w0: World, e: Event, now: int)
    requires DepositsOk(w0) && AtomicOk(w0) && Enabled(w0, e, now) && Atomic(e)
    ensures AtomicOk(Apply(w0, e, now))
  {
    var w := w0.(clock := now);
    TasksKeep(w0, w);
    AtomicQuiet(w0, w);
    if e.CreateDeposit? {
      CreateStays(w, e.id, e.info, e.extras, e.auditOk);
    } else if e.Handle? {
      HandleStays(w, e.dep, e.req);
    } else if e.Issue? {
      IssueStays(w, e.dep, e.validUntil, e.sid, e.code, e.nonce);
    } else {
      WalletStays(w, e, now);
    }
  }
}

/** The running server: deposits with their audit log, issuance sessions with their index allocator,
    and any number of requests in flight.

    A lifecycle or issuing request is either one event (`Handle`, `Issue`) or the separate events of
    its phases, which then interleave freely with everything else; `Atomic` picks out the first kind.
    A wallet's credential request always runs in its three phases. */
module World {
  import opened Basics
  import opened Lifecycle
  import opened Deposits
  import opened DepositSafety
  import S = Sessions

  datatype AuditRow = AuditRow(depositId: string, entry: HistoryEntry)

  /** A request between two of its phases. */
  datatype Task =
    | Planned(dep: string, plan: Plan)
    | ToRevoke(dep: string)
    | Checked(dep: string, validUntil: string)
    | Allocated(dep: string, validUntil: string, index: nat)
    | Looked(token: string, sid: string)
    | Built(token: string, sid: string, cred: string, claim: string)

  /** A credential handed to a wallet; `claim` is the status list index written into it. */
  datatype Issued = Issued(cred: string, sid: string, dep: string, claim: string, at: int)

  datatype World = World(
    clock: int,
    deposits: map<string, Deposit>, audit: seq<AuditRow>, created: set<string>,
    store: S.Store, nextIndex: nat,
    tasks: map<nat, Task>, issued: seq<Issued>,
    panicked: bool)

  function Start(now: int): World
  {
    World(now, map[], [], {}, S.EMPTY_STORE, 0, map[], [], false)
  }

  datatype Event =
    | CreateDeposit(id: string, info: Info, extras: Extras, auditOk: bool)
    | Handle(dep: string, req: Request)
    | Read(task: nat, dep: string, req: Request)
    | Write(task: nat, committed: bool)
    | Revoke(task: nat)
    | Issue(dep: string, validUntil: string, sid: string, code: string, nonce: string)
    | CheckIssue(task: nat, dep: string, validUntil: string)
    | Allocate(task: nat)
    | OpenSession(task: nat, sid: string, code: string, nonce: string)
    | Token(code: string, token: string, nonce: string)
    | Lookup(task: nat, token: string)
    | Build(task: nat, cred: string)
    | Redeem(task: nat)

  predicate Atomic(e: Event)
  {
    !e.Read? && !e.Write? && !e.Revoke? && !e.CheckIssue? && !e.Allocate? && !e.OpenSession?
  }

  /** The clock does not run backwards, and generated identifiers have not been used before. */
  ghost predicate Enabled(w: World, e: Event, now: int)
  {
    && w.clock <= now
    && match e
       case CreateDeposit(id, _, _, _) => id !in w.deposits
       case Read(task, _, _) => task !in w.tasks
       case CheckIssue(task, _, _) => task !in w.tasks
       case Lookup(task, _) => task !in w.tasks
       case Issue(_, _, sid, code, _) => sid !in w.store.rows && code !in w.store.codes
       case OpenSession(_, sid, code, _) => sid !in w.store.rows && code !in w.store.codes
       case Token(_, token, _) => token !in w.store.tokens
       case Build(_, cred) =>
         cred !in w.store.creds && forall t :: t in w.tasks && w.tasks[t].Built? ==> w.tasks[t].cred != cred
       case _ => true
  }

  // ---------------------------------------------------------------- deposits

  function Find(w: World, dep: string): Option<Deposit>
  {
    if dep in w.deposits then Some(w.deposits[dep]) else None
  }

  /** The two inserts of a creation are separate statements: the second may fail on its own. */
  function ApplyCreate(w: World, id: string, info: Info, x: Extras, auditOk: bool): World
  {
    if !ValidCreate(info) then w
    else
      var d := NewDeposit(id, info, x, w.clock);
      var w1 := w.(deposits := w.deposits[id := d]);
      if auditOk then w1.(audit := w.audit + [AuditRow(id, d.history[0])], created := w.created + {id}) else w1
  }

  /** The update transaction: patch, state, history and audit row together. */
  function ApplyUpdate(w: World, dep: string, u: Plan): World
    requires u.Update?
  {
    if dep !in w.deposits then w
    else
      match Commit(w.deposits[dep], u, w.clock)
      case None => w.(panicked := true)
      case Some(d) => w.(deposits := w.deposits[dep := d], audit := w.audit + [AuditRow(dep, EntryOf(u, w.clock))])
  }

  function ApplyRevoke(w: World, dep: string): World
  {
    w.(store := S.MemRevoke(w.store, dep))
  }

  /** What a handler does with its plan when nothing interrupts it. */
  function ApplyPlan(w: World, dep: string, plan: Plan): World
  {
    if plan.Panic? then w.(panicked := true)
    else if !plan.Update? then w
    else
      var w1 := ApplyUpdate(w, dep, plan);
      if plan.revokes && !w1.panicked then ApplyRevoke(w1, dep) else w1
  }

  function ApplyHandle(w: World, dep: string, req: Request): World
  {
    ApplyPlan(w, dep, Decide(Find(w, dep), req, w.clock))
  }

  function ApplyRead(w: World, task: nat, dep: string, req: Request): World
  {
    var plan := Decide(Find(w, dep), req, w.clock);
    if plan.Panic? then w.(panicked := true)
    else if !plan.Update? then w
    else w.(tasks := w.tasks[task := Planned(dep, plan)])
  }

  function ApplyWrite(w: World, task: nat, committed: bool): World
  {
    if task !in w.tasks || !w.tasks[task].Planned? || !w.tasks[task].plan.Update? then w
    else
      var t := w.tasks[task];
      if !committed then w.(tasks := w.tasks - {task})
      else
        var w1 := ApplyUpdate(w, t.dep, t.plan);
        if t.plan.revokes && !w1.panicked then w1.(tasks := w.tasks[task := ToRevoke(t.dep)])
        else w1.(tasks := w.tasks - {task})
  }

  function ApplyRevokeTask(w: World, task: nat): World
  {
    if task !in w.tasks || !w.tasks[task].ToRevoke? then w
    else ApplyRevoke(w, w.tasks[task].dep).(tasks := w.tasks - {task})
  }

  // ---------------------------------------------------------------- issuance

  predicate Issuable(w: World, dep: string)
  {
    dep in w.deposits && w.deposits[dep].state == Pledged
  }

  function Open(w: World, dep: string, validUntil: string, index: int, sid: string, code: string, nonce: string): World
  {
    w.(store := S.MemCreate(w.store, S.NewRow(sid, code, nonce, dep, validUntil, index, w.clock)))
  }

  function ApplyIssue(w: World, dep: string, validUntil: string, sid: string, code: string, nonce: string): World
  {
    if !Issuable(w, dep) then w
    else Open(w, dep, validUntil, w.nextIndex, sid, code, nonce).(nextIndex := w.nextIndex + 1)
  }

  function ApplyCheckIssue(w: World, task: nat, dep: string, validUntil: string): World
  {
    if Issuable(w, dep) then w.(tasks := w.tasks[task := Checked(dep, validUntil)]) else w
  }

  function ApplyAllocate(w: World, task: nat): World
  {
    if task !in w.tasks || !w.tasks[task].Checked? then w
    else
      w.(tasks := w.tasks[task := Allocated(w.tasks[task].dep, w.tasks[task].validUntil, w.nextIndex)],
         nextIndex := w.nextIndex + 1)
  }

  function ApplyOpen(w: World, task: nat, sid: string, code: string, nonce: string): World
  {
    if task !in w.tasks || !w.tasks[task].Allocated? then w
    else
      var t := w.tasks[task];
      Open(w, t.dep, t.validUntil, t.index, sid, code, nonce).(tasks := w.tasks - {task})
  }

  function ApplyToken(w: World, code: string, token: string, nonce: string): World
  {
    w.(store := S.MemExchange(w.store, code, token, nonce, w.clock).0)
  }

  /** The lookup checks expiry, but not whether the session is still pending. */
  function ApplyLookup(w: World, task: nat, token: string): World
  {
    var hit := S.Deref(w.store, w.store.tokens, token);
    if hit.None? || w.clock > hit.value.expiresAt then w
    else w.(tasks := w.tasks[task := Looked(token, w.store.tokens[token])])
  }

  function ApplyBuild(w: World, task: nat, cred: string): World
  {
    if task !in w.tasks || !w.tasks[task].Looked? || w.tasks[task].sid !in w.store.rows then w
    else
      var t := w.tasks[task];
      w.(tasks := w.tasks[task := Built(t.token, t.sid, cred, PrintInt(w.store.rows[t.sid].index))])
  }

  function ApplyRedeem(w: World, task: nat): World
  {
    if task !in w.tasks || !w.tasks[task].Built? then w
    else
      var t := w.tasks[task];
      var (store, row) := S.MemConsume(w.store, t.token, t.cred, w.clock);
      var w1 := w.(store := store, tasks := w.tasks - {task});
      if row.None? then w1
      else w1.(issued := w.issued + [Issued(t.cred, row.value.id, row.value.depositId, t.claim, w.clock)])
  }

  /** The three phases of a wallet request that nothing interrupts: one consumption, recorded when it
      succeeds; nothing changes when the lookup or the consumption fails. */
  lemma WalletSequence(w: World, task: nat, token: string, cred: string)
    requires task !in w.tasks
    ensures var hit := S.Deref(w.store, w.store.tokens, token);
            var (store, row) := S.MemConsume(w.store, token, cred, w.clock);
            ApplyRedeem(ApplyBuild(ApplyLookup(w, task, token), task, cred), task) ==
            if hit.None? || w.clock > hit.value.expiresAt || row.None? then w
            else w.(store := store,
                    issued := w.issued + [Issued(cred, row.value.id, row.value.depositId, PrintInt(row.value.index), w.clock)])
  {
    var hit := S.Deref(w.store, w.store.tokens, token);
    if hit.Some? && w.clock <= hit.value.expiresAt {
      var sid, built := w.store.tokens[token], Built(token, w.store.tokens[token], cred, PrintInt(hit.value.index));
      assert w.tasks[task := Looked(token, sid)][task := built] == w.tasks[task := built];
      assert w.tasks[task := built] - {task} == w.tasks;
    }
  }

  /** The three phases of an issuing request that nothing interrupts amount to one `Issue`. */
  lemma IssueSequence(w: World, task: nat, dep: string, validUntil: string, sid: string, code: string, nonce: string)
    requires task !in w.tasks
    ensures ApplyOpen(ApplyAllocate(ApplyCheckIssue(w, task, dep, validUntil), task), task, sid, code, nonce)
            == ApplyIssue(w, dep, validUntil, sid, code, nonce)
  {
    if Issuable(w, dep) {
      var a := Allocated(dep, validUntil, w.nextIndex);
      assert w.tasks[task := Checked(dep, validUntil)][task := a] == w.tasks[task := a];
      assert w.tasks[task := a] - {task} == w.tasks;
    }
  }

  /** The phases of a lifecycle request that nothing interrupts amount to one `Handle`. */
  lemma HandleSequence(w: World, task: nat, dep: string, req: Request)
    requires task !in w.tasks && !w.panicked
    ensures var w' := ApplyRevokeTask(ApplyWrite(ApplyRead(w, task, dep, req), task, true), task);
            w' == ApplyHandle(w, dep, req)
  {
    PlanSequence(w, task, dep, Decide(Find(w, dep), req, w.clock));
  }

  lemma PlanSequence(w: World, task: nat, dep: string, plan: Plan)
    requires task !in w.tasks && !w.panicked
    ensures plan.Update? ==>
              ApplyRevokeTask(ApplyWrite(w.(tasks := w.tasks[task := Planned(dep, plan)]), task, true), task)
              == ApplyPlan(w, dep, plan)
    ensures ApplyRevokeTask(ApplyWrite(w, task, true), task) == w
  {
    assert w.tasks[task := Planned(dep, plan)] - {task} == w.tasks;
    assert w.tasks[task := Planned(dep, plan)][task := ToRevoke(dep)] - {task} == w.tasks;
  }

  function Apply(w0: World, e: Event, now: int): World
  {
    var w := w0.(clock := now);
    match e
    case CreateDeposit(id, info, x, auditOk) => ApplyCreate(w, id, info, x, auditOk)
    case Handle(dep, req) => ApplyHandle(w, dep, req)
    case Read(task, dep, req) => ApplyRead(w, task, dep, req)
    case Write(task, committed) => ApplyWrite(w, task, committed)
    case Revoke(task) => ApplyRevokeTask(w, task)
    case Issue(dep, validUntil, sid, code, nonce) => ApplyIssue(w, dep, validUntil, sid, code, nonce)
    case CheckIssue(task, dep, validUntil) => ApplyCheckIssue(w, task, dep, validUntil)
    case Allocate(task) => ApplyAllocate(w, task)
    case OpenSession(task, sid, code, nonce) => ApplyOpen(w, task, sid, code, nonce)
    case Token(code, token, nonce) => ApplyToken(w, code, token, nonce)
    case Lookup(task, token) => ApplyLookup(w, task, token)
    case Build(task, cred) => ApplyBuild(w, task, cred)
    case Redeem(task) => ApplyRedeem(w, task)
  }

  // ---------------------------------------------------------------- runs

  datatype Timed = Timed(at: int, e: Event)

  ghost predicate IsRun(ws: seq<World>, es: seq<Timed>)
  {
    && |ws| == |es| + 1
    && ws[0] == Start(ws[0].clock)
    && forall i :: 0 <= i < |es| ==> Enabled(ws[i], es[i].e, es[i].at) && ws[i + 1] == Apply(ws[i], es[i].e, es[i].at)
  }

  ghost predicate IsAtomicRun(ws: seq<World>, es: seq<Timed>)
  {
    IsRun(ws, es) && forall i :: 0 <= i < |es| ==> Atomic(es[i].e)
  }
}

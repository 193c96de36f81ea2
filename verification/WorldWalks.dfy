/** When handlers interleave, a history need not follow the transition table. Exactly when it does. */
module WorldWalks {
  import opened Basics
  import opened Lifecycle
  import opened Deposits
  import opened DepositSafety
  import Runs = DepositRuns
  import opened World
  import opened WorldDeposits
  import opened WorldTheorems

  // ---------------------------------------------------------------- what an event does to a deposit

  /** The write phase of a request that was planned for the deposit. */
  predicate WritesTo(w: World, e: Event, id: string)
  {
    && e.Write? && e.committed
    && e.task in w.tasks && w.tasks[e.task].Planned? && w.tasks[e.task].dep == id
  }

  lemma WriteLeaves(w: World, task: nat, committed: bool)
    requires !(committed && task in w.tasks && w.tasks[task].Planned?)
    ensures ApplyWrite(w, task, committed).deposits == w.deposits
  {
  }

  /** A committed write carries its plan out on the deposit that it finds. */
  lemma WriteEffect(w: World, task: nat)
    requires DepositsOk(w) && task in w.tasks && w.tasks[task].Planned?
    ensures var t := w.tasks[task];
            && t.dep in w.deposits && t.plan.Update? && Fits(w.deposits[t.dep], t.plan)
            && Commit(w.deposits[t.dep], t.plan, w.clock).Some?
            && ApplyWrite(w, task, true).deposits == w.deposits[t.dep := Commit(w.deposits[t.dep], t.plan, w.clock).value]
  {
    var t := w.tasks[task];
    assert t.plan.Update? && t.dep in w.deposits && Fits(w.deposits[t.dep], t.plan);
    UpdateOk(w, t.dep, t.plan);
  }

  lemma WriteHere(w: World, task: nat, committed: bool, now: int, id: string)
    requires DepositsOk(w) && w.clock <= now && id in w.deposits
    ensures id in ApplyWrite(w.(clock := now), task, committed).deposits
    ensures var d, d' := w.deposits[id], ApplyWrite(w.(clock := now), task, committed).deposits[id];
            if WritesTo(w, Write(task, committed), id)
            then var u := w.tasks[task].plan; u.Update? && Fits(d, u) && Commit(d, u, now) == Some(d')
            else d' == d
  {
    TasksKeep(w, w.(clock := now));
    if committed && task in w.tasks && w.tasks[task].Planned? {
      WriteEffect(w.(clock := now), task);
    } else {
      WriteLeaves(w.(clock := now), task, committed);
    }
  }

  lemma OtherEventsLeave(w: World, e: Event, now: int)
    requires !e.Handle? && !e.CreateDeposit? && !e.Write?
    ensures Apply(w, e, now).deposits == w.deposits
  {
  }

  /** One step of one deposit, whatever the event. */
  ghost predicate Advances(w: World, e: Event, now: int, d: Deposit, d': Deposit)
  {
    if e.Handle? && e.dep == d.id then d' == Step(d, e.req, now)
    else if WritesTo(w, e, d.id) then
      var u := w.tasks[e.task].plan;
      u.Update? && Fits(d, u) && Commit(d, u, now) == Some(d')
    else d' == d
  }

  lemma EventAdvances(w: World, e: Event, now: int, id: string)
    requires DepositsOk(w) && Enabled(w, e, now) && id in w.deposits
    ensures id in Apply(w, e, now).deposits && w.deposits[id].id == id
    ensures Advances(w, e, now, w.deposits[id], Apply(w, e, now).deposits[id])
  {
    assert SoundDeposit(w.deposits[id], id, w.clock);
    match e {
      case Handle(dep, req) => HandledHere(w, dep, req, now, id);
      case CreateDeposit(dep, info, x, auditOk) => CreateLeaves(w.(clock := now), dep, info, x, auditOk, id);
      case Write(task, committed) => WriteHere(w, task, committed, now, id);
      case _ => OtherEventsLeave(w, e, now);
    }
  }

  // ---------------------------------------------------------------- one step of a history

  lemma LegalAppendExactly(h: seq<HistoryEntry>, e: HistoryEntry)
    requires h != []
    ensures Runs.LegalHistory(h + [e]) <==> Runs.LegalHistory(h) && LegalStep(h[|h| - 1].state, e.state)
  {
    var h' := h + [e];
    assert h'[|h| - 1] == h[|h| - 1] && h'[|h|] == e;
    if Runs.LegalHistory(h') {
      forall i | 0 < i < |h| ensures LegalStep(h[i - 1].state, h[i].state) {
        assert h'[i - 1] == h[i - 1] && h'[i] == h[i];
      }
    } else if Runs.LegalHistory(h) && LegalStep(h[|h| - 1].state, e.state) {
      Runs.LegalAppend(h, e);
    }
  }

  /** No entry is FUNDED. */
  ghost predicate Unfunded(h: seq<HistoryEntry>)
  {
    forall i :: 0 <= i < |h| ==> h[i].state != Funded
  }

  /** The move that a write makes is one that the table allows from the state it finds. */
  ghost predicate Timely(w: World, e: Event, id: string)
  {
    WritesTo(w, e, id) && id in w.deposits && w.tasks[e.task].plan.Update? ==>
      LegalStep(w.deposits[id].state, w.tasks[e.task].plan.to)
  }

  lemma StepHistory(d: Deposit, r: Request, now: int)
    requires WellFormed(d)
    ensures Runs.LegalHistory(Step(d, r, now).history) <==> Runs.LegalHistory(d.history)
    ensures Unfunded(d.history) ==> Unfunded(Step(d, r, now).history)
  {
    Runs.StepTimestamps(d, r, now);
    if Step(d, r, now) != d {
      Runs.DecideLegal(d, r, now);
      LegalAppendExactly(d.history, EntryOf(Decide(Some(d), r, now), now));
    }
  }

  lemma CommitHistory(d: Deposit, u: Plan, now: int)
    requires WellFormed(d) && u.Update? && Fits(d, u) && Commit(d, u, now).Some?
    ensures Runs.LegalHistory(Commit(d, u, now).value.history) <==> Runs.LegalHistory(d.history) && LegalStep(d.state, u.to)
    ensures Unfunded(d.history) ==> Unfunded(Commit(d, u, now).value.history)
  {
    PatchKeeps(d, u.patch);
    LegalAppendExactly(d.history, EntryOf(u, now));
  }

  lemma EventHistory(w: World, e: Event, now: int, d: Deposit, d': Deposit)
    requires WellFormed(d) && Advances(w, e, now, d, d') && d.id in w.deposits && w.deposits[d.id] == d
    ensures Runs.LegalHistory(d'.history) <==> Runs.LegalHistory(d.history) && Timely(w, e, d.id)
    ensures Unfunded(d.history) ==> Unfunded(d'.history)
  {
    if e.Handle? && e.dep == d.id {
      StepHistory(d, e.req, now);
    } else if WritesTo(w, e, d.id) {
      CommitHistory(d, w.tasks[e.task].plan, now);
    }
  }

  // ---------------------------------------------------------------- whole runs

  /** Every committed write on the deposit so far was timely. */
  ghost predicate AllTimely(ws: seq<World>, es: seq<Timed>, n: nat, id: string)
    requires |ws| == |es| + 1 && n < |ws|
  {
    forall i :: 0 <= i < n ==> Timely(ws[i], es[i].e, id)
  }

  lemma NotYetThere(ws: seq<World>, es: seq<Timed>, n: nat, id: string)
    requires IsRun(ws, es) && n < |ws| && id !in ws[n].deposits
    ensures AllTimely(ws, es, n, id)
  {
    forall i | 0 <= i < n ensures id !in ws[i].deposits {
      RunAdvances(ws, es, i, n);
    }
  }

  lemma {:induction false} HistoriesAlongRun(ws: seq<World>, es: seq<Timed>, n: nat, id: string)
    requires IsRun(ws, es) && n < |ws| && id in ws[n].deposits
    ensures Runs.LegalHistory(ws[n].deposits[id].history) <==> AllTimely(ws, es, n, id)
    ensures Unfunded(ws[n].deposits[id].history)
  {
    var w, e := ws[n - 1], es[n - 1];
    RunStep(ws, es, n - 1);
    if id !in w.deposits {
      CreatedHere(w, e.e, e.at, id);
      NotYetThere(ws, es, n - 1, id);
    } else {
      HistoriesAlongRun(ws, es, n - 1, id);
      RunOk(ws, es, n - 1);
      assert SoundDeposit(w.deposits[id], id, w.clock);
      EventAdvances(w, e.e, e.at, id);
      EventHistory(w, e.e, e.at, w.deposits[id], ws[n].deposits[id]);
    }
  }

  lemma {:induction false} StatesCounted(h: seq<HistoryEntry>)
    requires h != [] && h[0].state == Requested && Runs.LegalHistory(h) && Unfunded(h)
    ensures |Runs.States(h)| + Rank(h[|h| - 1].state) <= 7
  {
    var g, e := h[..|h| - 1], h[|h| - 1];
    assert h == g + [e];
    Runs.StatesAppend(g, e);
    if g == [] {
      assert Runs.States(g) == {};
    } else {
      LegalAppendExactly(g, e);
      StatesCounted(g);
      assert g[|g| - 1].state in Runs.States(g);
      Runs.StatesCount(Runs.States(g), g[|g| - 1].state, e.state);
    }
  }

  lemma WalksIfLegal(d: Deposit)
    requires WellFormed(d) && Runs.LegalHistory(d.history) && Unfunded(d.history)
    ensures Runs.Walk(d)
  {
    StatesCounted(d.history);
  }

  /** Under every interleaving a deposit's history is a walk of the table, with all that follows from
      it, if and only if every committed write on the deposit was timely. The handlers do not ask. */
  lemma WalkExactly(ws: seq<World>, es: seq<Timed>, n: nat, id: string)
    requires IsRun(ws, es) && n < |ws| && id in ws[n].deposits
    ensures Runs.Walk(ws[n].deposits[id]) <==> AllTimely(ws, es, n, id)
  {
    HistoriesAlongRun(ws, es, n, id);
    RunOk(ws, es, n);
    assert SoundDeposit(ws[n].deposits[id], id, ws[n].clock);
    if AllTimely(ws, es, n, id) {
      WalksIfLegal(ws[n].deposits[id]);
    }
  }

  /** A wallet presentation that was read while PLEDGED and is written after a release puts the
      released deposit back to PLEDGED. */
  lemma StaleWriteReenters(d: Deposit, claims: VpClaims, t0: int, t1: int, t2: int)
    requires Runs.Walk(d) && d.state == Pledged && claims.depositId == d.id
    requires d.history[|d.history| - 1].timestamp <= t0 <= t1 <= t2
    ensures var plan := Decide(Some(d), VpResponse(true, true, Live, Some(claims)), t0);
            var released := Step(d, Release, t1);
            && plan.Update? && released.state == Released
            && Commit(released, plan, t2).Some?
            && Commit(released, plan, t2).value.state == Pledged
            && !Runs.LegalHistory(Commit(released, plan, t2).value.history)
  {
    var plan := Decide(Some(d), VpResponse(true, true, Live, Some(claims)), t0);
    var released := Step(d, Release, t1);
    Runs.WalkStep(d, Release, t1);
    Runs.StepTimestamps(d, Release, t1);
    DecideFits(d, VpResponse(true, true, Live, Some(claims)), t0);
    FitsLater(d, released, plan);
    CommitSafe(released, plan, t2);
    CommitHistory(released, plan, t2);
  }

  // ---------------------------------------------------------------- undisturbed requests

  /** A plan in flight that a step leaves there, or puts there. */
  lemma PlanKeptOrMade(w: World, e: Event, now: int, t: nat)
    requires Enabled(w, e, now) && t in Apply(w, e, now).tasks && Apply(w, e, now).tasks[t].Planned?
    requires !(e.Read? && e.task == t)
    ensures t in w.tasks && w.tasks[t] == Apply(w, e, now).tasks[t]
  {
  }

  lemma PlanMade(w: World, e: Event, now: int)
    requires e.Read? && e.task !in w.tasks && e.task in Apply(w, e, now).tasks
    ensures var t := Apply(w, e, now).tasks[e.task];
            t.Planned? && t.dep == e.dep && t.plan == Decide(Find(w, e.dep), e.req, now) && t.plan.Update?
  {
  }

  /** The read and the write phase of one request. */
  ghost predicate SameRequest(es: seq<Timed>, j: nat, i: nat)
  {
    && j < i < |es| && es[j].e.Read? && es[i].e.Write? && es[i].e.task == es[j].e.task
    && forall k :: j < k < i && es[k].e.Read? ==> es[k].e.task != es[j].e.task
  }

  ghost predicate ReadAt(ws: seq<World>, es: seq<Timed>, j: nat, i: nat, t: nat)
    requires |ws| == |es| + 1
  {
    && j < i < |ws| && es[j].e.Read? && es[j].e.task == t
    && (forall k :: j < k < i && es[k].e.Read? ==> es[k].e.task != t)
    && t in ws[i].tasks && ws[i].tasks[t].Planned? && ws[i].tasks[t].dep == es[j].e.dep
    && ws[i].tasks[t].plan == Decide(Find(ws[j], es[j].e.dep), es[j].e.req, es[j].at)
  }

  lemma {:induction false} PlanOrigin(ws: seq<World>, es: seq<Timed>, i: nat, t: nat) returns (j: nat)
    requires IsRun(ws, es) && i < |ws| && t in ws[i].tasks && ws[i].tasks[t].Planned?
    ensures ReadAt(ws, es, j, i, t)
  {
    var w, e := ws[i - 1], es[i - 1];
    RunStep(ws, es, i - 1);
    if e.e.Read? && e.e.task == t {
      j := i - 1;
      PlanMade(w, e.e, e.at);
    } else {
      PlanKeptOrMade(w, e.e, e.at, t);
      j := PlanOrigin(ws, es, i - 1, t);
    }
  }

  /** An event that may change the deposit. */
  predicate Updates(w: World, e: Event, id: string)
  {
    (e.Handle? && e.dep == id) || WritesTo(w, e, id)
  }

  lemma UnchangedNext(ws: seq<World>, es: seq<Timed>, i: nat, id: string)
    requires IsRun(ws, es) && i < |es| && id in ws[i].deposits && !Updates(ws[i], es[i].e, id)
    ensures id in ws[i + 1].deposits && ws[i + 1].deposits[id] == ws[i].deposits[id]
  {
    RunOk(ws, es, i);
    RunStep(ws, es, i);
    EventAdvances(ws[i], es[i].e, es[i].at, id);
  }

  lemma {:induction false} UnchangedBetween(ws: seq<World>, es: seq<Timed>, j: nat, i: nat, id: string)
    requires IsRun(ws, es) && j <= i < |ws| && id in ws[j].deposits
    requires forall k :: j <= k < i ==> !Updates(ws[k], es[k].e, id)
    ensures id in ws[i].deposits && ws[i].deposits[id] == ws[j].deposits[id]
    decreases i
  {
    if j < i {
      UnchangedBetween(ws, es, j, i - 1, id);
      UnchangedNext(ws, es, i - 1, id);
    }
  }

  /** Between the read and the write phase of a request nothing else updates its deposit. */
  ghost predicate Undisturbed(ws: seq<World>, es: seq<Timed>, n: nat, id: string)
    requires |ws| == |es| + 1 && n < |ws|
  {
    forall j, i, k :: 0 <= j < k < i < n && SameRequest(es, j, i) && es[j].e.dep == id ==> !Updates(ws[k], es[k].e, id)
  }

  lemma UndisturbedIsTimely(ws: seq<World>, es: seq<Timed>, n: nat, i: nat, id: string)
    requires IsRun(ws, es) && i < n < |ws| && Undisturbed(ws, es, n, id)
    ensures Timely(ws[i], es[i].e, id)
  {
    var e := es[i].e;
    if WritesTo(ws[i], e, id) && id in ws[i].deposits && ws[i].tasks[e.task].plan.Update? {
      var j := PlanOrigin(ws, es, i, e.task);
      assert SameRequest(es, j, i);
      assert id in ws[j].deposits;
      Runs.DecideLegal(ws[j].deposits[id], es[j].e.req, es[j].at);
      forall k | j <= k < i ensures !Updates(ws[k], es[k].e, id) {
      }
      UnchangedBetween(ws, es, j, i, id);
    }
  }

  /** Requests whose deposit nobody else updates while they are under way keep its history a walk. */
  lemma UndisturbedWalks(ws: seq<World>, es: seq<Timed>, n: nat, id: string)
    requires IsRun(ws, es) && n < |ws| && id in ws[n].deposits && Undisturbed(ws, es, n, id)
    ensures Runs.Walk(ws[n].deposits[id])
  {
    forall i | 0 <= i < n ensures Timely(ws[i], es[i].e, id) {
      UndisturbedIsTimely(ws, es, n, i, id);
    }
    WalkExactly(ws, es, n, id);
  }
}

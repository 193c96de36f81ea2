/** Where the states in a history come from, under every interleaving: nobody is identified without a
    verified identity, and nothing is pledged without the bank's confirmation. */
module WorldOrigins {
  import opened Basics
  import opened Lifecycle
  import opened Deposits
  import opened DepositSafety
  import opened DepositRequests
  import Runs = DepositRuns
  import opened World
  import opened WorldDeposits
  import opened WorldTheorems
  import opened WorldWalks

  /** The request that an event brings for a deposit, uninterrupted or in its read phase. */
  function RequestOf(e: Event, id: string): Option<Request>
  {
    if (e.Handle? || e.Read?) && e.dep == id then Some(e.req) else None
  }

  predicate Verifies(r: Option<Request>)
  {
    r.Some? && r.value.UpdateIdentity? && r.value.eidStatus == "VERIFIED"
  }

  predicate Confirms(r: Option<Request>)
  {
    r.Some? && r.value.PledgeDeposit? && r.value.confirmed && r.value.pledgeDate != ""
  }

  /** An event before `n` brought a verified identity for the deposit, which was there. */
  ghost predicate WasVerified(ws: seq<World>, es: seq<Timed>, n: nat, id: string)
    requires |ws| == |es| + 1 && n < |ws|
  {
    exists j :: 0 <= j < n && id in ws[j].deposits && Verifies(RequestOf(es[j].e, id))
  }

  ghost predicate WasConfirmed(ws: seq<World>, es: seq<Timed>, n: nat, id: string)
    requires |ws| == |es| + 1 && n < |ws|
  {
    exists j :: 0 <= j < n && id in ws[j].deposits && Confirms(RequestOf(es[j].e, id))
  }

  ghost predicate Holds(h: seq<HistoryEntry>, s: State)
  {
    exists i :: 0 <= i < |h| && h[i].state == s
  }

  /** What a decision to enter one of the two states rests on. */
  lemma DecisionRests(d: Deposit, r: Request, now: int)
    ensures var u := Decide(Some(d), r, now);
            && (u.Update? && u.to == Identified ==> Verifies(Some(r)))
            && (u.Update? && u.to == Pledged ==> Confirms(Some(r)) || d.state == Pledged)
  {
  }

  lemma HoldsAppend(h: seq<HistoryEntry>, e: HistoryEntry, s: State)
    ensures Holds(h + [e], s) <==> Holds(h, s) || e.state == s
  {
    assert (h + [e])[|h|] == e;
    if Holds(h, s) {
      var i :| 0 <= i < |h| && h[i].state == s;
      assert (h + [e])[i].state == s;
    }
  }

  /** A new state of the deposit is the one that a decision on a version of it chose. */
  ghost predicate Decided(ws: seq<World>, es: seq<Timed>, j: nat, id: string, to: State)
    requires |ws| == |es| + 1 && j < |es|
  {
    && id in ws[j].deposits && RequestOf(es[j].e, id).Some?
    && var u := Decide(Some(ws[j].deposits[id]), RequestOf(es[j].e, id).value, es[j].at);
       u.Update? && u.to == to
  }

  /** One entry longer, and in the state of that entry. */
  ghost predicate Grown(d: Deposit, d': Deposit)
  {
    && |d'.history| == |d.history| + 1 && d'.history[..|d.history|] == d.history
    && d'.history[|d.history|].state == d'.state
  }

  lemma AdvanceGrows(w: World, e: Event, now: int, d: Deposit, d': Deposit)
    requires Advances(w, e, now, d, d') && d' != d
    ensures Grown(d, d')
    ensures if e.Handle? && e.dep == d.id then Decide(Some(d), e.req, now).Update? && Decide(Some(d), e.req, now).to == d'.state
            else WritesTo(w, e, d.id) && w.tasks[e.task].plan.Update? && w.tasks[e.task].plan.to == d'.state
  {
    if e.Handle? && e.dep == d.id {
      Runs.StepTimestamps(d, e.req, now);
    } else {
      PatchKeeps(d, w.tasks[e.task].plan.patch);
    }
  }

  /** Whenever a history grows, the entry was decided by some request for the deposit, then or before. */
  lemma EntryDecided(ws: seq<World>, es: seq<Timed>, n: nat, id: string) returns (j: nat)
    requires IsRun(ws, es) && n < |es| && id in ws[n].deposits && id in ws[n + 1].deposits
    requires ws[n + 1].deposits[id] != ws[n].deposits[id]
    ensures j <= n && Decided(ws, es, j, id, ws[n + 1].deposits[id].state)
    ensures Grown(ws[n].deposits[id], ws[n + 1].deposits[id])
  {
    RunOk(ws, es, n);
    RunStep(ws, es, n);
    var e := es[n];
    EventAdvances(ws[n], e.e, e.at, id);
    AdvanceGrows(ws[n], e.e, e.at, ws[n].deposits[id], ws[n + 1].deposits[id]);
    if e.e.Handle? && e.e.dep == id {
      j := n;
    } else {
      j := PlanOrigin(ws, es, n, e.e.task);
    }
  }

  lemma {:induction false} StatesHaveOrigins(ws: seq<World>, es: seq<Timed>, n: nat, id: string)
    requires IsRun(ws, es) && n < |ws| && id in ws[n].deposits
    ensures Holds(ws[n].deposits[id].history, Identified) ==> WasVerified(ws, es, n, id)
    ensures Holds(ws[n].deposits[id].history, Pledged) ==> WasConfirmed(ws, es, n, id)
    decreases n
  {
    RunStep(ws, es, n - 1);
    if id !in ws[n - 1].deposits {
      CreatedHere(ws[n - 1], es[n - 1].e, es[n - 1].at, id);
    } else {
      StatesHaveOrigins(ws, es, n - 1, id);
      if ws[n].deposits[id] != ws[n - 1].deposits[id] {
        NewEntryHasOrigin(ws, es, n - 1, id);
      }
    }
  }

  lemma {:induction false} NewEntryHasOrigin(ws: seq<World>, es: seq<Timed>, n: nat, id: string)
    requires IsRun(ws, es) && n < |es| && id in ws[n].deposits && id in ws[n + 1].deposits
    requires ws[n + 1].deposits[id] != ws[n].deposits[id]
    requires Holds(ws[n].deposits[id].history, Identified) ==> WasVerified(ws, es, n, id)
    requires Holds(ws[n].deposits[id].history, Pledged) ==> WasConfirmed(ws, es, n, id)
    ensures Holds(ws[n + 1].deposits[id].history, Identified) ==> WasVerified(ws, es, n + 1, id)
    ensures Holds(ws[n + 1].deposits[id].history, Pledged) ==> WasConfirmed(ws, es, n + 1, id)
    decreases n + 1, 0
  {
    var j := EntryDecided(ws, es, n, id);
    var h, h' := ws[n].deposits[id].history, ws[n + 1].deposits[id].history;
    var to := ws[n + 1].deposits[id].state;
    assert h' == h + [h'[|h|]];
    HoldsAppend(h, h'[|h|], Identified);
    HoldsAppend(h, h'[|h|], Pledged);
    DecisionRests(ws[j].deposits[id], RequestOf(es[j].e, id).value, es[j].at);
    if to == Pledged && ws[j].deposits[id].state == Pledged {
      RunOk(ws, es, j);
      assert SoundDeposit(ws[j].deposits[id], id, ws[j].clock);
      assert Holds(ws[j].deposits[id].history, Pledged);
      StatesHaveOrigins(ws, es, j, id);
    }
  }
}

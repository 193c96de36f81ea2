/** A run of the server that ends with a closed deposit whose credential is still active. */
module ClosedYetActive {
  import opened Basics
  import opened Lifecycle
  import opened Deposits
  import Money = DepositMoney
  import opened World
  import opened WorldTheorems
  import S = Sessions

  const PARTIAL := PartialRelease(700.0, 300.0, 0.0, "2025-12-31", true)
  const BREAK_EVEN := Request.UtilitySettle("", 10.0, 10.0)

  /** Created, identified and pledged; a credential is issued; then a partial release and a utility
      statement that breaks even. */
  const EVENTS: seq<Event> :=
    [CreateDeposit("id", Money.SAMPLE, Money.NO_EXTRAS, true),
     Handle("id", Money.IDENTIFY.req), Handle("id", Money.PLEDGE.req),
     Issue("id", "", "s", "c", "n"), Token("c", "t", "n"), Lookup(0, "t"), Build(0, "k"), Redeem(0),
     Handle("id", PARTIAL), Handle("id", BREAK_EVEN)]

  const ROW := S.NewRow("s", "c", "n", "id", "", 0, 0)
  const OPEN_STORE := S.Store(map["s" := ROW], map["c" := "s"], map[], map[])
  const TOKEN_STORE := S.Store(map["s" := ROW.(token := Some("t"))], map["c" := "s"], map["t" := "s"], map[])
  const DONE_STORE :=
    S.Store(map["s" := ROW.(token := Some("t"), state := S.Consumed, cred := Some("k"))],
            map["c" := "s"], map["t" := "s"], map["k" := "s"])

  /** Where the deposit and the sessions stand. */
  datatype Standing = Standing(state: Option<State>, store: S.Store, tasks: map<nat, Task>, next: nat)

  /** After that many of the events. */
  function Expected(n: nat): Standing
  {
    match n
    case 0 => Standing(None, S.EMPTY_STORE, map[], 0)
    case 1 => Standing(Some(Requested), S.EMPTY_STORE, map[], 0)
    case 2 => Standing(Some(Identified), S.EMPTY_STORE, map[], 0)
    case 3 => Standing(Some(Pledged), S.EMPTY_STORE, map[], 0)
    case 4 => Standing(Some(Pledged), OPEN_STORE, map[], 1)
    case 5 => Standing(Some(Pledged), TOKEN_STORE, map[], 1)
    case 6 => Standing(Some(Pledged), TOKEN_STORE, map[0 := Looked("t", "s")], 1)
    case 7 => Standing(Some(Pledged), TOKEN_STORE, map[0 := Built("t", "s", "k", PrintInt(0))], 1)
    case 8 => Standing(Some(Pledged), DONE_STORE, map[], 1)
    case 9 => Standing(Some(PartiallyReleased), DONE_STORE, map[], 1)
    case _ => Standing(Some(Closed), DONE_STORE, map[], 1)
  }

  ghost predicate Stands(w: World, at: Standing)
  {
    && w.clock == 0 && (if "id" in w.deposits then Some(w.deposits["id"].state) else None) == at.state
    && (at.state == Some(PartiallyReleased) ==> w.deposits["id"].reservation.Some?)
    && w.store == at.store && w.tasks == at.tasks && w.nextIndex == at.next && !w.panicked
  }

  lemma HandleStands(w: World, req: Request, at: Standing, to: State)
    requires Stands(w, at) && at.state.Some?
    requires MovesOn(w.deposits["id"], req, to)
    ensures Stands(Apply(w, Handle("id", req), 0), at.(state := Some(to)))
  {
  }

  lemma CreateStands(w: World)
    requires Stands(w, Expected(0))
    ensures Enabled(w, EVENTS[0], 0) && Stands(Apply(w, EVENTS[0], 0), Expected(1))
  {
  }

  /** The plan for a request that moves the deposit on without revoking anything. */
  ghost predicate MovesOn(d: Deposit, req: Request, to: State)
  {
    var plan := Decide(Some(d), req, 0);
    && plan.Update? && !plan.revokes && plan.to == to
    && Commit(d, plan, 0).Some?
    && (to == PartiallyReleased ==> Commit(d, plan, 0).value.reservation.Some?)
  }

  lemma IdentifyMovesOn(d: Deposit)
    requires d.state == Requested
    ensures MovesOn(d, Money.IDENTIFY.req, Identified)
  {
  }

  lemma PledgeMovesOn(d: Deposit)
    requires d.state == Identified
    ensures MovesOn(d, Money.PLEDGE.req, Pledged)
  {
  }

  lemma PartialMovesOn(d: Deposit)
    requires d.state == Pledged
    ensures MovesOn(d, PARTIAL, PartiallyReleased)
  {
  }

  lemma BreakEvenMovesOn(d: Deposit)
    requires d.state == PartiallyReleased && d.reservation.Some?
    ensures MovesOn(d, BREAK_EVEN, Closed)
  {
  }

  lemma RequestStands(w: World, n: nat)
    requires n in {1, 2, 8, 9} && Stands(w, Expected(n))
    ensures Enabled(w, EVENTS[n], 0) && Stands(Apply(w, EVENTS[n], 0), Expected(n + 1))
  {
    var d := w.deposits["id"];
    match n {
      case 1 => IdentifyMovesOn(d);
      case 2 => PledgeMovesOn(d);
      case 8 => PartialMovesOn(d);
      case 9 => BreakEvenMovesOn(d);
    }
    HandleStands(w, EVENTS[n].req, Expected(n), Expected(n + 1).state.value);
  }

  lemma IssueStands(w: World)
    requires Stands(w, Expected(3))
    ensures Enabled(w, EVENTS[3], 0) && Stands(Apply(w, EVENTS[3], 0), Expected(4))
  {
  }

  lemma TokenStands(w: World)
    requires Stands(w, Expected(4))
    ensures Enabled(w, EVENTS[4], 0) && Stands(Apply(w, EVENTS[4], 0), Expected(5))
  {
  }

  lemma LookupStands(w: World)
    requires Stands(w, Expected(5))
    ensures Enabled(w, EVENTS[5], 0) && Stands(Apply(w, EVENTS[5], 0), Expected(6))
  {
  }

  lemma BuildStands(w: World)
    requires Stands(w, Expected(6))
    ensures Enabled(w, EVENTS[6], 0) && Stands(Apply(w, EVENTS[6], 0), Expected(7))
  {
  }

  lemma RedeemStands(w: World)
    requires Stands(w, Expected(7))
    ensures Enabled(w, EVENTS[7], 0) && Stands(Apply(w, EVENTS[7], 0), Expected(8))
  {
    assert S.MemConsume(TOKEN_STORE, "t", "k", 0).0 == DONE_STORE;
    assert w.tasks - {0} == map[];
  }

  lemma NextStands(w: World, n: nat)
    requires n < 10 && Stands(w, Expected(n))
    ensures Enabled(w, EVENTS[n], 0) && Stands(Apply(w, EVENTS[n], 0), Expected(n + 1))
  {
    match n {
      case 0 => CreateStands(w);
      case 3 => IssueStands(w);
      case 4 => TokenStands(w);
      case 5 => LookupStands(w);
      case 6 => BuildStands(w);
      case 7 => RedeemStands(w);
      case _ => RequestStands(w, n);
    }
  }

  lemma RunExtended(ws: seq<World>, es: seq<Timed>, e: Timed)
    requires IsAtomicRun(ws, es) && Enabled(ws[|es|], e.e, e.at) && Atomic(e.e)
    ensures IsAtomicRun(ws + [Apply(ws[|es|], e.e, e.at)], es + [e])
  {
    var ws', es' := ws + [Apply(ws[|es|], e.e, e.at)], es + [e];
    forall i | 0 <= i < |es'|
      ensures Enabled(ws'[i], es'[i].e, es'[i].at) && ws'[i + 1] == Apply(ws'[i], es'[i].e, es'[i].at) && Atomic(es'[i].e)
    {
      if i < |es| {
        assert ws'[i] == ws[i] && ws'[i + 1] == ws[i + 1] && es'[i] == es[i];
      }
    }
  }

  /** The first events at time 0. */
  function Happened(n: nat): (es: seq<Timed>)
    requires n <= 10
    ensures |es| == n
  {
    seq(n, i requires 0 <= i < n => Timed(0, EVENTS[i]))
  }

  lemma AllAtomic(n: nat)
    requires n < 10
    ensures Atomic(EVENTS[n])
  {
  }

  lemma StartsRun()
    ensures IsAtomicRun([Start(0)], Happened(0)) && Stands([Start(0)][0], Expected(0))
  {
  }

  lemma HappenedNext(n: nat)
    requires n < 10
    ensures Happened(n + 1) == Happened(n) + [Timed(0, EVENTS[n])]
  {
  }

  lemma GoesOn(ws: seq<World>, n: nat) returns (ws': seq<World>)
    requires n < 10 && IsAtomicRun(ws, Happened(n)) && Stands(ws[n], Expected(n))
    ensures IsAtomicRun(ws', Happened(n + 1)) && Stands(ws'[n + 1], Expected(n + 1))
  {
    NextStands(ws[n], n);
    AllAtomic(n);
    var e := Timed(0, EVENTS[n]);
    RunExtended(ws, Happened(n), e);
    HappenedNext(n);
    ws' := ws + [Apply(ws[n], e.e, e.at)];
  }

  lemma {:induction false} EventsMakeARun(n: nat) returns (ws: seq<World>)
    requires n <= 10
    ensures IsAtomicRun(ws, Happened(n)) && Stands(ws[n], Expected(n))
  {
    if n == 0 {
      ws := [Start(0)];
      StartsRun();
    } else {
      ws := EventsMakeARun(n - 1);
      ws := GoesOn(ws, n - 1);
    }
  }

  lemma ClosedThere(w: World)
    requires Stands(w, Expected(10))
    ensures "id" in w.deposits && w.deposits["id"].state == Closed
    ensures IssuedFor(w.store, "k", "id") && !SaysRevoked(w.store, "k")
  {
  }

  /** The events make an uninterrupted run that ends with a closed deposit and an active credential. */
  lemma ClosedYetActive() returns (ws: seq<World>)
    ensures IsAtomicRun(ws, Happened(10))
    ensures var w := ws[|ws| - 1];
            && "id" in w.deposits && w.deposits["id"].state == Closed
            && IssuedFor(w.store, "k", "id") && !SaysRevoked(w.store, "k")
  {
    ws := EventsMakeARun(10);
    ClosedThere(ws[10]);
  }
}

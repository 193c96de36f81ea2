/** The quarter of an hour: how long a code can be exchanged and a token redeemed. */
module SessionWindow {
  import opened Basics
  import opened World
  import opened WorldSessions
  import opened WorldTheorems
  import S = Sessions

  /** Wallets' requests open no sessions. */
  lemma WalletOpensNothing(w: World, e: Event, now: int)
    requires e.Token? || e.Lookup? || e.Build? || e.Redeem?
    ensures Apply(w, e, now).store.rows.Keys == w.store.rows.Keys
  {
  }

  /** Neither do the requests that change deposits. */
  lemma LifecycleOpensNothing(w: World, e: Event, now: int)
    requires e.CreateDeposit? || e.Handle? || e.Read? || e.Write? || e.Revoke? || e.CheckIssue? || e.Allocate?
    ensures Apply(w, e, now).store.rows.Keys == w.store.rows.Keys
  {
  }

  /** The row of a session that an event opens. */
  lemma OpenedNow(w: World, e: Event, now: int, sid: string)
    requires sid !in w.store.rows && sid in Apply(w, e, now).store.rows
    ensures var row := Apply(w, e, now).store.rows[sid];
            row.id == sid && row.createdAt == now && row.state == S.Pending && row.token.None? && row.cred.None?
  {
    if e.Token? || e.Lookup? || e.Build? || e.Redeem? {
      WalletOpensNothing(w, e, now);
    } else if !e.Issue? && !e.OpenSession? {
      LifecycleOpensNothing(w, e, now);
    }
  }

  lemma UsableExactly(s: S.Store, id: string, now: int)
    requires S.RowsKeyed(s) && id in s.rows
    ensures S.Usable(s.rows[id], now) <==> s.rows[id].state == S.Pending && now <= s.rows[id].createdAt + 900_000_000_000
  {
  }

  /** No credential was handed out for the session. */
  ghost predicate Unissued(w: World, sid: string)
  {
    forall k :: 0 <= k < |w.issued| ==> w.issued[k].sid != sid
  }

  lemma PendingExactly(w: World, sid: string)
    requires SessionsOk(w) && sid in w.store.rows
    ensures w.store.rows[sid].state == S.Pending <==> Unissued(w, sid)
  {
    if w.store.rows[sid].state != S.Pending {
      var i :| 0 <= i < |w.issued| && w.issued[i].sid == sid;
    }
  }

  /** The session can be used at a moment. */
  ghost predicate StillOpen(w: World, sid: string, since: int, at: int)
  {
    at <= since + 900_000_000_000 && Unissued(w, sid)
  }

  lemma ExchangeExactly(s: S.Store, code: string, token: string, nonce: string, now: int)
    requires S.RowsKeyed(s) && S.CodesExact(s)
    ensures S.MemExchange(s, code, token, nonce, now).1 <==>
            code in s.codes && s.rows[s.codes[code]].state == S.Pending
            && now <= s.rows[s.codes[code]].createdAt + 900_000_000_000
  {
    if code in s.codes {
      UsableExactly(s, s.codes[code], now);
    }
  }

  lemma ConsumeExactly(s: S.Store, token: string, cred: string, now: int)
    requires S.RowsKeyed(s) && S.TokensCover(s)
    ensures S.MemConsume(s, token, cred, now).1.Some? <==>
            token in s.tokens && s.rows[s.tokens[token]].state == S.Pending
            && now <= s.rows[s.tokens[token]].createdAt + 900_000_000_000
  {
    if token in s.tokens {
      UsableExactly(s, s.tokens[token], now);
    }
  }

  /** The session that was opened keeps its opening time, and its code leads to it. */
  lemma OpenedThen(ws: seq<World>, es: seq<Timed>, i: nat, n: nat, sid: string)
    requires IsRun(ws, es) && i < n < |ws| && sid !in ws[i].store.rows && sid in ws[i + 1].store.rows
    ensures sid in ws[n].store.rows && ws[n].store.rows[sid].createdAt == es[i].at
    ensures ws[n].store.rows[sid].code == ws[i + 1].store.rows[sid].code
  {
    RunStep(ws, es, i);
    OpenedNow(ws[i], es[i].e, es[i].at, sid);
    RunAdvances(ws, es, i + 1, n);
    assert Later(ws[i + 1].store.rows[sid], ws[n].store.rows[sid]);
  }

  /** Over every run and every interleaving: the code of a session can be exchanged at a moment if and
      only if that is no later than fifteen minutes after the session was opened and no credential was
      handed out for it yet. */
  lemma CodeWindow(ws: seq<World>, es: seq<Timed>, i: nat, n: nat, sid: string, token: string, nonce: string, at: int)
    requires IsRun(ws, es) && i < n < |ws| && sid !in ws[i].store.rows && sid in ws[i + 1].store.rows
    ensures S.MemExchange(ws[n].store, ws[i + 1].store.rows[sid].code, token, nonce, at).1
            <==> StillOpen(ws[n], sid, es[i].at, at)
  {
    OpenedThen(ws, es, i, n, sid);
    RunOk(ws, es, n);
    CodeOpen(ws[n], sid, token, nonce, at);
  }

  lemma CodeOpen(w: World, sid: string, token: string, nonce: string, at: int)
    requires SessionsOk(w) && sid in w.store.rows
    ensures S.MemExchange(w.store, w.store.rows[sid].code, token, nonce, at).1
            <==> StillOpen(w, sid, w.store.rows[sid].createdAt, at)
  {
    ExchangeExactly(w.store, w.store.rows[sid].code, token, nonce, at);
    PendingExactly(w, sid);
  }

  lemma TokenOpen(w: World, sid: string, token: string, cred: string, at: int)
    requires SessionsOk(w) && sid in w.store.rows && token in w.store.tokens && w.store.tokens[token] == sid
    ensures S.MemConsume(w.store, token, cred, at).1.Some? <==> StillOpen(w, sid, w.store.rows[sid].createdAt, at)
  {
    ConsumeExactly(w.store, token, cred, at);
    PendingExactly(w, sid);
  }

  /** The same for every token that a code of the session was exchanged for. */
  lemma TokenWindow(ws: seq<World>, es: seq<Timed>, i: nat, n: nat, sid: string, token: string, cred: string, at: int)
    requires IsRun(ws, es) && i < n < |ws| && sid !in ws[i].store.rows && sid in ws[i + 1].store.rows
    requires token in ws[n].store.tokens && ws[n].store.tokens[token] == sid
    ensures S.MemConsume(ws[n].store, token, cred, at).1.Some? <==> StillOpen(ws[n], sid, es[i].at, at)
  {
    OpenedThen(ws, es, i, n, sid);
    RunOk(ws, es, n);
    TokenOpen(ws[n], sid, token, cred, at);
  }

  /** A code or a token that was never handed out is refused. */
  lemma UnknownRefused(s: S.Store, key: string, token: string, nonce: string, cred: string, now: int)
    ensures key !in s.codes ==> S.MemExchange(s, key, token, nonce, now) == (s, false)
    ensures key !in s.tokens ==> S.MemConsume(s, key, cred, now) == (s, None)
  {
  }
}

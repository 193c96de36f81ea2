/** The two session stores as the objects they are: four maps over shared mutable sessions, and a
    table behind unique columns. Each method is proved against the operation on values. */
module SessionStores {
  import opened Basics
  import opened Sessions

  class SessionObject {
    const id: string
    const depositId: string
    const code: string
    const createdAt: int
    const expiresAt: int
    const validUntil: string
    const index: int
    var accessToken: Option<string>
    var nonce: string
    var state: SessionState
    var credentialId: Option<string>

    constructor (id: string, depositId: string, code: string, nonce: string, now: int, validUntil: string, index: int)
      ensures View() == NewRow(id, code, nonce, depositId, validUntil, index, now)
    {
      this.id, this.depositId, this.code, this.nonce := id, depositId, code, nonce;
      this.createdAt, this.expiresAt := now, now + SESSION_TTL;
      this.validUntil, this.index := validUntil, index;
      state, accessToken, credentialId := Pending, None, None;
    }

    function View(): Row
      reads this
    {
      Row(id, depositId, code, accessToken, nonce, state, createdAt, expiresAt, credentialId, validUntil, index)
    }

    method Grant(token: string, nonce: string)
      modifies this
      ensures View() == old(View()).(token := Some(token), nonce := nonce)
    {
      this.accessToken := Some(token);
      this.nonce := nonce;
    }

    method MarkConsumed(cred: string)
      modifies this
      ensures View() == old(View()).(state := Consumed, cred := Some(cred))
    {
      state := Consumed;
      credentialId := Some(cred);
    }

    method MarkRevoked()
      modifies this
      ensures View() == old(View()).(state := Revoked)
    {
      state := Revoked;
    }
  }

  // ---------------------------------------------------------------- the in-memory store

  /** A pointer map that follows an id map: every key leads to the session with the recorded id. */
  ghost predicate Follows(pointers: map<string, SessionObject>, ids: map<string, string>, byId: map<string, SessionObject>)
  {
    && pointers.Keys == ids.Keys
    && forall k :: k in ids ==> ids[k] in byId && pointers[k] == byId[ids[k]]
  }

  lemma FollowsGrown(pointers: map<string, SessionObject>, ids: map<string, string>, byId: map<string, SessionObject>,
                     id: string, sess: SessionObject)
    requires Follows(pointers, ids, byId) && id !in byId
    ensures Follows(pointers, ids, byId[id := sess])
  {
  }

  lemma FollowsNew(pointers: map<string, SessionObject>, ids: map<string, string>, byId: map<string, SessionObject>,
                   key: string, id: string)
    requires Follows(pointers, ids, byId) && id in byId
    ensures Follows(pointers[key := byId[id]], ids[key := id], byId)
  {
  }

  /** The credential was registered for the session. */
  ghost predicate Reaches(s: Store, cs: seq<string>, id: string)
  {
    exists c :: c in cs && c in s.creds && s.creds[c] == id
  }

  function RevokeOne(s: Store, c: string, dep: string): Store
  {
    if c in s.creds && s.creds[c] in s.rows && s.rows[s.creds[c]].depositId == dep
    then s.(rows := s.rows[s.creds[c] := s.rows[s.creds[c]].(state := Revoked)]) else s
  }

  /** The store once the revoking loop has passed these credentials. */
  function RevokeSome(s: Store, cs: seq<string>, dep: string): Store
  {
    if cs == [] then s else RevokeOne(RevokeSome(s, cs[..|cs| - 1], dep), cs[|cs| - 1], dep)
  }

  lemma RevokeSomeMore(s: Store, cs: seq<string>, c: string, dep: string)
    ensures RevokeSome(s, cs + [c], dep) == RevokeOne(RevokeSome(s, cs, dep), c, dep)
  {
    assert (cs + [c])[..|cs|] == cs;
  }

  lemma {:induction false} RevokeSomeRows(s: Store, cs: seq<string>, dep: string)
    ensures var t := RevokeSome(s, cs, dep);
            && t == s.(rows := t.rows) && t.rows.Keys == s.rows.Keys
            && forall id :: id in s.rows ==>
                 t.rows[id] == if s.rows[id].depositId == dep && Reaches(s, cs, id)
                               then s.rows[id].(state := Revoked) else s.rows[id]
  {
    if cs != [] {
      var init, c := cs[..|cs| - 1], cs[|cs| - 1];
      RevokeSomeRows(s, init, dep);
      forall id | id in s.rows ensures Reaches(s, cs, id) <==> Reaches(s, init, id) || (c in s.creds && s.creds[c] == id) {
        ReachesMore(s, init, c, id);
        assert init + [c] == cs;
      }
    }
  }

  lemma ReachesMore(s: Store, cs: seq<string>, c: string, id: string)
    ensures Reaches(s, cs + [c], id) <==> Reaches(s, cs, id) || (c in s.creds && s.creds[c] == id)
  {
    if Reaches(s, cs, id) {
      var b :| b in cs && b in s.creds && s.creds[b] == id;
      assert b in cs + [c];
    }
    assert c in cs + [c];
  }

  /** Once the loop has passed every registered credential, in whatever order, the deposit's
      registered sessions are revoked and nothing else. */
  lemma RevokeSomeAll(s: Store, cs: seq<string>, dep: string)
    requires forall c :: c in s.creds ==> c in cs
    ensures RevokeSome(s, cs, dep) == MemRevoke(s, dep)
  {
    RevokeSomeRows(s, cs, dep);
    forall id | id in s.rows ensures Reaches(s, cs, id) <==> id in s.creds.Values {
      if id in s.creds.Values {
        var c :| c in s.creds && s.creds[c] == id;
        assert c in cs;
      }
    }
    assert RevokeSome(s, cs, dep).rows == MemRevoke(s, dep).rows;
  }

  /** A successful exchange, as the two writes that make it up. */
  lemma ExchangeWrites(s: Store, s1: Store, s2: Store, code: string, token: string, nonce: string, now: int)
    requires code in s.codes && s.codes[code] in s.rows && Usable(s.rows[s.codes[code]], now)
    requires s1 == s.(rows := s.rows[s.codes[code] := s.rows[s.codes[code]].(token := Some(token), nonce := nonce)])
    requires s2 == s1.(tokens := s1.tokens[token := s.codes[code]])
    ensures MemExchange(s, code, token, nonce, now) == (s2, true)
  {
  }

  /** A successful consumption, likewise. */
  lemma ConsumeWrites(s: Store, s1: Store, s2: Store, token: string, cred: string, now: int)
    requires token in s.tokens && s.tokens[token] in s.rows && Usable(s.rows[s.tokens[token]], now)
    requires s1 == s.(rows := s.rows[s.tokens[token] := s.rows[s.tokens[token]].(state := Consumed, cred := Some(cred))])
    requires s2 == s1.(creds := s1.creds[cred := s.tokens[token]])
    ensures MemConsume(s, token, cred, now) == (s2, Some(s2.rows[s.tokens[token]]))
  {
  }

  class MemoryStore {
    var byId: map<string, SessionObject>
    var byCode: map<string, SessionObject>
    var byToken: map<string, SessionObject>
    var byCred: map<string, SessionObject>
    ghost var model: Store
    ghost var sessions: set<SessionObject>

    /** The session objects hold exactly the rows of the model. */
    ghost predicate Holds(rows: Table)
      reads this`byId, this`sessions, sessions
    {
      && rows.Keys == byId.Keys
      && forall k :: k in byId ==> byId[k] in sessions && byId[k].id == k && byId[k].View() == rows[k]
    }

    ghost predicate Valid()
      reads this, sessions
    {
      Holds(model.rows) && Indexed()
    }

    constructor ()
      ensures Valid() && model == EMPTY_STORE && Consistent(model)
    {
      byId, byCode, byToken, byCred := map[], map[], map[], map[];
      model, sessions := EMPTY_STORE, {};
    }

    /** The three maps that lead to sessions follow the ids of the model. */
    ghost predicate Indexed()
      reads this
    {
      Follows(byCode, model.codes, byId) && Follows(byToken, model.tokens, byId) && Follows(byCred, model.creds, byId)
    }

    method Enter(sess: SessionObject)
      requires Valid() && sess.id !in byId && sess !in sessions
      modifies this`byId, this`model, this`sessions
      ensures Valid() && sessions == old(sessions) + {sess} && byId == old(byId)[sess.id := sess]
      ensures model == old(model).(rows := old(model).rows[sess.id := sess.View()])
    {
      FollowsGrown(byCode, model.codes, byId, sess.id, sess);
      FollowsGrown(byToken, model.tokens, byId, sess.id, sess);
      FollowsGrown(byCred, model.creds, byId, sess.id, sess);
      EnterRow(sess);
    }

    method EnterRow(sess: SessionObject)
      requires Holds(model.rows) && sess !in sessions && sess.id !in byId
      modifies this`byId, this`model, this`sessions
      ensures Holds(model.rows) && sessions == old(sessions) + {sess} && byId == old(byId)[sess.id := sess]
      ensures model == old(model).(rows := old(model).rows[sess.id := sess.View()])
    {
      byId := byId[sess.id := sess];
      sessions := sessions + {sess};
      model := model.(rows := model.rows[sess.id := sess.View()]);
    }

    method Create(dep: string, validUntil: string, index: int, now: int, id: string, code: string, nonce: string)
      returns (sess: SessionObject)
      requires Valid() && id !in model.rows && code !in model.codes
      modifies this
      ensures Valid() && fresh(sess) && sessions == old(sessions) + {sess}
      ensures model == MemCreate(old(model), NewRow(id, code, nonce, dep, validUntil, index, now))
      ensures sess.View() == Row(id, dep, code, None, nonce, Pending, now, now + 900_000_000_000, None, validUntil, index)
    {
      sess := new SessionObject(id, dep, code, nonce, now, validUntil, index);
      Enter(sess);
      PointCode(code, sess, id);
    }

    method PointCode(code: string, sess: SessionObject, ghost id: string)
      requires Valid() && id in byId && sess == byId[id]
      modifies this`byCode, this`model
      ensures Valid() && model == old(model).(codes := old(model).codes[code := id])
    {
      FollowsNew(byCode, model.codes, byId, code, id);
      byCode := byCode[code := sess];
      model := model.(codes := model.codes[code := id]);
    }

    method GetByToken(token: string) returns (sess: Option<SessionObject>)
      requires Valid()
      ensures sess.Some? ==> sess.value in sessions
      ensures (if sess.Some? then Some(sess.value.View()) else None) == Deref(model, model.tokens, token)
    {
      if token in byToken {
        assert byToken[token] == byId[model.tokens[token]];
        sess := Some(byToken[token]);
      } else {
        sess := None;
      }
    }

    method PointToken(token: string, sess: SessionObject, ghost id: string)
      requires Valid() && id in byId && sess == byId[id]
      modifies this`byToken, this`model
      ensures Valid() && model == old(model).(tokens := old(model).tokens[token := id])
    {
      FollowsNew(byToken, model.tokens, byId, token, id);
      byToken := byToken[token := sess];
      model := model.(tokens := model.tokens[token := id]);
    }

    method PointCred(cred: string, sess: SessionObject, ghost id: string)
      requires Valid() && id in byId && sess == byId[id]
      modifies this`byCred, this`model
      ensures Valid() && model == old(model).(creds := old(model).creds[cred := id])
    {
      FollowsNew(byCred, model.creds, byId, cred, id);
      byCred := byCred[cred := sess];
      model := model.(creds := model.creds[cred := id]);
    }

    method GrantToken(sess: SessionObject, ghost id: string, token: string, nonce: string)
      requires Valid() && id in byId && sess == byId[id]
      modifies this`model, sess
      ensures Valid()
      ensures model == old(model).(rows := old(model).rows[id := old(model).rows[id].(token := Some(token), nonce := nonce)])
    {
      sess.Grant(token, nonce);
      model := model.(rows := model.rows[id := sess.View()]);
    }

    method Consume(sess: SessionObject, ghost id: string, cred: string)
      requires Valid() && id in byId && sess == byId[id]
      modifies this`model, sess
      ensures Valid()
      ensures model == old(model).(rows := old(model).rows[id := old(model).rows[id].(state := Consumed, cred := Some(cred))])
    {
      sess.MarkConsumed(cred);
      model := model.(rows := model.rows[id := sess.View()]);
    }

    /** The session under a code, if it can still be used. */
    method UsableByCode(code: string, now: int) returns (sess: Option<SessionObject>)
      requires Valid()
      ensures sess.Some? <==> code in model.codes && model.codes[code] in model.rows && Usable(model.rows[model.codes[code]], now)
      ensures sess.Some? ==> model.codes[code] in byId && sess.value == byId[model.codes[code]]
    {
      if code !in byCode || byCode[code].state != Pending || now > byCode[code].expiresAt {
        return None;
      }
      return Some(byCode[code]);
    }

    /** The session under a token, superseded or not, if it can still be used. */
    method UsableByToken(token: string, now: int) returns (sess: Option<SessionObject>)
      requires Valid()
      ensures sess.Some? <==> token in model.tokens && model.tokens[token] in model.rows && Usable(model.rows[model.tokens[token]], now)
      ensures sess.Some? ==> model.tokens[token] in byId && sess.value == byId[model.tokens[token]]
    {
      if token !in byToken || byToken[token].state != Pending || now > byToken[token].expiresAt {
        return None;
      }
      return Some(byToken[token]);
    }

    method ExchangeCodeForToken(code: string, now: int, token: string, nonce: string) returns (ok: bool)
      requires Valid()
      modifies this`byToken, this`model, sessions
      ensures Valid()
      ensures (model, ok) == MemExchange(old(model), code, token, nonce, now)
    {
      var sess := UsableByCode(code, now);
      if sess.None? {
        return false;
      }
      ghost var id := model.codes[code];
      ghost var before := model;
      GrantToken(sess.value, id, token, nonce);
      ghost var granted := model;
      PointToken(token, sess.value, id);
      ExchangeWrites(before, granted, model, code, token, nonce, now);
      return true;
    }

    method ConsumeByToken(token: string, credentialId: string, now: int) returns (sess: Option<SessionObject>)
      requires Valid()
      modifies this`byCred, this`model, sessions
      ensures Valid()
      ensures sess.Some? ==> sess.value in sessions
      ensures (model, if sess.Some? then Some(sess.value.View()) else None) == MemConsume(old(model), token, credentialId, now)
    {
      sess := UsableByToken(token, now);
      if sess.None? {
        return;
      }
      ghost var id := model.tokens[token];
      ghost var before := model;
      Consume(sess.value, id, credentialId);
      ghost var consumed := model;
      PointCred(credentialId, sess.value, id);
      ConsumeWrites(before, consumed, model, token, credentialId, now);
      assert sess.value.View() == model.rows[id];
    }

    method Revoke(sess: SessionObject, ghost id: string)
      requires Valid() && id in byId && sess == byId[id]
      modifies this`model, sess
      ensures Valid()
      ensures model == old(model).(rows := old(model).rows[id := old(model).rows[id].(state := Revoked)])
    {
      sess.MarkRevoked();
      model := model.(rows := model.rows[id := sess.View()]);
    }

    method RevokeIssued(c: string, dep: string)
      requires Valid() && c in byCred
      modifies this`model, sessions
      ensures Valid() && model == RevokeOne(old(model), c, dep)
    {
      var sess := byCred[c];
      if sess.depositId == dep {
        Revoke(sess, model.creds[c]);
      }
    }

    method RevokeByDepositId(dep: string)
      requires Valid()
      modifies this`model, sessions
      ensures Valid() && model == MemRevoke(old(model), dep)
    {
      ghost var start, done := model, [];
      var todo := byCred.Keys;
      while todo != {}
        invariant Valid() && todo <= byCred.Keys
        invariant forall c :: c in byCred ==> c in todo || c in done
        invariant model == RevokeSome(start, done, dep)
        decreases todo
      {
        var c :| c in todo;
        RevokeSomeMore(start, done, c, dep);
        RevokeIssued(c, dep);
        todo, done := todo - {c}, done + [c];
      }
      RevokeSomeAll(start, done, dep);
    }

    method RevokedStatusListIndices() returns (out: seq<int>)
      requires Valid()
      ensures forall v :: v in out <==> v in MemRevoked(model)
    {
      out := [];
      var todo := byCred.Keys;
      while todo != {}
        invariant todo <= byCred.Keys
        invariant forall v :: v in out ==> v in MemRevoked(model)
        invariant forall c :: c in byCred.Keys && c !in todo && byCred[c].state == Revoked ==> byCred[c].index in out
        decreases todo
      {
        var c :| c in todo;
        assert byCred[c] == byId[model.creds[c]];
        if byCred[c].state == Revoked {
          out := out + [byCred[c].index];
        }
        todo := todo - {c};
      }
      forall v | v in MemRevoked(model) ensures v in out {
        var c :| c in model.creds && model.rows[model.creds[c]].state == Revoked && model.rows[model.creds[c]].index == v;
        assert byCred[c] == byId[model.creds[c]];
      }
    }

    method CredentialStatus(cred: string) returns (status: string, found: bool)
      requires Valid()
      ensures CredStatus(status, found) == Report(Deref(model, model.creds, cred))
      ensures found <==> cred in model.creds
      ensures status == if cred !in model.creds then "unknown"
                        else if model.rows[model.creds[cred]].state == Revoked then "revoked" else "active"
    {
      if cred !in byCred {
        return "unknown", false;
      }
      assert byCred[cred] == byId[model.creds[cred]];
      if byCred[cred].state == Revoked {
        return "revoked", true;
      }
      return "active", true;
    }
  }

  // ---------------------------------------------------------------- the table

  /** The primary key and the three UNIQUE columns. */
  ghost predicate Constraints(t: Table)
  {
    && (forall id :: id in t ==> t[id].id == id)
    && (forall a, b, w :: a in t && b in t && Matches(t[a], w) && Matches(t[b], w) ==> a == b)
  }

  lemma ConstraintsKept(t: Table, op: Op, now: int)
    requires Constraints(t)
    ensures Constraints(SqlDo(t, op, now).0)
  {
    var t' := SqlDo(t, op, now).0;
    forall a, b, w | a in t' && b in t' && Matches(t'[a], w) && Matches(t'[b], w) ensures a == b {
      if a in t && b in t && Matches(t[a], w) && Matches(t[b], w) {
      } else {
        NewMatch(t, op, now, a, w);
        NewMatch(t, op, now, b, w);
      }
    }
  }

  /** A row that starts to match a clause is the one that the statement wrote, and none matched before. */
  lemma NewMatch(t: Table, op: Op, now: int, a: string, w: Where)
    requires Constraints(t)
    requires a in SqlDo(t, op, now).0 && Matches(SqlDo(t, op, now).0[a], w)
    ensures (a in t && Matches(t[a], w))
         || (match op
             case Create(id, _, _, _, _, _) => a == id && Select(t, w).None?
             case Exchange(code, token, _) => w == TokenIs(token) && Select(t, w).None? && Select(t, CodeIs(code)) == Some(t[a])
             case Consume(token, cred) => w == CredIs(cred) && Select(t, w).None? && Select(t, TokenIs(token)) == Some(t[a])
             case _ => false)
  {
  }

  class TableStore {
    var table: Table

    constructor ()
      ensures table == map[] && Constraints(table)
    {
      table := map[];
    }

    /** `SELECT … WHERE` as a scan. */
    method QueryOne(w: Where) returns (hit: Option<Row>)
      requires Constraints(table)
      ensures hit == Select(table, w)
    {
      var todo := table.Keys;
      while todo != {}
        invariant todo <= table.Keys
        invariant forall id :: id in table && id !in todo ==> !Matches(table[id], w)
        decreases todo
      {
        var id :| id in todo;
        if Matches(table[id], w) {
          return Some(table[id]);
        }
        todo := todo - {id};
      }
      return None;
    }

    method ExchangeCodeForToken(code: string, now: int, token: string, nonce: string) returns (ok: bool)
      requires Constraints(table)
      modifies this
      ensures Constraints(table)
      ensures (table, Exchanged(ok)) == SqlDo(old(table), Op.Exchange(code, token, nonce), now)
    {
      ConstraintsKept(table, Op.Exchange(code, token, nonce), now);
      var hit := QueryOne(CodeIs(code));
      if hit.None? || hit.value.state != Pending || now > hit.value.expiresAt {
        return false;
      }
      var clash := QueryOne(TokenIs(token));
      if clash.Some? {
        return false;
      }
      table := table[hit.value.id := hit.value.(token := Some(token), nonce := nonce)];
      return true;
    }

    method ConsumeByToken(token: string, cred: string, now: int) returns (sess: Option<Row>)
      requires Constraints(table)
      modifies this
      ensures Constraints(table)
      ensures (table, Session(sess)) == SqlDo(old(table), Consume(token, cred), now)
    {
      ConstraintsKept(table, Consume(token, cred), now);
      var hit := QueryOne(TokenIs(token));
      if hit.None? || hit.value.state != Pending || now > hit.value.expiresAt {
        return None;
      }
      var clash := QueryOne(CredIs(cred));
      if clash.Some? {
        return None;
      }
      var row := hit.value.(state := Consumed, cred := Some(cred));
      table := table[row.id := row];
      return Some(row);
    }

    /** The revoking `UPDATE`, row by row. */
    method RevokeByDepositId(dep: string)
      requires Constraints(table)
      modifies this
      ensures Constraints(table)
      ensures table == SqlRevoke(old(table), dep)
      ensures table == SqlDo(old(table), RevokeDeposit(dep), 0).0
    {
      ghost var start := table;
      ConstraintsKept(table, RevokeDeposit(dep), 0);
      var todo := table.Keys;
      while todo != {}
        invariant todo <= start.Keys && table.Keys == start.Keys
        invariant forall id :: id in start ==> table[id] == if id in todo then start[id] else SqlRevoke(start, dep)[id]
        decreases todo
      {
        var id :| id in todo;
        if table[id].depositId == dep && table[id].state == Consumed {
          table := table[id := table[id].(state := Revoked)];
        }
        todo := todo - {id};
      }
      assert table == SqlRevoke(start, dep);
    }
  }
}

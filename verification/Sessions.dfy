/** Issuance sessions as values: the single session table, the four-map index over it, and the
    proof that the index gives the answers of a table scan. */
module Sessions {
  import opened Basics

  /** Fifteen minutes, in nanoseconds. */
  const SESSION_TTL: int := 15 * 60 * 1_000_000_000

  datatype SessionState = Pending | Consumed | Revoked

  datatype Row = Row(
    id: string, depositId: string, code: string, token: Option<string>, nonce: string,
    state: SessionState, createdAt: int, expiresAt: int, cred: Option<string>,
    validUntil: string, index: int)

  type Table = map<string, Row>

  function NewRow(id: string, code: string, nonce: string, dep: string, validUntil: string, index: int, now: int): Row
  {
    Row(id, dep, code, None, nonce, Pending, now, now + SESSION_TTL, None, validUntil, index)
  }

  predicate Usable(r: Row, now: int)
  {
    r.state == Pending && now <= r.expiresAt
  }

  // ---------------------------------------------------------------- operations and results

  /** One call on a session store. Fresh UUIDs and the clock are inputs. */
  datatype Op =
    | Create(id: string, code: string, nonce: string, dep: string, validUntil: string, index: int)
    | GetById(id: string)
    | GetByCode(code: string)
    | GetByToken(token: string)
    | Exchange(code: string, token: string, nonce: string)
    | Consume(token: string, cred: string)
    | RevokeDeposit(dep: string)
    | Status(cred: string)
    | RevokedIndices

  datatype Res =
    | Session(row: Option<Row>)
    | Exchanged(ok: bool)
    | Done
    | CredStatus(status: string, found: bool)
    | Indices(indices: set<int>)

  function Report(r: Option<Row>): Res
  {
    match r
    case None => CredStatus("unknown", false)
    case Some(row) => CredStatus(if row.state == Revoked then "revoked" else "active", true)
  }

  // ---------------------------------------------------------------- the table

  /** A `WHERE` clause on one of the UNIQUE columns. */
  datatype Where = CodeIs(value: string) | TokenIs(value: string) | CredIs(value: string)

  predicate Matches(r: Row, w: Where)
  {
    match w
    case CodeIs(v) => r.code == v
    case TokenIs(v) => r.token == Some(v)
    case CredIs(v) => r.cred == Some(v)
  }

  /** The row that a scan of the table finds, if any. */
  ghost function Select(t: Table, w: Where): Option<Row>
  {
    if exists id :: id in t && Matches(t[id], w) then
      var id :| id in t && Matches(t[id], w);
      Some(t[id])
    else None
  }

  /** The revoking `UPDATE`: issued credentials of the deposit, nothing else. */
  function SqlRevoke(t: Table, dep: string): Table
  {
    map id | id in t :: if t[id].depositId == dep && t[id].state == Consumed then t[id].(state := Revoked) else t[id]
  }

  function SqlRevoked(t: Table): set<int>
  {
    set id | id in t && t[id].state == Revoked :: t[id].index
  }

  /** One statement or transaction on the table. A violated UNIQUE constraint aborts it. */
  ghost function SqlDo(t: Table, op: Op, now: int): (Table, Res)
  {
    match op
    case Create(id, code, nonce, dep, validUntil, index) =>
      if id in t || Select(t, CodeIs(code)).Some? then (t, Session(None))
      else (t[id := NewRow(id, code, nonce, dep, validUntil, index, now)],
            Session(Some(NewRow(id, code, nonce, dep, validUntil, index, now))))
    case GetById(id) => (t, Session(if id in t then Some(t[id]) else None))
    case GetByCode(code) => (t, Session(Select(t, CodeIs(code))))
    case GetByToken(token) => (t, Session(Select(t, TokenIs(token))))
    case Exchange(code, token, nonce) =>
      var hit := Select(t, CodeIs(code));
      if hit.None? || !Usable(hit.value, now) || Select(t, TokenIs(token)).Some? then (t, Exchanged(false))
      else (t[hit.value.id := hit.value.(token := Some(token), nonce := nonce)], Exchanged(true))
    case Consume(token, cred) =>
      var hit := Select(t, TokenIs(token));
      if hit.None? || !Usable(hit.value, now) || Select(t, CredIs(cred)).Some? then (t, Session(None))
      else
        var row := hit.value.(state := Consumed, cred := Some(cred));
        (t[row.id := row], Session(Some(row)))
    case RevokeDeposit(dep) => (SqlRevoke(t, dep), Done)
    case Status(cred) => (t, Report(Select(t, CredIs(cred))))
    case RevokedIndices => (t, Indices(SqlRevoked(t)))
  }

  // ---------------------------------------------------------------- the four maps

  /** The in-memory store with session pointers written as session ids: `rows` is the id map; a
      token stays in `tokens` when a later exchange replaces it in its row. */
  datatype Store = Store(rows: Table, codes: map<string, string>, tokens: map<string, string>, creds: map<string, string>)

  const EMPTY_STORE := Store(map[], map[], map[], map[])

  function Deref(s: Store, index: map<string, string>, key: string): Option<Row>
  {
    if key in index && index[key] in s.rows then Some(s.rows[index[key]]) else None
  }

  /** The loop over issued credentials. */
  function MemRevoke(s: Store, dep: string): Store
  {
    s.(rows := map id | id in s.rows ::
         if s.rows[id].depositId == dep && id in s.creds.Values then s.rows[id].(state := Revoked) else s.rows[id])
  }

  function MemRevoked(s: Store): set<int>
  {
    set c | c in s.creds && s.creds[c] in s.rows && s.rows[s.creds[c]].state == Revoked :: s.rows[s.creds[c]].index
  }

  function MemExchange(s: Store, code: string, token: string, nonce: string, now: int): (Store, bool)
  {
    var hit := Deref(s, s.codes, code);
    if hit.None? || !Usable(hit.value, now) then (s, false)
    else (s.(rows := s.rows[s.codes[code] := hit.value.(token := Some(token), nonce := nonce)],
             tokens := s.tokens[token := s.codes[code]]), true)
  }

  function MemConsume(s: Store, token: string, cred: string, now: int): (Store, Option<Row>)
  {
    var hit := Deref(s, s.tokens, token);
    if hit.None? || !Usable(hit.value, now) then (s, None)
    else
      var row := hit.value.(state := Consumed, cred := Some(cred));
      (s.(rows := s.rows[s.tokens[token] := row], creds := s.creds[cred := s.tokens[token]]), Some(row))
  }

  function MemCreate(s: Store, row: Row): Store
  {
    s.(rows := s.rows[row.id := row], codes := s.codes[row.code := row.id])
  }

  function MemDo(s: Store, op: Op, now: int): (Store, Res)
  {
    match op
    case Create(id, code, nonce, dep, validUntil, index) =>
      var row := NewRow(id, code, nonce, dep, validUntil, index, now);
      (MemCreate(s, row), Session(Some(row)))
    case GetById(id) => (s, Session(if id in s.rows then Some(s.rows[id]) else None))
    case GetByCode(code) => (s, Session(Deref(s, s.codes, code)))
    case GetByToken(token) => (s, Session(Deref(s, s.tokens, token)))
    case Exchange(code, token, nonce) =>
      var (s', ok) := MemExchange(s, code, token, nonce, now);
      (s', Exchanged(ok))
    case Consume(token, cred) =>
      var (s', row) := MemConsume(s, token, cred, now);
      (s', Session(row))
    case RevokeDeposit(dep) => (MemRevoke(s, dep), Done)
    case Status(cred) => (s, Report(Deref(s, s.creds, cred)))
    case RevokedIndices => (s, Indices(MemRevoked(s)))
  }

  // ---------------------------------------------------------------- the index invariant

  ghost predicate RowsKeyed(s: Store)
  {
    forall id :: id in s.rows ==> s.rows[id].id == id && s.rows[id].expiresAt == s.rows[id].createdAt + SESSION_TTL
  }

  ghost predicate CodesExact(s: Store)
  {
    && (forall c :: c in s.codes ==> s.codes[c] in s.rows && s.rows[s.codes[c]].code == c)
    && (forall id :: id in s.rows ==> s.rows[id].code in s.codes && s.codes[s.rows[id].code] == id)
  }

  ghost predicate TokensCover(s: Store)
  {
    && (forall t :: t in s.tokens ==> s.tokens[t] in s.rows && s.rows[s.tokens[t]].token.Some?)
    && (forall id :: id in s.rows && s.rows[id].token.Some? ==>
          s.rows[id].token.value in s.tokens && s.tokens[s.rows[id].token.value] == id)
  }

  ghost predicate CredsExact(s: Store)
  {
    && (forall c :: c in s.creds ==> s.creds[c] in s.rows && s.rows[s.creds[c]].cred == Some(c))
    && (forall id :: id in s.rows && s.rows[id].cred.Some? ==>
          s.rows[id].cred.value in s.creds && s.creds[s.rows[id].cred.value] == id)
    && (forall id :: id in s.rows ==> (s.rows[id].state == Pending <==> s.rows[id].cred.None?))
  }

  ghost predicate Consistent(s: Store)
  {
    RowsKeyed(s) && CodesExact(s) && TokensCover(s) && CredsExact(s)
  }

  /** UUIDs that the operation draws have not been seen by the store. */
  predicate Fresh(s: Store, op: Op)
  {
    match op
    case Create(id, code, _, _, _, _) => id !in s.rows && code !in s.codes
    case Exchange(_, token, _) => token !in s.tokens
    case Consume(_, cred) => cred !in s.creds
    case _ => true
  }

  lemma CodesKept(s: Store, s': Store)
    requires CodesExact(s) && s'.codes == s.codes && s'.rows.Keys == s.rows.Keys
    requires forall id :: id in s.rows ==> s'.rows[id].code == s.rows[id].code
    ensures CodesExact(s')
  {
  }

  lemma TokensKept(s: Store, s': Store)
    requires TokensCover(s) && s'.tokens == s.tokens && s'.rows.Keys == s.rows.Keys
    requires forall id :: id in s.rows ==> s'.rows[id].token == s.rows[id].token
    ensures TokensCover(s')
  {
  }

  lemma CredsKept(s: Store, s': Store)
    requires CredsExact(s) && s'.creds == s.creds && s'.rows.Keys == s.rows.Keys
    requires forall id :: id in s.rows ==>
               s'.rows[id].cred == s.rows[id].cred && (s'.rows[id].state == Pending <==> s.rows[id].state == Pending)
    ensures CredsExact(s')
  {
  }

  lemma CredRegistered(s: Store, id: string, cred: string, row: Row)
    requires CredsExact(s) && id in s.rows && s.rows[id].state == Pending && cred !in s.creds
    requires row.cred == Some(cred) && row.state != Pending
    ensures CredsExact(s.(rows := s.rows[id := row], creds := s.creds[cred := id]))
  {
    forall c | c in s.creds ensures s.creds[c] != id {
      assert s.rows[s.creds[c]].cred == Some(c);
    }
  }

  lemma ConsistentStep(s: Store, op: Op, now: int)
    requires Consistent(s) && Fresh(s, op)
    ensures Consistent(MemDo(s, op, now).0)
  {
    match op {
      case Create(id, code, nonce, dep, validUntil, index) =>
        CreateConsistent(s, NewRow(id, code, nonce, dep, validUntil, index, now));
      case Exchange(code, token, nonce) => ExchangeConsistent(s, code, token, nonce, now);
      case Consume(token, cred) => ConsumeConsistent(s, token, cred, now);
      case RevokeDeposit(dep) => RevokeConsistent(s, dep);
      case _ =>
    }
  }

  lemma CreateConsistent(s: Store, row: Row)
    requires Consistent(s) && row.id !in s.rows && row.code !in s.codes
    requires row.token.None? && row.cred.None? && row.state == Pending && row.expiresAt == row.createdAt + SESSION_TTL
    ensures Consistent(MemCreate(s, row))
  {
    CodeEntered(s, row);
    TokensGrown(s, row);
    CredsGrown(s, row);
  }

  lemma CodeEntered(s: Store, row: Row)
    requires CodesExact(s) && row.id !in s.rows && row.code !in s.codes
    ensures CodesExact(MemCreate(s, row))
  {
  }

  lemma TokensGrown(s: Store, row: Row)
    requires TokensCover(s) && row.id !in s.rows && row.token.None?
    ensures TokensCover(MemCreate(s, row))
  {
  }

  lemma CredsGrown(s: Store, row: Row)
    requires CredsExact(s) && row.id !in s.rows && row.cred.None? && row.state == Pending
    ensures CredsExact(MemCreate(s, row))
  {
  }

  lemma TokenGranted(s: Store, id: string, token: string, row: Row)
    requires TokensCover(s) && id in s.rows && token !in s.tokens && row.token == Some(token)
    ensures TokensCover(s.(rows := s.rows[id := row], tokens := s.tokens[token := id]))
  {
  }

  lemma GrantKeeps(s: Store, id: string, row: Row, tokens: map<string, string>)
    requires RowsKeyed(s) && CodesExact(s) && CredsExact(s) && id in s.rows
    requires row == s.rows[id].(token := row.token, nonce := row.nonce)
    ensures var s' := s.(rows := s.rows[id := row], tokens := tokens);
            RowsKeyed(s') && CodesExact(s') && CredsExact(s')
  {
    var s' := s.(rows := s.rows[id := row], tokens := tokens);
    CodesKept(s, s');
    CredsKept(s, s');
  }

  lemma GrantConsistent(s: Store, id: string, token: string, row: Row)
    requires Consistent(s) && id in s.rows && token !in s.tokens
    requires row == s.rows[id].(token := Some(token), nonce := row.nonce)
    ensures Consistent(s.(rows := s.rows[id := row], tokens := s.tokens[token := id]))
  {
    GrantKeeps(s, id, row, s.tokens[token := id]);
    TokenGranted(s, id, token, row);
  }

  lemma ExchangeConsistent(s: Store, code: string, token: string, nonce: string, now: int)
    requires Consistent(s) && token !in s.tokens
    ensures Consistent(MemExchange(s, code, token, nonce, now).0)
  {
    if MemExchange(s, code, token, nonce, now).1 {
      var id := s.codes[code];
      GrantConsistent(s, id, token, s.rows[id].(token := Some(token), nonce := nonce));
    }
  }

  lemma ConsumeConsistent(s: Store, token: string, cred: string, now: int)
    requires Consistent(s) && cred !in s.creds
    ensures Consistent(MemConsume(s, token, cred, now).0)
  {
    var (s', row) := MemConsume(s, token, cred, now);
    if row.Some? {
      CodesKept(s, s');
      TokensKept(s, s');
      CredRegistered(s, s.tokens[token], cred, row.value);
    }
  }

  lemma RegisteredLeftPending(s: Store, id: string)
    requires CredsExact(s) && id in s.rows
    ensures id in s.creds.Values <==> s.rows[id].state != Pending
  {
    if s.rows[id].cred.Some? {
      assert s.creds[s.rows[id].cred.value] == id;
    }
  }

  /** Revocation changes states only, and only of rows that left PENDING. */
  lemma RevokeShape(s: Store, dep: string)
    requires CredsExact(s)
    ensures var s' := MemRevoke(s, dep);
            && s'.codes == s.codes && s'.tokens == s.tokens && s'.creds == s.creds && s'.rows.Keys == s.rows.Keys
            && forall id :: id in s.rows ==>
                 && s'.rows[id] == s.rows[id].(state := s'.rows[id].state)
                 && (s'.rows[id].state == Pending <==> s.rows[id].state == Pending)
  {
    forall id | id in s.rows ensures id in s.creds.Values <==> s.rows[id].state != Pending {
      RegisteredLeftPending(s, id);
    }
  }

  lemma RevokeConsistent(s: Store, dep: string)
    requires Consistent(s)
    ensures Consistent(MemRevoke(s, dep))
  {
    RevokeShape(s, dep);
    CodesKept(s, MemRevoke(s, dep));
    TokensKept(s, MemRevoke(s, dep));
    CredsKept(s, MemRevoke(s, dep));
  }

  // ---------------------------------------------------------------- index agrees with scan

  lemma SelectUnique(t: Table, w: Where, id: string)
    requires id in t && Matches(t[id], w)
    requires forall k :: k in t && Matches(t[k], w) ==> k == id
    ensures Select(t, w) == Some(t[id])
  {
  }

  lemma ScanByCode(s: Store, code: string)
    requires Consistent(s)
    ensures Select(s.rows, CodeIs(code)) == Deref(s, s.codes, code)
  {
    if code in s.codes {
      SelectUnique(s.rows, CodeIs(code), s.codes[code]);
    }
  }

  lemma ScanByCred(s: Store, cred: string)
    requires Consistent(s)
    ensures Select(s.rows, CredIs(cred)) == Deref(s, s.creds, cred)
  {
    if cred in s.creds {
      SelectUnique(s.rows, CredIs(cred), s.creds[cred]);
    }
  }

  /** A token that a later exchange of the same code has replaced. */
  predicate Superseded(s: Store, token: string)
  {
    token in s.tokens && s.tokens[token] in s.rows && s.rows[s.tokens[token]].token != Some(token)
  }

  lemma ScanByToken(s: Store, token: string)
    requires Consistent(s)
    ensures Select(s.rows, TokenIs(token)) == if Superseded(s, token) then None else Deref(s, s.tokens, token)
  {
    if token in s.tokens && !Superseded(s, token) {
      SelectUnique(s.rows, TokenIs(token), s.tokens[token]);
    }
  }

  /** Revocation touches the same rows: a credential is registered exactly when its row left PENDING. */
  lemma RevokeAgrees(s: Store, dep: string)
    requires Consistent(s)
    ensures MemRevoke(s, dep).rows == SqlRevoke(s.rows, dep)
  {
    forall id | id in s.rows ensures id in s.creds.Values <==> s.rows[id].state != Pending {
      RegisteredLeftPending(s, id);
    }
  }

  lemma RevokedAgree(s: Store)
    requires Consistent(s)
    ensures MemRevoked(s) == SqlRevoked(s.rows)
  {
    forall i | i in SqlRevoked(s.rows) ensures i in MemRevoked(s) {
      var id :| id in s.rows && s.rows[id].state == Revoked && s.rows[id].index == i;
      var c := s.rows[id].cred.value;
      assert c in s.creds && s.creds[c] == id;
    }
  }

  /** The operations on which a superseded token makes a difference. */
  predicate ExposesSuperseded(s: Store, op: Op, now: int)
  {
    match op
    case GetByToken(token) => Superseded(s, token)
    case Consume(token, _) => Superseded(s, token) && Usable(s.rows[s.tokens[token]], now)
    case _ => false
  }

  /** The operation gives the same result and the same rows on both sides. */
  ghost predicate Agrees(s: Store, op: Op, now: int)
  {
    MemDo(s, op, now).0.rows == SqlDo(s.rows, op, now).0 && MemDo(s, op, now).1 == SqlDo(s.rows, op, now).1
  }

  lemma ExchangeAgrees(s: Store, code: string, token: string, nonce: string, now: int)
    requires Consistent(s) && token !in s.tokens
    ensures Agrees(s, Exchange(code, token, nonce), now)
  {
    ScanByCode(s, code);
    ScanByToken(s, token);
  }

  lemma ConsumeAgreesExactly(s: Store, token: string, cred: string, now: int)
    requires Consistent(s) && cred !in s.creds
    ensures Agrees(s, Consume(token, cred), now) <==> !ExposesSuperseded(s, Consume(token, cred), now)
  {
    ScanByToken(s, token);
    ScanByCred(s, cred);
  }

  lemma CreateAgrees(s: Store, op: Op, now: int)
    requires Consistent(s) && Fresh(s, op) && op.Create?
    ensures Agrees(s, op, now)
  {
    ScanByCode(s, op.code);
  }

  lemma QueryAgreesExactly(s: Store, op: Op, now: int)
    requires Consistent(s) && (op.GetById? || op.GetByCode? || op.GetByToken? || op.Status?)
    ensures Agrees(s, op, now) <==> !ExposesSuperseded(s, op, now)
  {
    match op {
      case GetByCode(code) => ScanByCode(s, code);
      case GetByToken(token) => ScanByToken(s, token);
      case Status(cred) => ScanByCred(s, cred);
      case GetById(_) =>
    }
  }

  /** On a consistent store one operation gives the table's answer and the table's next state if and
      only if it does not lean on a superseded token. */
  lemma StepAgreesExactly(s: Store, op: Op, now: int)
    requires Consistent(s) && Fresh(s, op)
    ensures Agrees(s, op, now) <==> !ExposesSuperseded(s, op, now)
  {
    match op {
      case Create(_, _, _, _, _, _) => CreateAgrees(s, op, now);
      case Exchange(code, token, nonce) => ExchangeAgrees(s, code, token, nonce, now);
      case Consume(token, cred) => ConsumeAgreesExactly(s, token, cred, now);
      case RevokeDeposit(dep) => RevokeAgrees(s, dep);
      case RevokedIndices => RevokedAgree(s);
      case _ => QueryAgreesExactly(s, op, now);
    }
  }

  // ---------------------------------------------------------------- whole runs

  datatype Call = Call(op: Op, at: int)

  function MemRun(s: Store, cs: seq<Call>): (Store, seq<Res>)
    decreases |cs|
  {
    if cs == [] then (s, [])
    else
      var (s1, r) := MemDo(s, cs[0].op, cs[0].at);
      var (s2, rs) := MemRun(s1, cs[1..]);
      (s2, [r] + rs)
  }

  ghost function SqlRun(t: Table, cs: seq<Call>): (Table, seq<Res>)
    decreases |cs|
  {
    if cs == [] then (t, [])
    else
      var (t1, r) := SqlDo(t, cs[0].op, cs[0].at);
      var (t2, rs) := SqlRun(t1, cs[1..]);
      (t2, [r] + rs)
  }

  /** Fresh UUIDs throughout. */
  ghost predicate FreshRun(s: Store, cs: seq<Call>)
    decreases |cs|
  {
    cs != [] ==> Fresh(s, cs[0].op) && FreshRun(MemDo(s, cs[0].op, cs[0].at).0, cs[1..])
  }

  /** No call leans on a superseded token. */
  ghost predicate NoneSuperseded(s: Store, cs: seq<Call>)
    decreases |cs|
  {
    cs != [] ==>
      !ExposesSuperseded(s, cs[0].op, cs[0].at) && NoneSuperseded(MemDo(s, cs[0].op, cs[0].at).0, cs[1..])
  }

  /** A call that leans on a superseded token gets a session from the maps and none from the table. */
  lemma ExposedDiffers(s: Store, op: Op, now: int)
    requires Consistent(s) && ExposesSuperseded(s, op, now)
    ensures MemDo(s, op, now).1 != SqlDo(s.rows, op, now).1
  {
    ScanByToken(s, op.token);
  }

  lemma {:induction false} RunsAgreeFrom(s: Store, cs: seq<Call>)
    requires Consistent(s) && FreshRun(s, cs)
    ensures MemRun(s, cs).1 == SqlRun(s.rows, cs).1 <==> NoneSuperseded(s, cs)
    ensures NoneSuperseded(s, cs) ==> MemRun(s, cs).0.rows == SqlRun(s.rows, cs).0
    decreases |cs|
  {
    if cs != [] {
      var op, at := cs[0].op, cs[0].at;
      var m, q := MemDo(s, op, at), SqlDo(s.rows, op, at);
      StepAgreesExactly(s, op, at);
      ConsistentStep(s, op, at);
      RunsAgreeFrom(m.0, cs[1..]);
      assert MemRun(s, cs).1[0] == m.1 && MemRun(s, cs).1[1..] == MemRun(m.0, cs[1..]).1;
      assert SqlRun(s.rows, cs).1[0] == q.1 && SqlRun(s.rows, cs).1[1..] == SqlRun(q.0, cs[1..]).1;
      if ExposesSuperseded(s, op, at) {
        ExposedDiffers(s, op, at);
      }
    }
  }

  /** From the empty store on, the four maps answer as the table does, call by call, if and only if
      no call leans on a superseded token; and then they also hold the same rows. */
  lemma RunsAgreeExactly(cs: seq<Call>)
    requires FreshRun(EMPTY_STORE, cs)
    ensures MemRun(EMPTY_STORE, cs).1 == SqlRun(map[], cs).1 <==> NoneSuperseded(EMPTY_STORE, cs)
    ensures NoneSuperseded(EMPTY_STORE, cs) ==> MemRun(EMPTY_STORE, cs).0.rows == SqlRun(map[], cs).0
  {
    RunsAgreeFrom(EMPTY_STORE, cs);
  }

  /** Exchanging a usable code once more supersedes the token that it gave before, … */
  lemma LaterTokenSupersedes(s: Store, code: string, t1: string, t2: string, nonce: string, now: int)
    requires code in s.codes && t1 in s.tokens && s.tokens[t1] == s.codes[code] && t1 != t2
    requires s.codes[code] in s.rows && Usable(s.rows[s.codes[code]], now)
    ensures var s' := MemExchange(s, code, t2, nonce, now).0;
            Superseded(s', t1) && Usable(s'.rows[s'.tokens[t1]], now)
  {
  }

  /** … and from then on the maps redeem it while the table does not know it. */
  lemma SupersededTokenDiffers(s: Store, token: string, cred: string, now: int)
    requires Consistent(s) && Superseded(s, token) && Usable(s.rows[s.tokens[token]], now)
    ensures MemConsume(s, token, cred, now).1.Some?
    ensures SqlDo(s.rows, Consume(token, cred), now) == (s.rows, Session(None))
  {
    ScanByToken(s, token);
  }

  /** One code, exchanged twice, and then its first token presented. */
  const TWICE: seq<Call> :=
    [Call(Create("s", "c", "n", "d", "", 0), 0), Call(Exchange("c", "t1", "n"), 0),
     Call(Exchange("c", "t2", "n"), 0), Call(Consume("t1", "k"), 0)]

  /** The store after `n` of the four calls, up to the third. */
  function TwiceAfter(n: nat): Store
  {
    var row := NewRow("s", "c", "n", "d", "", 0, 0);
    if n == 0 then EMPTY_STORE
    else if n == 1 then Store(map["s" := row], map["c" := "s"], map[], map[])
    else if n == 2 then Store(map["s" := row.(token := Some("t1"))], map["c" := "s"], map["t1" := "s"], map[])
    else Store(map["s" := row.(token := Some("t2"))], map["c" := "s"], map["t1" := "s", "t2" := "s"], map[])
  }

  lemma TwiceStep(n: nat)
    requires n < 3
    ensures Fresh(TwiceAfter(n), TWICE[n].op) && !ExposesSuperseded(TwiceAfter(n), TWICE[n].op, 0)
    ensures MemDo(TwiceAfter(n), TWICE[n].op, 0).0 == TwiceAfter(n + 1)
  {
  }

  lemma {:induction false} TwiceFrom(n: nat)
    requires n <= 3
    ensures FreshRun(TwiceAfter(n), TWICE[n..]) && !NoneSuperseded(TwiceAfter(n), TWICE[n..])
    decreases 3 - n
  {
    assert TWICE[n..][0] == TWICE[n] && TWICE[n..][1..] == TWICE[n + 1..] && TWICE[n].at == 0;
    if n == 3 {
      assert Superseded(TwiceAfter(3), "t1") && Usable(TwiceAfter(3).rows["s"], 0);
      assert TWICE[4..] == [];
    } else {
      TwiceStep(n);
      TwiceFrom(n + 1);
    }
  }

  /** On this run, from empty stores, the maps and the table answer differently. */
  lemma TwoExchangesDiffer()
    ensures FreshRun(EMPTY_STORE, TWICE) && MemRun(EMPTY_STORE, TWICE).1 != SqlRun(map[], TWICE).1
  {
    TwiceFrom(0);
    assert TWICE[0..] == TWICE;
    RunsAgreeExactly(TWICE);
  }
}

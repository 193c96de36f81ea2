/** Issuing and verifying an SD-JWT credential. Hashing, base64, JSON and signatures are the fields
    of a `Codec`; the laws that they obey are stated once, in `Lawful`. */
module SdJwt {
  import opened Basics
  import opened WireFormat

  /** Amounts are counted in cents. */
  datatype Value = Num(cents: int) | Text(s: string)

  /** `[salt, name, value]` */
  datatype Disclosure = Disclosure(salt: string, name: string, value: Value)

  datatype Decoded = NotBase64 | NotTriple | NameNotText | Pair(name: string, value: Value)

  /** The entry that points into the published bitstring. */
  datatype StatusEntry = StatusEntry(id: string, kind: string, purpose: string, index: string, list: string)

  datatype IssuerClaims = IssuerClaims(
    issuer: string, subject: string, issuedAt: int, expiresAt: Option<int>, id: string,
    vct: string, sdAlg: string, sd: seq<string>,
    depositId: string, pledgeDate: string, statutoryBasis: string, issuingBank: string,
    bankId: string, propertyId: string, status: StatusEntry)

  datatype KbClaims = KbClaims(typ: string, nonce: string, aud: seq<string>, sdHash: string, issuedAt: Option<int>)

  /** The library functions. Checking a JWT needs the time, because the parser turns an expired one
      down itself. */
  datatype Codec = Codec(
    digest: string -> string,
    encode: Disclosure -> string,
    decode: string -> Decoded,
    sign: IssuerClaims -> string,
    check: (string, int) -> Option<IssuerClaims>,
    readKb: string -> Option<KbClaims>,
    lower: string -> string)

  /** The parser's own test of the expiry. */
  predicate Unexpired(k: IssuerClaims, now: int)
  {
    k.expiresAt.Some? ==> now < k.expiresAt.value
  }

  /** Encoding is undone by decoding and stays in the base64url alphabet; a signed JWT gives back the
      claims that were signed, as long as it has not expired. */
  ghost predicate Lawful(c: Codec)
  {
    && (forall d :: c.decode(c.encode(d)) == Pair(d.name, d.value))
    && (forall d :: c.encode(d) != "" && Plain(c.encode(d)) && !Dotted(c.encode(d)))
    && (forall k, now :: c.check(c.sign(k), now) == if Unexpired(k, now) then Some(k) else None)
    && (forall k :: c.sign(k) != "" && Plain(c.sign(k)))
  }

  /** No two inputs share a digest. */
  ghost predicate CollisionFree(c: Codec)
  {
    forall x, y :: c.digest(x) == c.digest(y) ==> x == y
  }

  // ---------------------------------------------------------------- issuing

  datatype Address = Address(street: string, zip: string, city: string, country: string)

  /** What the issuer reads out of the deposit. */
  datatype Pledged = Pledged(
    depositId: string, amount: int, currency: string, firstName: string, lastName: string, email: string,
    address: Address, unitId: string, pledgeDate: Option<string>, provider: Option<string>)

  /** The issuing time and the dates derived from it; `graceEnd` is thirty days after the requested
      end of validity, if that is a date. */
  datatype Dates = Dates(now: int, today: string, inOneYear: string, oneYearOn: int, graceEnd: Option<int>)

  /** The six values that a holder may disclose one by one. */
  datatype Subject = Subject(
    amount: int, currency: string, propertyAddress: string, firstName: string, lastName: string, pledgedUntil: string)

  const NAMES: seq<string> :=
    ["deposit_amount", "currency", "property_address", "tenant_first_name", "tenant_last_name", "pledged_until"]

  function Values(s: Subject): seq<Value>
  {
    [Num(s.amount), Text(s.currency), Text(s.propertyAddress), Text(s.firstName), Text(s.lastName), Text(s.pledgedUntil)]
  }

  function Disclosures(s: Subject, salts: seq<string>): (ds: seq<Disclosure>)
    requires |salts| == 6
    ensures |ds| == 6
  {
    seq(6, i requires 0 <= i < 6 => Disclosure(salts[i], NAMES[i], Values(s)[i]))
  }

  function Encoded(c: Codec, s: Subject, salts: seq<string>): (es: seq<string>)
    requires |salts| == 6
    ensures |es| == 6
  {
    seq(6, i requires 0 <= i < 6 => c.encode(Disclosures(s, salts)[i]))
  }

  function Hashes(c: Codec, s: Subject, salts: seq<string>): (hs: seq<string>)
    requires |salts| == 6
    ensures |hs| == 6
  {
    seq(6, i requires 0 <= i < 6 => c.digest(Encoded(c, s, salts)[i]))
  }

  function SubjectOf(p: Pledged, validUntil: string, dates: Dates): Subject
  {
    var a := p.address;
    Subject(p.amount, p.currency,
            if a.street == "" then "" else a.street + ", " + a.zip + " " + a.city + ", " + a.country,
            p.firstName, p.lastName,
            if validUntil == "" then dates.inOneYear else validUntil)
  }

  function DotSpaces(s: string): string
  {
    seq(|s|, i requires 0 <= i < |s| => if s[i] == ' ' then '.' else s[i])
  }

  function StatusFor(issuerUrl: string, index: int): StatusEntry
  {
    var list := issuerUrl + "/v1/status-list/revocation";
    StatusEntry(list + "#" + PrintInt(index), "BitstringStatusListEntry", "revocation", PrintInt(index), list)
  }

  /** The claims that are always revealed, with the digests of the others. */
  function ClaimsOf(c: Codec, issuerUrl: string, p: Pledged, validUntil: string, index: int, cred: string,
                    dates: Dates, sd: seq<string>): IssuerClaims
  {
    var bank := if p.provider.Some? then p.provider.value else "";
    IssuerClaims(issuerUrl, p.email, dates.now,
                 Some(if validUntil != "" && dates.graceEnd.Some? then dates.graceEnd.value else dates.oneYearOn),
                 cred, "DepositPledgeAttestation", "sha-256", sd, p.depositId,
                 if p.pledgeDate.Some? && p.pledgeDate.value != "" then p.pledgeDate.value else dates.today,
                 "BGB \U{00A7} 551", bank, if bank == "" then "" else "https://" + c.lower(DotSpaces(bank)),
                 p.unitId, StatusFor(issuerUrl, index))
  }

  /** The loop over the six specs. */
  method Conceal(c: Codec, s: Subject, salts: seq<string>) returns (encodings: seq<string>, hashes: seq<string>)
    requires |salts| == 6
    ensures encodings == Encoded(c, s, salts) && hashes == Hashes(c, s, salts)
  {
    encodings, hashes := [], [];
    for i := 0 to 6
      invariant encodings == Encoded(c, s, salts)[..i] && hashes == Hashes(c, s, salts)[..i]
    {
      var enc := c.encode(Disclosure(salts[i], NAMES[i], Values(s)[i]));
      assert Disclosures(s, salts)[i] == Disclosure(salts[i], NAMES[i], Values(s)[i]);
      assert enc == Encoded(c, s, salts)[i] && c.digest(enc) == Hashes(c, s, salts)[i];
      encodings := encodings + [enc];
      hashes := hashes + [c.digest(enc)];
    }
  }

  /** Issuing: derive the claims, conceal six of them, sign the rest with the digests, and print. */
  method BuildSdJwt(c: Codec, issuerUrl: string, p: Pledged, validUntil: string, index: int, cred: string,
                    dates: Dates, salts: seq<string>) returns (token: string)
    requires |salts| == 6
    ensures var s := SubjectOf(p, validUntil, dates);
            var k := ClaimsOf(c, issuerUrl, p, validUntil, index, cred, dates, Hashes(c, s, salts));
            token == Present(c.sign(k), Encoded(c, s, salts), "")
  {
    var expiry := dates.oneYearOn;
    if validUntil != "" && dates.graceEnd.Some? {
      expiry := dates.graceEnd.value;
    }
    var pledgedUntil := validUntil;
    if pledgedUntil == "" {
      pledgedUntil := dates.inOneYear;
    }
    var address, a := "", p.address;
    if a.street != "" {
      address := a.street + ", " + a.zip + " " + a.city + ", " + a.country;
    }
    var pledgeDate := dates.today;
    if p.pledgeDate.Some? && p.pledgeDate.value != "" {
      pledgeDate := p.pledgeDate.value;
    }
    var bankName, bankId := "", "";
    if p.provider.Some? {
      bankName := p.provider.value;
      if bankName != "" {
        bankId := "https://" + c.lower(DotSpaces(bankName));
      }
    }
    var encodings, hashes :=
      Conceal(c, Subject(p.amount, p.currency, address, p.firstName, p.lastName, pledgedUntil), salts);
    var list := issuerUrl + "/v1/status-list/revocation";
    var claims := IssuerClaims(issuerUrl, p.email, dates.now, Some(expiry), cred, "DepositPledgeAttestation", "sha-256",
                               hashes, p.depositId, pledgeDate, "BGB \U{00A7} 551", bankName, bankId, p.unitId,
                               StatusEntry(list + "#" + PrintInt(index), "BitstringStatusListEntry", "revocation",
                                           PrintInt(index), list));
    var signed := c.sign(claims);
    token := signed + "~" + Join(encodings) + "~";
    PrintedIsPresentation(signed, encodings);
  }

  // ---------------------------------------------------------------- verifying

  datatype VerifiedClaims = VerifiedClaims(
    credentialId: string, depositId: string, pledgeDate: string, statutoryBasis: string, issuingBank: string,
    amount: int, currency: string, propertyAddress: string, firstName: string, lastName: string, pledgedUntil: string)

  datatype Result<+T> = Ok(value: T) | Err(reason: string)

  /** Digest check and decoding of the disclosures, in order; a later name replaces an earlier one. */
  function Reveal(c: Codec, sd: seq<string>, ds: seq<string>): Result<map<string, Value>>
  {
    if ds == [] then Ok(map[])
    else
      var before, enc := Reveal(c, sd, ds[..|ds| - 1]), ds[|ds| - 1];
      if before.Err? then before
      else if c.digest(enc) !in sd then Err("digest not in _sd")
      else
        match c.decode(enc)
        case NotBase64 => Err("not base64")
        case NotTriple => Err("not a triple")
        case NameNotText => Err("name is not a string")
        case Pair(name, value) => Ok(before.value[name := value])
  }

  const FIVE_MINUTES: int := 5 * 60 * 1_000_000_000

  function CheckKb(c: Codec, p: Parts, nonce: string, uri: string, now: int): Option<string>
  {
    if p.kb == "" then None
    else
      var k := c.readKb(p.kb);
      if k.None? then Some("KB-JWT parse")
      else if k.value.typ != "kb+jwt" then Some("KB-JWT typ")
      else if k.value.nonce != nonce then Some("KB-JWT nonce")
      else if k.value.aud == [] || k.value.aud[0] != uri then Some("KB-JWT aud")
      else if k.value.sdHash != c.digest(SdInput(p.jwt, p.disclosures)) then Some("KB-JWT sd_hash")
      else if k.value.issuedAt.None? || now - k.value.issuedAt.value > FIVE_MINUTES then Some("KB-JWT iat")
      else None
  }

  function NumberAt(m: map<string, Value>, name: string): int
  {
    if name in m && m[name].Num? then m[name].cents else 0
  }

  function TextAt(m: map<string, Value>, name: string): string
  {
    if name in m && m[name].Text? then m[name].s else ""
  }

  function Assemble(k: IssuerClaims, m: map<string, Value>): VerifiedClaims
  {
    VerifiedClaims(k.id, k.depositId, k.pledgeDate, k.statutoryBasis, k.issuingBank,
                   NumberAt(m, "deposit_amount"), TextAt(m, "currency"), TextAt(m, "property_address"),
                   TextAt(m, "tenant_first_name"), TextAt(m, "tenant_last_name"), TextAt(m, "pledged_until"))
  }

  function Verify(c: Codec, token: string, nonce: string, uri: string, now: int): Result<VerifiedClaims>
  {
    var parts := ServerParts(token);
    if parts.None? then Err("missing issuer JWT")
    else
      var k := c.check(parts.value.jwt, now);
      if k.None? then Err("issuer JWT invalid")
      else if k.value.vct != "DepositPledgeAttestation" then Err("unexpected vct")
      else if k.value.expiresAt.Some? && now > k.value.expiresAt.value then Err("expired")
      else
        match Reveal(c, k.value.sd, parts.value.disclosures)
        case Err(reason) => Err(reason)
        case Ok(m) =>
          var kb := CheckKb(c, parts.value, nonce, uri, now);
          if kb.Some? then Err(kb.value) else Ok(Assemble(k.value, m))
  }

  method DigestSet(sd: seq<string>) returns (digests: set<string>)
    ensures forall h :: h in digests <==> h in sd
  {
    digests := {};
    for i := 0 to |sd|
      invariant forall h :: h in digests <==> h in sd[..i]
    {
      digests := digests + {sd[i]};
      assert sd[..i + 1] == sd[..i] + [sd[i]];
    }
    assert sd[..|sd|] == sd;
  }

  /** The loop over the disclosures; it stops at the first that fails. */
  method RevealAll(c: Codec, sd: seq<string>, ds: seq<string>) returns (r: Result<map<string, Value>>)
    ensures r == Reveal(c, sd, ds)
  {
    var digests := DigestSet(sd);
    var disclosed: map<string, Value> := map[];
    for i := 0 to |ds|
      invariant Reveal(c, sd, ds[..i]) == Ok(disclosed)
    {
      var enc := ds[i];
      assert ds[..i + 1][..i] == ds[..i];
      if c.digest(enc) !in digests {
        RevealErr(c, sd, ds, i + 1);
        return Err("digest not in _sd");
      }
      match c.decode(enc) {
        case NotBase64 => RevealErr(c, sd, ds, i + 1); return Err("not base64");
        case NotTriple => RevealErr(c, sd, ds, i + 1); return Err("not a triple");
        case NameNotText => RevealErr(c, sd, ds, i + 1); return Err("name is not a string");
        case Pair(name, value) => disclosed := disclosed[name := value];
      }
    }
    assert ds[..|ds|] == ds;
    return Ok(disclosed);
  }

  method VerifyVpToken(c: Codec, token: string, nonce: string, uri: string, now: int) returns (r: Result<VerifiedClaims>)
    ensures r == Verify(c, token, nonce, uri, now)
    ensures r.Ok? <==> Admissible(c, token, now) && (PartsOf(token).kb == "" || Bound(c, PartsOf(token), nonce, uri, now))
  {
    AcceptedExactly(c, token, nonce, uri, now);
    var split := SplitOnServer(token);
    if split.None? {
      return Err("missing issuer JWT");
    }
    var p := split.value;
    var k := c.check(p.jwt, now);
    if k.None? {
      return Err("issuer JWT invalid");
    }
    if k.value.vct != "DepositPledgeAttestation" {
      return Err("unexpected vct");
    }
    if k.value.expiresAt.Some? && now > k.value.expiresAt.value {
      return Err("expired");
    }
    var disclosed := RevealAll(c, k.value.sd, p.disclosures);
    if disclosed.Err? {
      return Err(disclosed.reason);
    }
    var kb := CheckKb(c, p, nonce, uri, now);
    if kb.Some? {
      return Err(kb.value);
    }
    return Ok(Assemble(k.value, disclosed.value));
  }

  /** The first failure decides. */
  lemma {:induction false} RevealErr(c: Codec, sd: seq<string>, ds: seq<string>, i: nat)
    requires i <= |ds| && Reveal(c, sd, ds[..i]).Err?
    ensures Reveal(c, sd, ds) == Reveal(c, sd, ds[..i])
    decreases |ds|
  {
    if i == |ds| {
      assert ds[..i] == ds;
    } else {
      var init := ds[..|ds| - 1];
      assert init[..i] == ds[..i];
      RevealErr(c, sd, init, i);
    }
  }

  // ---------------------------------------------------------------- what is accepted

  /** What the server reads out of a token, if it has an issuer JWT at all. */
  function PartsOf(token: string): Parts
  {
    if ServerParts(token).Some? then ServerParts(token).value else Parts("", [], "")
  }

  /** A disclosure that the issuer JWT covers and that can be read. */
  predicate Readable(c: Codec, sd: seq<string>, enc: string)
  {
    c.digest(enc) in sd && c.decode(enc).Pair?
  }

  /** All that is asked of a token besides its key binding. */
  ghost predicate Admissible(c: Codec, token: string, now: int)
  {
    && ServerParts(token).Some?
    && var k := c.check(PartsOf(token).jwt, now);
       && k.Some? && k.value.vct == "DepositPledgeAttestation"
       && (k.value.expiresAt.Some? ==> now <= k.value.expiresAt.value)
       && forall i :: 0 <= i < |PartsOf(token).disclosures| ==> Readable(c, k.value.sd, PartsOf(token).disclosures[i])
  }

  /** A key-binding JWT for this very presentation, for this verifier's nonce and address, and not
      older than five minutes. */
  predicate Bound(c: Codec, p: Parts, nonce: string, uri: string, now: int)
  {
    var k := c.readKb(p.kb);
    && k.Some? && k.value.typ == "kb+jwt" && k.value.nonce == nonce
    && |k.value.aud| > 0 && k.value.aud[0] == uri
    && k.value.sdHash == c.digest(Join([p.jwt] + p.disclosures + [""]))
    && k.value.issuedAt.Some? && now - k.value.issuedAt.value <= 300_000_000_000
  }

  lemma {:induction false} RevealsExactly(c: Codec, sd: seq<string>, ds: seq<string>)
    ensures Reveal(c, sd, ds).Ok? <==> forall i :: 0 <= i < |ds| ==> Readable(c, sd, ds[i])
  {
    if ds != [] {
      var init, last := ds[..|ds| - 1], ds[|ds| - 1];
      RevealsExactly(c, sd, init);
      assert forall i :: 0 <= i < |init| ==> init[i] == ds[i];
    }
  }

  /** Each part followed by "~" is the parts and an empty one, joined. */
  lemma SdInputIsJoin(jwt: string, ds: seq<string>)
    ensures Join([jwt] + ds + [""]) == SdInput(jwt, ds)
  {
    var ps := [jwt] + ds + [""];
    JoinLast(ps);
    assert ps[..|ps| - 1] == [jwt] + ds;
    assert ([jwt] + ds)[1..] == ds;
  }

  lemma BoundExactly(c: Codec, p: Parts, nonce: string, uri: string, now: int)
    requires p.kb != ""
    ensures CheckKb(c, p, nonce, uri, now).None? <==> Bound(c, p, nonce, uri, now)
  {
    SdInputIsJoin(p.jwt, p.disclosures);
  }

  /** A token is accepted if and only if it is admissible and comes without key binding, or with one
      that is bound to it. */
  lemma AcceptedExactly(c: Codec, token: string, nonce: string, uri: string, now: int)
    ensures Verify(c, token, nonce, uri, now).Ok?
            <==> Admissible(c, token, now) && (PartsOf(token).kb == "" || Bound(c, PartsOf(token), nonce, uri, now))
  {
    if ServerParts(token).Some? {
      var p := PartsOf(token);
      var k := c.check(p.jwt, now);
      if k.Some? {
        RevealsExactly(c, k.value.sd, p.disclosures);
      }
      if p.kb != "" {
        BoundExactly(c, p, nonce, uri, now);
      }
    }
  }

  /** The reason that an otherwise admissible token is given when its key binding fails: that of the
      first field that does not fit. */
  lemma KeyBindingReasons(c: Codec, token: string, nonce: string, uri: string, now: int)
    requires Admissible(c, token, now) && PartsOf(token).kb != ""
    ensures var p := PartsOf(token);
            var k, r := c.readKb(p.kb), Verify(c, token, nonce, uri, now);
            && (k.None? ==> r == Err("KB-JWT parse"))
            && (k.Some? ==>
                  var hashed := k.value.sdHash == c.digest(Join([p.jwt] + p.disclosures + [""]));
                  var addressed := |k.value.aud| > 0 && k.value.aud[0] == uri;
                  var stale := k.value.issuedAt.None? || now - k.value.issuedAt.value > 300_000_000_000;
                  && (k.value.typ != "kb+jwt" ==> r == Err("KB-JWT typ"))
                  && (k.value.typ == "kb+jwt" && k.value.nonce != nonce ==> r == Err("KB-JWT nonce"))
                  && (k.value.typ == "kb+jwt" && k.value.nonce == nonce && !addressed ==> r == Err("KB-JWT aud"))
                  && (k.value.typ == "kb+jwt" && k.value.nonce == nonce && addressed && !hashed ==> r == Err("KB-JWT sd_hash"))
                  && (k.value.typ == "kb+jwt" && k.value.nonce == nonce && addressed && hashed && stale ==> r == Err("KB-JWT iat")))
  {
    var p := PartsOf(token);
    SdInputIsJoin(p.jwt, p.disclosures);
    RevealsExactly(c, c.check(p.jwt, now).value.sd, p.disclosures);
  }

  /** The reasons before that: no issuer JWT, one that does not check out, the wrong type, or the first
      disclosure that is not covered or cannot be read. */
  lemma EarlierReasons(c: Codec, token: string, nonce: string, uri: string, now: int)
    ensures var p := PartsOf(token);
            var k, r := c.check(p.jwt, now), Verify(c, token, nonce, uri, now);
            && (ServerParts(token).None? ==> r == Err("missing issuer JWT"))
            && (ServerParts(token).Some? && k.None? ==> r == Err("issuer JWT invalid"))
            && (ServerParts(token).Some? && k.Some? && k.value.vct != "DepositPledgeAttestation" ==> r == Err("unexpected vct"))
  {
  }

  lemma DisclosureReason(c: Codec, token: string, nonce: string, uri: string, now: int, i: nat)
    requires ServerParts(token).Some? && i < |PartsOf(token).disclosures|
    requires var k := c.check(PartsOf(token).jwt, now);
             && k.Some? && k.value.vct == "DepositPledgeAttestation"
             && (k.value.expiresAt.Some? ==> now <= k.value.expiresAt.value)
             && (forall j :: 0 <= j < i ==> Readable(c, k.value.sd, PartsOf(token).disclosures[j]))
             && !Readable(c, k.value.sd, PartsOf(token).disclosures[i])
    ensures var enc := PartsOf(token).disclosures[i];
            Verify(c, token, nonce, uri, now) ==
            if c.digest(enc) !in c.check(PartsOf(token).jwt, now).value.sd then Err("digest not in _sd")
            else if c.decode(enc).NotBase64? then Err("not base64")
            else if c.decode(enc).NotTriple? then Err("not a triple")
            else Err("name is not a string")
  {
    var sd, ds := c.check(PartsOf(token).jwt, now).value.sd, PartsOf(token).disclosures;
    RevealsExactly(c, sd, ds[..i]);
    assert ds[..i + 1][..i] == ds[..i] && ds[..i + 1][i] == ds[i];
    RevealErr(c, sd, ds, i + 1);
  }

  /** The value of the last disclosure with that name. */
  function LastNamed(c: Codec, ds: seq<string>, name: string): Option<Value>
  {
    if ds == [] then None
    else
      match c.decode(ds[|ds| - 1])
      case Pair(n, value) => if n == name then Some(value) else LastNamed(c, ds[..|ds| - 1], name)
      case _ => LastNamed(c, ds[..|ds| - 1], name)
  }

  lemma {:induction false} RevealsLast(c: Codec, sd: seq<string>, ds: seq<string>, name: string)
    requires Reveal(c, sd, ds).Ok?
    ensures (if name in Reveal(c, sd, ds).value then Some(Reveal(c, sd, ds).value[name]) else None) == LastNamed(c, ds, name)
  {
    if ds != [] {
      RevealsLast(c, sd, ds[..|ds| - 1], name);
    }
  }

  function TextOr(v: Option<Value>): string
  {
    if v.Some? && v.value.Text? then v.value.s else ""
  }

  /** What an accepted token tells, whoever issued it: the revealed claims of its issuer JWT, and for
      each of the six others the value of its last disclosure, if that has the right type. */
  lemma AcceptedTells(c: Codec, token: string, nonce: string, uri: string, now: int)
    requires Verify(c, token, nonce, uri, now).Ok?
    ensures var v, ds := Verify(c, token, nonce, uri, now).value, PartsOf(token).disclosures;
            var k := c.check(PartsOf(token).jwt, now);
            && k.Some? && v.credentialId == k.value.id && v.depositId == k.value.depositId && v.pledgeDate == k.value.pledgeDate
            && v.statutoryBasis == k.value.statutoryBasis && v.issuingBank == k.value.issuingBank
            && var a := LastNamed(c, ds, "deposit_amount");
               && v.amount == (if a.Some? && a.value.Num? then a.value.cents else 0)
               && v.currency == TextOr(LastNamed(c, ds, "currency"))
               && v.propertyAddress == TextOr(LastNamed(c, ds, "property_address"))
               && v.firstName == TextOr(LastNamed(c, ds, "tenant_first_name"))
               && v.lastName == TextOr(LastNamed(c, ds, "tenant_last_name"))
               && v.pledgedUntil == TextOr(LastNamed(c, ds, "pledged_until"))
  {
    var ds, sd := PartsOf(token).disclosures, c.check(PartsOf(token).jwt, now).value.sd;
    RevealsLast(c, sd, ds, "deposit_amount");
    RevealsLast(c, sd, ds, "currency");
    RevealsLast(c, sd, ds, "property_address");
    RevealsLast(c, sd, ds, "tenant_first_name");
    RevealsLast(c, sd, ds, "tenant_last_name");
    RevealsLast(c, sd, ds, "pledged_until");
  }

  // ---------------------------------------------------------------- round trip

  /** The encodings that the holder keeps, in the holder's order. */
  function Pick(es: seq<string>, kept: seq<nat>): (ps: seq<string>)
    requires forall i :: 0 <= i < |kept| ==> kept[i] < |es|
    ensures |ps| == |kept|
  {
    seq(|kept|, i requires 0 <= i < |kept| => es[kept[i]])
  }

  lemma PickMore(es: seq<string>, kept: seq<nat>, j: nat)
    requires (forall i :: 0 <= i < |kept| ==> kept[i] < |es|) && j < |es|
    ensures Pick(es, kept + [j]) == Pick(es, kept) + [es[j]]
  {
  }

  predicate Kept(kept: seq<nat>)
  {
    forall i :: 0 <= i < |kept| ==> kept[i] < 6
  }

  function Expected(k: IssuerClaims, s: Subject, kept: seq<nat>): VerifiedClaims
  {
    VerifiedClaims(k.id, k.depositId, k.pledgeDate, k.statutoryBasis, k.issuingBank,
                   if 0 in kept then s.amount else 0,
                   if 1 in kept then s.currency else "",
                   if 2 in kept then s.propertyAddress else "",
                   if 3 in kept then s.firstName else "",
                   if 4 in kept then s.lastName else "",
                   if 5 in kept then s.pledgedUntil else "")
  }

  /** Exactly the kept claims are disclosed, with the issued values. */
  ghost predicate Discloses(m: map<string, Value>, s: Subject, kept: seq<nat>)
  {
    forall j :: 0 <= j < 6 ==>
      && (NAMES[j] in m <==> j in kept)
      && (j in kept ==> m[NAMES[j]] == Values(s)[j])
  }

  lemma NamesDistinct(i: int, j: int)
    requires 0 <= i < 6 && 0 <= j < 6 && i != j
    ensures NAMES[i] != NAMES[j]
  {
    var lengths := [14, 8, 16, 17, 16, 13];
    assert |NAMES[0]| == 14 && |NAMES[1]| == 8 && |NAMES[2]| == 16 && |NAMES[3]| == 17 && |NAMES[4]| == 16 && |NAMES[5]| == 13;
    assert forall k :: 0 <= k < 6 ==> |NAMES[k]| == lengths[k];
    assert NAMES[2][0] == 'p' && NAMES[4][0] == 't';
  }

  lemma DisclosesMore(m: map<string, Value>, s: Subject, kept: seq<nat>, j: nat)
    requires Discloses(m, s, kept) && j < 6
    ensures Discloses(m[NAMES[j] := Values(s)[j]], s, kept + [j])
  {
    forall i | 0 <= i < 6 && i != j ensures NAMES[i] != NAMES[j] {
      NamesDistinct(i, j);
    }
  }

  lemma RevealMore(c: Codec, sd: seq<string>, ds: seq<string>, enc: string, name: string, value: Value)
    requires Reveal(c, sd, ds).Ok? && c.digest(enc) in sd && c.decode(enc) == Pair(name, value)
    ensures Reveal(c, sd, ds + [enc]) == Ok(Reveal(c, sd, ds).value[name := value])
  {
    assert (ds + [enc])[..|ds|] == ds;
  }

  lemma EncodedReads(c: Codec, s: Subject, salts: seq<string>, j: nat)
    requires Lawful(c) && |salts| == 6 && j < 6
    ensures c.digest(Encoded(c, s, salts)[j]) in Hashes(c, s, salts)
    ensures c.decode(Encoded(c, s, salts)[j]) == Pair(NAMES[j], Values(s)[j])
  {
    var es := Encoded(c, s, salts);
    assert Hashes(c, s, salts)[j] == c.digest(es[j]);
    assert es[j] == c.encode(Disclosures(s, salts)[j]) && Disclosures(s, salts)[j] == Disclosure(salts[j], NAMES[j], Values(s)[j]);
  }

  lemma {:induction false} RevealKept(c: Codec, s: Subject, salts: seq<string>, kept: seq<nat>)
    requires Lawful(c) && |salts| == 6 && Kept(kept)
    ensures var r := Reveal(c, Hashes(c, s, salts), Pick(Encoded(c, s, salts), kept));
            r.Ok? && Discloses(r.value, s, kept)
  {
    if kept != [] {
      var es, hs, init, j := Encoded(c, s, salts), Hashes(c, s, salts), kept[..|kept| - 1], kept[|kept| - 1];
      RevealKept(c, s, salts, init);
      EncodedReads(c, s, salts, j);
      RevealMore(c, hs, Pick(es, init), es[j], NAMES[j], Values(s)[j]);
      PickMore(es, init, j);
      DisclosesMore(Reveal(c, hs, Pick(es, init)).value, s, init, j);
      assert kept == init + [j];
    }
  }

  lemma AssembleKept(k: IssuerClaims, m: map<string, Value>, s: Subject, kept: seq<nat>)
    requires Discloses(m, s, kept)
    ensures Assemble(k, m) == Expected(k, s, kept)
  {
    assert forall j :: 0 <= j < 6 ==> (NAMES[j] in m <==> j in kept);
    assert NAMES[0] in m <==> 0 in kept;
    assert NAMES[1] in m <==> 1 in kept;
    assert NAMES[2] in m <==> 2 in kept;
    assert NAMES[3] in m <==> 3 in kept;
    assert NAMES[4] in m <==> 4 in kept;
    assert NAMES[5] in m <==> 5 in kept;
  }

  /** Whatever the holder keeps, in any order: a credential that has not expired, without key binding
      or with one that is bound to the presentation, gives the issued values of the kept claims and
      defaults for the rest; every other presentation is refused, an expired one by the JWT parser. */
  lemma PresentedIsVerified(c: Codec, header: IssuerClaims, s: Subject, salts: seq<string>,
                            kept: seq<nat>, kb: string, nonce: string, uri: string, now: int)
    requires Lawful(c) && |salts| == 6 && Kept(kept) && header.vct == "DepositPledgeAttestation"
    requires Plain(kb) && (kb != "" ==> Dotted(kb))
    ensures var k := header.(sd := Hashes(c, s, salts));
            var p := Parts(c.sign(k), Pick(Encoded(c, s, salts), kept), kb);
            var r := Verify(c, Present(p.jwt, p.disclosures, kb), nonce, uri, now);
            if k.expiresAt.Some? && now >= k.expiresAt.value then r == Err("issuer JWT invalid")
            else if kb == "" || Bound(c, p, nonce, uri, now) then r == Ok(Expected(k, s, kept))
            else r.Err?
  {
    var k := header.(sd := Hashes(c, s, salts));
    var p := Parts(c.sign(k), Pick(Encoded(c, s, salts), kept), kb);
    forall i | 0 <= i < |kept|
      ensures p.disclosures[i] != "" && Plain(p.disclosures[i]) && !Dotted(p.disclosures[i])
    {
      assert p.disclosures[i] == c.encode(Disclosures(s, salts)[kept[i]]);
    }
    ServerReads(p);
    if Unexpired(k, now) {
      RevealKept(c, s, salts, kept);
      AssembleKept(k, Reveal(c, k.sd, p.disclosures).value, s, kept);
      if kb != "" {
        BoundExactly(c, p, nonce, uri, now);
      }
    }
  }

  /** When a credential issued with this validity expires. */
  function ExpiryOf(validUntil: string, dates: Dates): int
  {
    if validUntil != "" && dates.graceEnd.Some? then dates.graceEnd.value else dates.oneYearOn
  }

  /** The verifier's view of a deposit, field by field, for the kept ones of the claims 0 deposit_amount,
      1 currency, 2 property_address, 3 tenant_first_name, 4 tenant_last_name, 5 pledged_until. */
  ghost predicate ShowsDeposit(v: VerifiedClaims, p: Pledged, validUntil: string, cred: string, dates: Dates, kept: seq<nat>)
  {
    && v.credentialId == cred && v.depositId == p.depositId && v.statutoryBasis == "BGB \U{00A7} 551"
    && v.pledgeDate == (if p.pledgeDate == None || p.pledgeDate == Some("") then dates.today else p.pledgeDate.value)
    && v.issuingBank == (if p.provider == None then "" else p.provider.value)
    && v.amount == (if 0 in kept then p.amount else 0)
    && v.currency == (if 1 in kept then p.currency else "")
    && v.propertyAddress == (if 2 in kept && p.address.street != ""
                             then p.address.street + ", " + p.address.zip + " " + p.address.city + ", " + p.address.country
                             else "")
    && v.firstName == (if 3 in kept then p.firstName else "")
    && v.lastName == (if 4 in kept then p.lastName else "")
    && v.pledgedUntil == (if 5 !in kept then "" else if validUntil == "" then dates.inOneYear else validUntil)
  }

  /** From the deposit to the verifier: what is issued for a deposit and presented in part, without key
      binding or with one that is bound to it, shows the deposit's own values until it expires. */
  lemma DepositIsVerified(c: Codec, issuerUrl: string, p: Pledged, validUntil: string, index: int, cred: string,
                          dates: Dates, salts: seq<string>, kept: seq<nat>, kb: string, nonce: string, uri: string, now: int)
    requires Lawful(c) && |salts| == 6 && Kept(kept) && Plain(kb) && (kb != "" ==> Dotted(kb))
    ensures var s := SubjectOf(p, validUntil, dates);
            var k := ClaimsOf(c, issuerUrl, p, validUntil, index, cred, dates, Hashes(c, s, salts));
            var ds := Pick(Encoded(c, s, salts), kept);
            var r := Verify(c, Present(c.sign(k), ds, kb), nonce, uri, now);
            if now >= ExpiryOf(validUntil, dates) then r == Err("issuer JWT invalid")
            else if kb == "" || Bound(c, Parts(c.sign(k), ds, kb), nonce, uri, now)
            then r.Ok? && ShowsDeposit(r.value, p, validUntil, cred, dates, kept)
            else r.Err?
  {
    var s := SubjectOf(p, validUntil, dates);
    var k := ClaimsOf(c, issuerUrl, p, validUntil, index, cred, dates, Hashes(c, s, salts));
    PresentedIsVerified(c, k, s, salts, kept, kb, nonce, uri, now);
    assert k.(sd := Hashes(c, s, salts)) == k;
  }

  /** What the issuer JWT reveals besides, to whoever reads it; the status entry names the index. */
  lemma SignedClaims(c: Codec, issuerUrl: string, p: Pledged, validUntil: string, index: nat, cred: string,
                     dates: Dates, sd: seq<string>, now: int)
    requires Lawful(c) && now < ExpiryOf(validUntil, dates)
    ensures var k := c.check(c.sign(ClaimsOf(c, issuerUrl, p, validUntil, index, cred, dates, sd)), now);
            && k.Some? && k.value.issuer == issuerUrl && k.value.subject == p.email && k.value.issuedAt == dates.now
            && k.value.expiresAt == Some(ExpiryOf(validUntil, dates)) && k.value.sdAlg == "sha-256" && k.value.sd == sd
            && k.value.propertyId == p.unitId
            && ((p.provider == None || p.provider == Some("")) ==> k.value.bankId == "")
            && k.value.status.kind == "BitstringStatusListEntry" && k.value.status.purpose == "revocation"
            && k.value.status.list == issuerUrl + "/v1/status-list/revocation"
            && k.value.status.id == k.value.status.list + "#" + k.value.status.index
            && ParseDecimal(k.value.status.index) == index
  {
    DecimalRoundTrip(index);
  }

  /** The bank's address: its name in lower case, with dots for spaces. */
  lemma BankAddress(c: Codec, issuerUrl: string, p: Pledged, validUntil: string, index: int, cred: string,
                    dates: Dates, sd: seq<string>)
    requires p.provider.Some? && p.provider.value != ""
    ensures exists dotted: string ::
              && |dotted| == |p.provider.value|
              && (forall i :: 0 <= i < |dotted| ==> dotted[i] == if p.provider.value[i] == ' ' then '.' else p.provider.value[i])
              && ClaimsOf(c, issuerUrl, p, validUntil, index, cred, dates, sd).bankId == "https://" + c.lower(dotted)
  {
    var dotted := DotSpaces(p.provider.value);
    assert ClaimsOf(c, issuerUrl, p, validUntil, index, cred, dates, sd).bankId == "https://" + c.lower(dotted);
  }

  lemma {:induction false} RevealOk(c: Codec, sd: seq<string>, ds: seq<string>, i: nat)
    requires Reveal(c, sd, ds).Ok? && i < |ds|
    ensures c.digest(ds[i]) in sd
  {
    if i < |ds| - 1 {
      RevealOk(c, sd, ds[..|ds| - 1], i);
    }
  }

  /** Disclosures that pass the digest check are issued ones. */
  lemma {:induction false} IssuedSelection(c: Codec, s: Subject, salts: seq<string>, ds: seq<string>) returns (kept: seq<nat>)
    requires CollisionFree(c) && |salts| == 6 && Reveal(c, Hashes(c, s, salts), ds).Ok?
    ensures Kept(kept) && ds == Pick(Encoded(c, s, salts), kept)
  {
    if ds == [] {
      kept := [];
    } else {
      var init, hs := ds[..|ds| - 1], Hashes(c, s, salts);
      var k := IssuedSelection(c, s, salts, init);
      RevealOk(c, hs, ds, |ds| - 1);
      var es, j: nat :| es == Encoded(c, s, salts) && j < |hs| && hs[j] == c.digest(ds[|ds| - 1]);
      assert es[j] == ds[|ds| - 1] by { assert hs[j] == c.digest(es[j]); }
      kept := k + [j];
      PickMore(es, k, j);
    }
  }

  /** Conversely, when the issuer JWT is one that the issuer signed, an accepted token discloses
      nothing but issued disclosures, and the result is the one of that selection. */
  lemma AcceptedWasIssued(c: Codec, header: IssuerClaims, s: Subject, salts: seq<string>,
                          token: string, nonce: string, uri: string, now: int)
    returns (kept: seq<nat>)
    requires Lawful(c) && CollisionFree(c) && |salts| == 6
    requires ServerParts(token).Some? && c.check(ServerParts(token).value.jwt, now) == Some(header.(sd := Hashes(c, s, salts)))
    requires Verify(c, token, nonce, uri, now).Ok?
    ensures Kept(kept) && ServerParts(token).value.disclosures == Pick(Encoded(c, s, salts), kept)
    ensures Verify(c, token, nonce, uri, now).value == Expected(header.(sd := Hashes(c, s, salts)), s, kept)
  {
    var ds := ServerParts(token).value.disclosures;
    kept := IssuedSelection(c, s, salts, ds);
    RevealKept(c, s, salts, kept);
    AssembleKept(header.(sd := Hashes(c, s, salts)), Reveal(c, Hashes(c, s, salts), ds).value, s, kept);
  }

  // ---------------------------------------------------------------- key binding

  /** One key-binding JWT is good for one presentation only: tokens that carry the same one and pass
      have the same issuer JWT and the same disclosures in the same order. */
  lemma KeyBindingFixesPresentation(c: Codec, t1: string, t2: string,
                                    nonce1: string, uri1: string, now1: int, nonce2: string, uri2: string, now2: int)
    requires CollisionFree(c)
    requires Verify(c, t1, nonce1, uri1, now1).Ok? && Verify(c, t2, nonce2, uri2, now2).Ok?
    requires ServerParts(t1).Some? && ServerParts(t2).Some?
    requires ServerParts(t1).value.kb != "" && ServerParts(t1).value.kb == ServerParts(t2).value.kb
    ensures ServerParts(t1).value.jwt == ServerParts(t2).value.jwt
    ensures ServerParts(t1).value.disclosures == ServerParts(t2).value.disclosures
  {
    ServerPartsPlain(t1);
    ServerPartsPlain(t2);
    var p, q := ServerParts(t1).value, ServerParts(t2).value;
    SdInputInjective(p.jwt, p.disclosures, q.jwt, q.disclosures);
  }
}

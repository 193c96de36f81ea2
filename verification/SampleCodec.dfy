/** A codec that obeys all the laws, so that what is proved from them is about something. Every
    character becomes two from outside the separators' range, and lists are printed with the wire
    format's own separator before they are widened once more. */
module SampleCodec {
  import opened Basics
  import opened WireFormat
  import opened SdJwt

  function Wide(s: string): string
  {
    if s == "" then ""
    else [(256 + s[0] as int / 1024) as char, (256 + s[0] as int % 1024) as char] + Wide(s[1..])
  }

  lemma {:induction false} WideInjective(a: string, b: string)
    requires Wide(a) == Wide(b)
    ensures a == b
  {
    if a != "" && b != "" {
      var w := Wide(a);
      assert w[0] as int == 256 + a[0] as int / 1024 && w[1] as int == 256 + a[0] as int % 1024;
      assert w[0] as int == 256 + b[0] as int / 1024 && w[1] as int == 256 + b[0] as int % 1024;
      assert w[2..] == Wide(a[1..]) && w[2..] == Wide(b[1..]);
      WideInjective(a[1..], b[1..]);
      assert a == [a[0]] + a[1..] && b == [b[0]] + b[1..];
    }
  }

  lemma {:induction false} WidePlain(s: string)
    ensures Plain(Wide(s)) && !Dotted(Wide(s))
  {
    if s != "" {
      WidePlain(s[1..]);
    }
  }

  function Wides(ss: seq<string>): (ws: seq<string>)
    ensures |ws| == |ss|
  {
    seq(|ss|, i requires 0 <= i < |ss| => Wide(ss[i]))
  }

  /** A list of strings as one string without separators. */
  function Pack(ss: seq<string>): string
  {
    "w" + Wide(Tilded(Wides(ss)))
  }

  lemma PackPlain(ss: seq<string>)
    ensures Pack(ss) != "" && Plain(Pack(ss)) && !Dotted(Pack(ss))
  {
    WidePlain(Tilded(Wides(ss)));
  }

  lemma WidesPlain(ss: seq<string>)
    ensures AllPlain(Wides(ss))
  {
    forall i | 0 <= i < |ss| ensures Plain(Wides(ss)[i]) {
      WidePlain(ss[i]);
    }
  }

  lemma PackInjective(a: seq<string>, b: seq<string>)
    requires Pack(a) == Pack(b)
    ensures a == b
  {
    assert Pack(a)[1..] == Wide(Tilded(Wides(a))) && Pack(b)[1..] == Wide(Tilded(Wides(b)));
    WideInjective(Tilded(Wides(a)), Tilded(Wides(b)));
    WidesPlain(a);
    WidesPlain(b);
    SdInputInjective("", Wides(a), "", Wides(b));
    forall i | 0 <= i < |a| ensures a[i] == b[i] {
      assert Wides(a)[i] == Wide(a[i]) && Wides(b)[i] == Wide(b[i]);
      WideInjective(a[i], b[i]);
    }
  }

  // ---------------------------------------------------------------- disclosures

  function Encode(d: Disclosure): string
  {
    match d.value
    case Num(cents) => Pack([d.salt, d.name, "n", PrintInt(cents)])
    case Text(s) => Pack([d.salt, d.name, "t", s])
  }

  lemma EncodeInjective(d: Disclosure, e: Disclosure)
    requires Encode(d) == Encode(e)
    ensures d == e
  {
    var l := [d.salt, d.name, if d.value.Num? then "n" else "t", if d.value.Num? then PrintInt(d.value.cents) else d.value.s];
    var m := [e.salt, e.name, if e.value.Num? then "n" else "t", if e.value.Num? then PrintInt(e.value.cents) else e.value.s];
    PackInjective(l, m);
    assert l[0] == m[0] && l[1] == m[1] && l[2] == m[2] && l[3] == m[3];
    assert "n"[0] != "t"[0];
    if d.value.Num? && e.value.Num? {
      PrintIntInjective(d.value.cents, e.value.cents);
    }
  }

  ghost function Decode(s: string): Decoded
  {
    if exists d :: Encode(d) == s then
      var d :| Encode(d) == s;
      Pair(d.name, d.value)
    else NotBase64
  }

  lemma DecodeEncode(d: Disclosure)
    ensures Decode(Encode(d)) == Pair(d.name, d.value)
  {
    var e :| Encode(e) == Encode(d) && Decode(Encode(d)) == Pair(e.name, e.value);
    EncodeInjective(d, e);
  }

  // ---------------------------------------------------------------- issuer JWTs

  function Expiry(at: Option<int>): string
  {
    if at.Some? then PrintInt(at.value) else ""
  }

  function Fields(k: IssuerClaims): (fs: seq<string>)
    ensures |fs| == 18
  {
    [k.issuer, k.subject, PrintInt(k.issuedAt), Expiry(k.expiresAt), k.id, k.vct, k.sdAlg,
     k.depositId, k.pledgeDate, k.statutoryBasis, k.issuingBank, k.bankId, k.propertyId,
     k.status.id, k.status.kind, k.status.purpose, k.status.index, k.status.list]
  }

  function Sign(k: IssuerClaims): string
  {
    Pack(Fields(k) + k.sd)
  }

  lemma ExpiryInjective(a: Option<int>, b: Option<int>)
    requires Expiry(a) == Expiry(b)
    ensures a == b
  {
    if a.Some? {
      DecimalUnsigned(if a.value < 0 then -a.value else a.value);
    }
    if b.Some? {
      DecimalUnsigned(if b.value < 0 then -b.value else b.value);
    }
    if a.Some? && b.Some? {
      PrintIntInjective(a.value, b.value);
    }
  }

  lemma FieldsInjective(j: IssuerClaims, k: IssuerClaims)
    requires Fields(j) == Fields(k) && j.sd == k.sd
    ensures j == k
  {
    var f, g := Fields(j), Fields(k);
    assert f[0] == g[0] && f[1] == g[1] && f[2] == g[2] && f[3] == g[3] && f[4] == g[4] && f[5] == g[5];
    assert f[6] == g[6] && f[7] == g[7] && f[8] == g[8] && f[9] == g[9] && f[10] == g[10] && f[11] == g[11];
    assert f[12] == g[12] && f[13] == g[13] && f[14] == g[14] && f[15] == g[15] && f[16] == g[16] && f[17] == g[17];
    PrintIntInjective(j.issuedAt, k.issuedAt);
    ExpiryInjective(j.expiresAt, k.expiresAt);
  }

  lemma SignInjective(j: IssuerClaims, k: IssuerClaims)
    requires Sign(j) == Sign(k)
    ensures j == k
  {
    PackInjective(Fields(j) + j.sd, Fields(k) + k.sd);
    assert (Fields(j) + j.sd)[..18] == Fields(j) && (Fields(j) + j.sd)[18..] == j.sd;
    assert (Fields(k) + k.sd)[..18] == Fields(k) && (Fields(k) + k.sd)[18..] == k.sd;
    FieldsInjective(j, k);
  }

  ghost function Unsign(s: string): (r: Option<IssuerClaims>)
    ensures r.Some? <==> exists k :: Sign(k) == s
    ensures r.Some? ==> Sign(r.value) == s
  {
    if exists k :: Sign(k) == s then
      var k :| Sign(k) == s;
      Some(k)
    else None
  }

  ghost function Check(s: string, now: int): Option<IssuerClaims>
  {
    var k := Unsign(s);
    if k.Some? && Unexpired(k.value, now) then k else None
  }

  lemma CheckSign(k: IssuerClaims, now: int)
    ensures Check(Sign(k), now) == if Unexpired(k, now) then Some(k) else None
  {
    assert Unsign(Sign(k)).Some?;
    SignInjective(Unsign(Sign(k)).value, k);
  }

  // ---------------------------------------------------------------- the codec

  ghost function Sample(): Codec
  {
    Codec(s => s, d => Encode(d), s => Decode(s), k => Sign(k), (s, now) => Check(s, now), s => None, s => s)
  }

  /** The hypotheses of the SD-JWT theorems can be met together. */
  lemma SampleIsLawful()
    ensures Lawful(Sample()) && CollisionFree(Sample())
  {
    var c := Sample();
    forall d ensures c.decode(c.encode(d)) == Pair(d.name, d.value)
      ensures c.encode(d) != "" && Plain(c.encode(d)) && !Dotted(c.encode(d))
    {
      DecodeEncode(d);
      PackPlain(if d.value.Num? then [d.salt, d.name, "n", PrintInt(d.value.cents)] else [d.salt, d.name, "t", d.value.s]);
    }
    forall k, now ensures c.check(c.sign(k), now) == if Unexpired(k, now) then Some(k) else None {
      CheckSign(k, now);
    }
    forall k ensures c.sign(k) != "" && Plain(c.sign(k)) {
      PackPlain(Fields(k) + k.sd);
    }
  }
}

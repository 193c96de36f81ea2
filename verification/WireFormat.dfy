/** The SD-JWT wire format of RFC 9901, section 4: printing, the three splitters of the code base,
    and the string that the key-binding hash covers. */
module WireFormat {
  import opened Basics

  predicate Plain(s: string)
  {
    '~' !in s
  }

  predicate AllPlain(ds: seq<string>)
  {
    forall i :: 0 <= i < |ds| ==> Plain(ds[i])
  }

  predicate Dotted(s: string)
  {
    '.' in s
  }

  // ---------------------------------------------------------------- splitting and printing

  /** Splitting on "~": one part more than there are separators. */
  function Split(s: string): (parts: seq<string>)
    ensures parts != []
  {
    if s == "" then [""]
    else
      var rest := Split(s[1..]);
      if s[0] == '~' then [""] + rest else [[s[0]] + rest[0]] + rest[1..]
  }

  function Join(ds: seq<string>): string
  {
    if ds == [] then "" else if |ds| == 1 then ds[0] else ds[0] + "~" + Join(ds[1..])
  }

  function Tilded(ds: seq<string>): string
  {
    if ds == [] then "" else ds[0] + "~" + Tilded(ds[1..])
  }

  /** What the key-binding hash covers: issuer JWT and disclosures, each followed by "~". */
  function SdInput(jwt: string, ds: seq<string>): string
  {
    jwt + "~" + Tilded(ds)
  }

  /** A presentation; an empty `kb` means none. */
  function Present(jwt: string, ds: seq<string>, kb: string): string
  {
    SdInput(jwt, ds) + kb
  }

  /** The credential as the issuer prints it. */
  function Printed(jwt: string, ds: seq<string>): string
  {
    jwt + "~" + Join(ds) + "~"
  }

  lemma {:induction false} SplitPlain(a: string)
    requires Plain(a)
    ensures Split(a) == [a]
  {
    if a != "" {
      SplitPlain(a[1..]);
      assert a == [a[0]] + a[1..];
    }
  }

  lemma {:induction false} SplitFirst(a: string, b: string)
    requires Plain(a)
    ensures Split(a + "~" + b) == [a] + Split(b)
  {
    var s := a + "~" + b;
    if a == "" {
      assert s[1..] == b;
    } else {
      SplitFirst(a[1..], b);
      assert s[1..] == a[1..] + "~" + b;
      assert a == [a[0]] + a[1..];
    }
  }

  lemma {:induction false} SplitTilded(ds: seq<string>, kb: string)
    requires AllPlain(ds) && Plain(kb)
    ensures Split(Tilded(ds) + kb) == ds + [kb]
  {
    if ds == [] {
      SplitPlain(kb);
      assert Tilded(ds) + kb == kb;
    } else {
      assert Plain(ds[0]);
      assert Tilded(ds) + kb == ds[0] + "~" + (Tilded(ds[1..]) + kb);
      SplitTilded(ds[1..], kb);
      SplitFirst(ds[0], Tilded(ds[1..]) + kb);
      assert ds + [kb] == [ds[0]] + (ds[1..] + [kb]);
    }
  }

  /** Splitting undoes printing a presentation. */
  lemma SplitPresent(jwt: string, ds: seq<string>, kb: string)
    requires Plain(jwt) && AllPlain(ds) && Plain(kb)
    ensures Split(Present(jwt, ds, kb)) == [jwt] + ds + [kb]
  {
    assert Present(jwt, ds, kb) == jwt + "~" + (Tilded(ds) + kb);
    SplitFirst(jwt, Tilded(ds) + kb);
    SplitTilded(ds, kb);
    assert [jwt] + (ds + [kb]) == [jwt] + ds + [kb];
  }

  lemma {:induction false} JoinTilded(ds: seq<string>)
    requires ds != []
    ensures Join(ds) + "~" == Tilded(ds)
  {
    if |ds| > 1 {
      JoinTilded(ds[1..]);
      assert Join(ds) + "~" == ds[0] + "~" + (Join(ds[1..]) + "~");
    } else {
      assert Tilded(ds[1..]) == "";
      assert ds[0] + "~" + "" == ds[0] + "~";
    }
  }

  /** The issuer's print is the presentation of all its disclosures without key binding. */
  lemma PrintedIsPresentation(jwt: string, ds: seq<string>)
    requires ds != []
    ensures Printed(jwt, ds) == Present(jwt, ds, "")
  {
    JoinTilded(ds);
    assert Printed(jwt, ds) == jwt + "~" + (Join(ds) + "~");
  }

  /** The hashed string determines the issuer JWT and the disclosure list. */
  lemma SdInputInjective(jwt1: string, ds1: seq<string>, jwt2: string, ds2: seq<string>)
    requires Plain(jwt1) && AllPlain(ds1) && Plain(jwt2) && AllPlain(ds2)
    requires SdInput(jwt1, ds1) == SdInput(jwt2, ds2)
    ensures jwt1 == jwt2 && ds1 == ds2
  {
    SplitPresent(jwt1, ds1, "");
    SplitPresent(jwt2, ds2, "");
    assert Present(jwt1, ds1, "") == SdInput(jwt1, ds1) && Present(jwt2, ds2, "") == SdInput(jwt2, ds2);
    var p := [jwt1] + ds1 + [""];
    assert p == [jwt2] + ds2 + [""];
    assert p[0] == jwt1 && p[0] == jwt2;
    assert p[1..|p| - 1] == ds1 && p[1..|p| - 1] == ds2;
  }

  // ---------------------------------------------------------------- the builders of the hashed string

  lemma {:induction false} TildedAppend(ds: seq<string>, d: string)
    ensures Tilded(ds + [d]) == Tilded(ds) + d + "~"
  {
    if ds == [] {
      assert ([d])[1..] == [];
      assert Tilded([d]) == d + "~";
      assert ds + [d] == [d];
    } else {
      TildedAppend(ds[1..], d);
      assert (ds + [d])[1..] == ds[1..] + [d];
      assert Tilded(ds + [d]) == ds[0] + "~" + (Tilded(ds[1..]) + d + "~");
    }
  }

  /** The server and the Go client write a separator after each part. */
  method BuildSdInput(jwt: string, ds: seq<string>) returns (s: string)
    ensures s == SdInput(jwt, ds)
  {
    s := jwt + "~";
    for i := 0 to |ds|
      invariant s == SdInput(jwt, ds[..i])
    {
      TildedAppend(ds[..i], ds[i]);
      assert ds[..i + 1] == ds[..i] + [ds[i]];
      s := s + ds[i] + "~";
    }
    assert ds[..|ds|] == ds;
  }

  /** The Rust client writes a separator before each disclosure and one at the end. */
  method BuildSdInputRust(jwt: string, ds: seq<string>) returns (s: string)
    ensures s == SdInput(jwt, ds)
  {
    s := jwt;
    for i := 0 to |ds|
      invariant s + "~" == SdInput(jwt, ds[..i])
    {
      TildedAppend(ds[..i], ds[i]);
      assert ds[..i + 1] == ds[..i] + [ds[i]];
      s := s + "~" + ds[i];
    }
    assert ds[..|ds|] == ds;
    s := s + "~";
  }

  // ---------------------------------------------------------------- the three splitters

  datatype Parts = Parts(jwt: string, disclosures: seq<string>, kb: string)

  function NonEmpty(ps: seq<string>): seq<string>
  {
    if ps == [] then []
    else
      var last := ps[|ps| - 1];
      if last == "" then NonEmpty(ps[..|ps| - 1]) else NonEmpty(ps[..|ps| - 1]) + [last]
  }

  function Undotted(ps: seq<string>): seq<string>
  {
    if ps == [] then []
    else
      var last := ps[|ps| - 1];
      if last == "" || Dotted(last) then Undotted(ps[..|ps| - 1]) else Undotted(ps[..|ps| - 1]) + [last]
  }

  function LastDotted(ps: seq<string>): string
  {
    if ps == [] then ""
    else if Dotted(ps[|ps| - 1]) then ps[|ps| - 1] else LastDotted(ps[..|ps| - 1])
  }

  /** Server: a part with a dot is the key-binding JWT, wherever it stands. */
  function ServerParts(token: string): Option<Parts>
  {
    var ps := Split(token);
    if ps[0] == "" then None else Some(Parts(ps[0], Undotted(ps[1..]), LastDotted(ps[1..])))
  }

  /** Go client: the last part, if there is one after the JWT and it is not empty. */
  function GoParts(token: string): Option<Parts>
  {
    var ps := Split(token);
    if ps[0] == "" then None
    else if |ps| == 1 then Some(Parts(ps[0], [], ""))
    else Some(Parts(ps[0], NonEmpty(ps[1..|ps| - 1]), ps[|ps| - 1]))
  }

  /** Rust client: the last part, if it is not empty and differs from the issuer JWT. */
  function RustParts(token: string): Option<Parts>
  {
    var ps := Split(token);
    var last := ps[|ps| - 1];
    if ps[0] == "" then None
    else if last != "" && last != ps[0] then Some(Parts(ps[0], NonEmpty(ps[1..|ps| - 1]), last))
    else Some(Parts(ps[0], NonEmpty(ps[1..]), ""))
  }

  method SplitOnServer(token: string) returns (r: Option<Parts>)
    ensures r == ServerParts(token)
  {
    var ps := Split(token);
    if ps[0] == "" {
      return None;
    }
    var kb, ds := "", [];
    var rest := ps[1..];
    for i := 0 to |rest|
      invariant ds == Undotted(rest[..i]) && kb == LastDotted(rest[..i])
    {
      assert rest[..i + 1][..i] == rest[..i];
      if rest[i] == "" {
        continue;
      }
      if Dotted(rest[i]) {
        kb := rest[i];
      } else {
        ds := ds + [rest[i]];
      }
    }
    assert rest[..|rest|] == rest;
    return Some(Parts(ps[0], ds, kb));
  }

  method SplitInGo(token: string) returns (r: Option<Parts>)
    ensures r == GoParts(token)
  {
    var ps := Split(token);
    if ps[0] == "" {
      return None;
    }
    var kb, ds := "", [];
    if |ps| > 1 {
      var last := ps[|ps| - 1];
      if last != "" {
        kb := last;
      }
      var end := |ps| - 1;
      if kb == "" {
        end := |ps|;
      }
      var middle := ps[1..end];
      for i := 0 to |middle|
        invariant ds == NonEmpty(middle[..i])
      {
        assert middle[..i + 1][..i] == middle[..i];
        if middle[i] != "" {
          ds := ds + [middle[i]];
        }
      }
      assert middle[..|middle|] == middle;
      if kb == "" {
        assert middle[..|middle| - 1] == ps[1..|ps| - 1];
      }
    }
    return Some(Parts(ps[0], ds, kb));
  }

  lemma {:induction false} SplitAllPlain(s: string)
    ensures AllPlain(Split(s))
  {
    if s != "" {
      SplitAllPlain(s[1..]);
    }
  }

  lemma {:induction false} UndottedPlain(ps: seq<string>)
    requires AllPlain(ps)
    ensures AllPlain(Undotted(ps))
  {
    if ps != [] {
      UndottedPlain(ps[..|ps| - 1]);
    }
  }

  /** What the server reads out of any token contains no separator. */
  lemma ServerPartsPlain(token: string)
    requires ServerParts(token).Some?
    ensures Plain(ServerParts(token).value.jwt) && AllPlain(ServerParts(token).value.disclosures)
  {
    SplitAllPlain(token);
    UndottedPlain(Split(token)[1..]);
  }

  // ---------------------------------------------------------------- arbitrary tokens

  lemma {:induction false} JoinSplit(s: string)
    ensures Join(Split(s)) == s
  {
    if s != "" {
      JoinSplit(s[1..]);
      var ps, rest := Split(s), Split(s[1..]);
      assert s == [s[0]] + s[1..];
      if s[0] == '~' {
        assert ps[1..] == rest;
      } else if |rest| > 1 {
        assert ps[1..] == rest[1..];
        assert Join(ps) == [s[0]] + rest[0] + "~" + Join(rest[1..]);
      }
    }
  }

  lemma {:induction false} JoinLast(ps: seq<string>)
    requires ps != []
    ensures Join(ps) == Tilded(ps[..|ps| - 1]) + ps[|ps| - 1]
  {
    if |ps| > 1 {
      var init := ps[..|ps| - 1];
      JoinLast(ps[1..]);
      assert init[1..] == ps[1..][..|ps| - 2];
      assert Tilded(init) == ps[0] + "~" + Tilded(init[1..]);
    }
  }

  /** Nothing is lost in splitting. */
  lemma UnsplitSplit(s: string)
    ensures var ps := Split(s); Tilded(ps[..|ps| - 1]) + ps[|ps| - 1] == s
  {
    JoinSplit(s);
    JoinLast(Split(s));
  }

  lemma UndottedMore(ps: seq<string>, x: string)
    ensures Undotted(ps + [x]) == Undotted(ps) + if x == "" || Dotted(x) then [] else [x]
  {
    assert (ps + [x])[..|ps|] == ps;
  }

  /** Disclosures are the parts that are neither empty nor dotted, in order. */
  lemma {:induction false} UndottedConcat(a: seq<string>, b: seq<string>)
    ensures Undotted(a + b) == Undotted(a) + Undotted(b)
  {
    if b == [] {
      assert a + b == a;
    } else {
      var init, x := b[..|b| - 1], b[|b| - 1];
      UndottedConcat(a, init);
      UndottedMore(a + init, x);
      UndottedMore(init, x);
      assert a + b == a + init + [x] && b == init + [x];
    }
  }

  lemma UndottedOne(x: string)
    ensures Undotted([x]) == if x == "" || '.' in x then [] else [x]
  {
    assert [x][..0] == [];
  }

  lemma NonEmptyMore(ps: seq<string>, x: string)
    ensures NonEmpty(ps + [x]) == NonEmpty(ps) + if x == "" then [] else [x]
  {
    assert (ps + [x])[..|ps|] == ps;
  }

  /** The clients drop the parts that are empty, and no others. */
  lemma {:induction false} NonEmptyConcat(a: seq<string>, b: seq<string>)
    ensures NonEmpty(a + b) == NonEmpty(a) + NonEmpty(b)
  {
    if b == [] {
      assert a + b == a;
    } else {
      var init, x := b[..|b| - 1], b[|b| - 1];
      NonEmptyConcat(a, init);
      NonEmptyMore(a + init, x);
      NonEmptyMore(init, x);
      assert a + b == a + init + [x] && b == init + [x];
    }
  }

  lemma NonEmptyOne(x: string)
    ensures NonEmpty([x]) == if x == "" then [] else [x]
  {
    assert [x][..0] == [];
  }

  /** The key-binding JWT is the last part with a dot in it, wherever it stands. */
  lemma {:induction false} LastDottedFound(ps: seq<string>)
    ensures if forall i :: 0 <= i < |ps| ==> '.' !in ps[i] then LastDotted(ps) == ""
            else exists i :: 0 <= i < |ps| && '.' in ps[i] && LastDotted(ps) == ps[i]
                             && forall j :: i < j < |ps| ==> '.' !in ps[j]
  {
    if ps != [] {
      var init := ps[..|ps| - 1];
      LastDottedFound(init);
      if '.' in ps[|ps| - 1] {
        assert LastDotted(ps) == ps[|ps| - 1];
      } else if !(forall i :: 0 <= i < |init| ==> '.' !in init[i]) {
        var i :| 0 <= i < |init| && '.' in init[i] && LastDotted(init) == init[i] && forall j :: i < j < |init| ==> '.' !in init[j];
        assert ps[i] == init[i];
        assert forall j :: i < j < |ps| ==> '.' !in ps[j];
      }
    }
  }

  /** What the server makes of an arbitrary token. */
  lemma ServerClassifies(token: string)
    ensures ServerParts(token).None? <==> Split(token)[0] == ""
    ensures ServerParts(token).Some? ==>
              var p, rest := ServerParts(token).value, Split(token)[1..];
              p.jwt == Split(token)[0] && p.disclosures == Undotted(rest) && p.kb == LastDotted(rest)
  {
  }

  /** What the Go client makes of one: the last part binds, the others disclose unless they are empty. */
  lemma GoClassifies(token: string)
    ensures GoParts(token).None? <==> Split(token)[0] == ""
    ensures GoParts(token).Some? ==>
              var p, ps := GoParts(token).value, Split(token);
              && p.jwt == ps[0]
              && p.kb == (if |ps| == 1 then "" else ps[|ps| - 1])
              && p.disclosures == (if |ps| == 1 then [] else NonEmpty(ps[1..|ps| - 1]))
              && forall x :: x in p.disclosures ==> x != ""
  {
    if |Split(token)| > 1 {
      NonEmptyShape(Split(token)[1..|Split(token)| - 1]);
    }
  }

  /** What the Rust client makes of one: the same, unless the last part is empty or repeats the issuer JWT. */
  lemma RustClassifies(token: string)
    ensures RustParts(token).None? <==> Split(token)[0] == ""
    ensures RustParts(token).Some? ==>
              var p, ps := RustParts(token).value, Split(token);
              var last := ps[|ps| - 1];
              && p.jwt == ps[0]
              && (last == "" || last == ps[0] ==> p.kb == "" && p.disclosures == NonEmpty(ps[1..]))
              && (last != "" && last != ps[0] ==> p.kb == last && p.disclosures + [last] == NonEmpty(ps[1..]))
  {
    var ps := Split(token);
    var last := ps[|ps| - 1];
    if last != "" && last != ps[0] {
      var inner := ps[1..|ps| - 1];
      assert ps[1..] == inner + [last];
      NonEmptyConcat(inner, [last]);
      NonEmptyOne(last);
    }
  }

  lemma {:induction false} NonEmptyShape(ps: seq<string>)
    ensures forall x :: x in NonEmpty(ps) ==> x != ""
  {
    if ps != [] {
      NonEmptyShape(ps[..|ps| - 1]);
    }
  }

  /** No inner part is empty, and only the last part may hold a dot, or be empty. */
  predicate Canonical(token: string)
  {
    var ps := Split(token);
    && |ps| >= 2
    && (forall i :: 1 <= i < |ps| - 1 ==> ps[i] != "" && !Dotted(ps[i]))
    && (ps[|ps| - 1] == "" || Dotted(ps[|ps| - 1]))
  }

  lemma {:induction false} UndottedShape(ps: seq<string>)
    ensures forall i :: 0 <= i < |Undotted(ps)| ==> Undotted(ps)[i] != "" && !Dotted(Undotted(ps)[i])
    ensures LastDotted(ps) == "" || Dotted(LastDotted(ps))
  {
    if ps != [] {
      UndottedShape(ps[..|ps| - 1]);
    }
  }

  lemma {:induction false} LastDottedPlain(ps: seq<string>)
    requires AllPlain(ps)
    ensures Plain(LastDotted(ps))
  {
    if ps != [] {
      LastDottedPlain(ps[..|ps| - 1]);
    }
  }

  /** What the server hashes, with the key-binding JWT that it read put back at the end, is the token
      that it was given if and only if the token is canonical: only then does the hash cover the token
      with nothing but its key-binding suffix removed. */
  lemma HashCoversTokenExactly(token: string)
    requires ServerParts(token).Some?
    ensures var p := ServerParts(token).value;
            SdInput(p.jwt, p.disclosures) + p.kb == token <==> Canonical(token)
  {
    var p, ps := ServerParts(token).value, Split(token);
    if Canonical(token) {
      CanonicalReads(token);
      UnsplitSplit(token);
      assert ps[..|ps| - 1] == [ps[0]] + ps[1..|ps| - 1];
      assert ([ps[0]] + ps[1..|ps| - 1])[1..] == ps[1..|ps| - 1];
    }
    if SdInput(p.jwt, p.disclosures) + p.kb == token {
      ServerPartsPlain(token);
      SplitAllPlain(token);
      LastDottedPlain(ps[1..]);
      UndottedShape(ps[1..]);
      SplitPresent(p.jwt, p.disclosures, p.kb);
      assert Present(p.jwt, p.disclosures, p.kb) == token;
      assert ps == [p.jwt] + p.disclosures + [p.kb];
    }
  }

  lemma CanonicalReads(token: string)
    requires Canonical(token) && ServerParts(token).Some?
    ensures var ps := Split(token);
            ServerParts(token) == Some(Parts(ps[0], ps[1..|ps| - 1], ps[|ps| - 1]))
  {
    var ps := Split(token);
    var inner, rest := ps[1..|ps| - 1], ps[1..];
    assert rest[..|rest| - 1] == inner && rest[|rest| - 1] == ps[|ps| - 1];
    UndottedAll(inner);
    NoneDotted(inner);
  }

  // ---------------------------------------------------------------- agreement

  /** Disclosures are base64url text, hence without dots; a key-binding JWT has dots. */
  predicate WellFormed(p: Parts)
  {
    && p.jwt != "" && Plain(p.jwt)
    && (forall i :: 0 <= i < |p.disclosures| ==> p.disclosures[i] != "" && Plain(p.disclosures[i]) && !Dotted(p.disclosures[i]))
    && Plain(p.kb) && (p.kb != "" ==> Dotted(p.kb))
  }

  lemma {:induction false} NonEmptyAll(ds: seq<string>)
    requires forall i :: 0 <= i < |ds| ==> ds[i] != ""
    ensures NonEmpty(ds) == ds
  {
    if ds != [] {
      NonEmptyAll(ds[..|ds| - 1]);
      assert ds == ds[..|ds| - 1] + [ds[|ds| - 1]];
    }
  }

  lemma {:induction false} UndottedAll(ds: seq<string>)
    requires forall i :: 0 <= i < |ds| ==> ds[i] != "" && !Dotted(ds[i])
    ensures Undotted(ds) == ds
  {
    if ds != [] {
      var init := ds[..|ds| - 1];
      UndottedAll(init);
      assert Undotted(ds) == Undotted(init) + [ds[|ds| - 1]];
    }
  }

  lemma {:induction false} NoneDotted(ds: seq<string>)
    requires forall i :: 0 <= i < |ds| ==> !Dotted(ds[i])
    ensures LastDotted(ds) == ""
  {
    if ds != [] {
      NoneDotted(ds[..|ds| - 1]);
    }
  }

  lemma ServerReads(p: Parts)
    requires WellFormed(p)
    ensures ServerParts(Present(p.jwt, p.disclosures, p.kb)) == Some(p)
  {
    SplitPresent(p.jwt, p.disclosures, p.kb);
    var rest := p.disclosures + [p.kb];
    assert ([p.jwt] + p.disclosures + [p.kb])[1..] == rest;
    UndottedAll(p.disclosures);
    NoneDotted(p.disclosures);
    assert rest[..|rest| - 1] == p.disclosures;
  }

  lemma GoReads(p: Parts)
    requires WellFormed(p)
    ensures GoParts(Present(p.jwt, p.disclosures, p.kb)) == Some(p)
  {
    SplitPresent(p.jwt, p.disclosures, p.kb);
    var ps := [p.jwt] + p.disclosures + [p.kb];
    assert ps[1..|ps| - 1] == p.disclosures;
    NonEmptyAll(p.disclosures);
  }

  lemma RustReads(p: Parts)
    requires WellFormed(p)
    ensures RustParts(Present(p.jwt, p.disclosures, p.kb)) == Some(p) <==> p.kb != p.jwt
  {
    SplitPresent(p.jwt, p.disclosures, p.kb);
    var token := Present(p.jwt, p.disclosures, p.kb);
    var ps := Split(token);
    assert ps[0] == p.jwt && ps[|ps| - 1] == p.kb;
    NonEmptyAll(p.disclosures);
    if p.kb == p.jwt {
      assert RustParts(token).value.kb == "";
    } else if p.kb == "" {
      assert ps[1..][..|p.disclosures|] == p.disclosures;
      assert NonEmpty(ps[1..]) == p.disclosures;
    } else {
      assert ps[1..|ps| - 1] == p.disclosures;
    }
  }

  /** On well-formed tokens all three splitters read back what was presented, except that the Rust
      client takes a key-binding JWT equal to the issuer JWT for a disclosure. */
  lemma SplittersAgreeExactly(p: Parts)
    requires WellFormed(p)
    ensures var token := Present(p.jwt, p.disclosures, p.kb);
            && ServerParts(token) == Some(p)
            && GoParts(token) == Some(p)
            && (RustParts(token) == Some(p) <==> p.kb != p.jwt)
  {
    ServerReads(p);
    GoReads(p);
    RustReads(p);
  }
}

/** The hand-written scanner that takes a JSON array apart, and printing, which it undoes. */
module JsonArray {

  // ---------------------------------------------------------------- the scanner

  datatype Scan = Scan(depth: int, inString: bool, escape: bool)

  function Next(st: Scan, c: char): Scan
  {
    if st.escape then st.(escape := false)
    else if c == '\\' && st.inString then st.(escape := true)
    else if c == '"' then st.(inString := !st.inString)
    else if st.inString then st
    else if c == '{' || c == '[' then st.(depth := st.depth + 1)
    else if c == '}' || c == ']' then st.(depth := st.depth - 1)
    else st
  }

  predicate Cuts(st: Scan, c: char)
  {
    !st.escape && !st.inString && c == ',' && st.depth == 0
  }

  /** The elements still to come, with `open` the text of the current one so far. */
  function Cut(st: Scan, open: string, s: string): seq<string>
    decreases |s|
  {
    if s == "" then [open]
    else if Cuts(st, s[0]) then [open] + Cut(Next(st, s[0]), "", s[1..])
    else Cut(Next(st, s[0]), open + [s[0]], s[1..])
  }

  function TrimLeft(s: string): string
  {
    if s != "" && s[0] <= ' ' then TrimLeft(s[1..]) else s
  }

  function TrimRight(s: string): string
  {
    if s != "" && s[|s| - 1] <= ' ' then TrimRight(s[..|s| - 1]) else s
  }

  function Inner(json: string): string
  {
    var t := TrimRight(TrimLeft(json));
    var u := if t != "" && t[0] == '[' then t[1..] else t;
    if u != "" && u[|u| - 1] == ']' then u[..|u| - 1] else u
  }

  const OUTSIDE := Scan(0, false, false)

  function Elements(json: string): seq<string>
  {
    Cut(OUTSIDE, "", Inner(json))
  }

  method SplitJsonArray(json: string) returns (result: seq<string>)
    ensures result == Elements(json)
  {
    var inner := Inner(json);
    result := [];
    var depth, inString, escape, start := 0, false, false, 0;
    for i := 0 to |inner|
      invariant 0 <= start <= i
      invariant result + Cut(Scan(depth, inString, escape), inner[start..i], inner[i..]) == Elements(json)
    {
      var c := inner[i];
      CutStep(Scan(depth, inString, escape), inner, start, i);
      if escape {
        escape := false;
        continue;
      }
      if c == '\\' && inString {
        escape := true;
        continue;
      }
      if c == '"' {
        inString := !inString;
        continue;
      }
      if !inString {
        if c == '{' || c == '[' {
          depth := depth + 1;
        } else if c == '}' || c == ']' {
          depth := depth - 1;
        } else if c == ',' && depth == 0 {
          result := result + [inner[start..i]];
          start := i + 1;
        }
      }
    }
    assert inner[|inner|..] == "" && inner[start..|inner|] == inner[start..];
    result := result + [inner[start..]];
  }

  /** One step of the scan, in terms of positions. */
  lemma CutStep(st: Scan, s: string, start: nat, i: nat)
    requires start <= i < |s|
    ensures Cut(st, s[start..i], s[i..]) ==
            if Cuts(st, s[i]) then [s[start..i]] + Cut(Next(st, s[i]), s[i + 1..i + 1], s[i + 1..])
            else Cut(Next(st, s[i]), s[start..i + 1], s[i + 1..])
  {
    CutNext(st, s[start..i], s[i], s[i + 1..], s[i..]);
    assert s[start..i] + [s[i]] == s[start..i + 1];
    assert s[i + 1..i + 1] == "";
  }

  lemma CutNext(st: Scan, open: string, c: char, rest: string, s: string)
    requires s == [c] + rest
    ensures Cut(st, open, s) ==
            if Cuts(st, c) then [open] + Cut(Next(st, c), "", rest) else Cut(Next(st, c), open + [c], rest)
  {
    assert s[1..] == rest;
  }

  // ---------------------------------------------------------------- printing

  /** A character of a JSON string: plain, or preceded by a backslash. */
  datatype StringChar = Literal(c: char) | Escaped(c: char)

  datatype Json =
    | Text(chars: seq<StringChar>)
    | Atom(text: string)
    | Array(items: seq<Json>)
    | Object(fields: seq<Field>)

  datatype Field = Field(key: seq<StringChar>, value: Json)

  predicate ValidChars(cs: seq<StringChar>)
  {
    forall i :: 0 <= i < |cs| && cs[i].Literal? ==> cs[i].c != '"' && cs[i].c != '\\'
  }

  /** Numbers and the three keywords contain none of the structural characters. */
  predicate ValidAtom(text: string)
  {
    forall i :: 0 <= i < |text| ==> text[i] !in {'"', '{', '}', '[', ']', ','}
  }

  predicate Valid(j: Json)
  {
    match j
    case Text(chars) => ValidChars(chars)
    case Atom(text) => ValidAtom(text)
    case Array(items) => forall i :: 0 <= i < |items| ==> Valid(items[i])
    case Object(fields) => forall i :: 0 <= i < |fields| ==> ValidChars(fields[i].key) && Valid(fields[i].value)
  }

  function PrintChars(cs: seq<StringChar>): string
  {
    if cs == [] then ""
    else (if cs[0].Literal? then [cs[0].c] else ['\\', cs[0].c]) + PrintChars(cs[1..])
  }

  function PrintText(cs: seq<StringChar>): string
  {
    "\"" + PrintChars(cs) + "\""
  }

  function Print(j: Json): string
    decreases j, 0
  {
    match j
    case Text(chars) => PrintText(chars)
    case Atom(text) => text
    case Array(items) => "[" + PrintList(items) + "]"
    case Object(fields) => "{" + PrintFields(fields) + "}"
  }

  function PrintList(js: seq<Json>): string
    decreases js, 1
  {
    if js == [] then ""
    else if |js| == 1 then Print(js[0])
    else Print(js[0]) + "," + PrintList(js[1..])
  }

  function PrintField(f: Field): string
    decreases f, 1
  {
    PrintText(f.key) + ":" + Print(f.value)
  }

  function PrintFields(fs: seq<Field>): string
    decreases fs, 2
  {
    if fs == [] then ""
    else if |fs| == 1 then PrintField(fs[0])
    else PrintField(fs[0]) + "," + PrintFields(fs[1..])
  }

  // ---------------------------------------------------------------- scanning a printed value

  function At(depth: int): Scan
  {
    Scan(depth, false, false)
  }

  /** The scan passes over `p` and is back where it was, with `p` added to the open element. */
  ghost predicate Passes(st: Scan, p: string)
  {
    forall open, rest :: Cut(st, open, p + rest) == Cut(st, open + p, rest)
  }

  /** Passing over one character that does not cut. */
  lemma CutOne(st: Scan, open: string, c: char, rest: string)
    requires !Cuts(st, c)
    ensures Cut(st, open, [c] + rest) == Cut(Next(st, c), open + [c], rest)
  {
    assert ([c] + rest)[1..] == rest;
  }

  lemma PassesBoth(st: Scan, p: string, q: string)
    requires Passes(st, p) && Passes(st, q)
    ensures Passes(st, p + q)
  {
    forall open, rest ensures Cut(st, open, p + q + rest) == Cut(st, open + (p + q), rest) {
      assert p + q + rest == p + (q + rest) && open + (p + q) == open + p + q;
    }
  }

  lemma PassesNothing(st: Scan)
    ensures Passes(st, "")
  {
    forall open: string, rest: string ensures Cut(st, open, "" + rest) == Cut(st, open + "", rest) {
      assert "" + rest == rest && open + "" == open;
    }
  }

  lemma PassesChar(st: Scan, c: char)
    requires !Cuts(st, c) && Next(st, c) == st
    ensures Passes(st, [c])
  {
    forall open, rest ensures Cut(st, open, [c] + rest) == Cut(st, open + [c], rest) {
      CutOne(st, open, c, rest);
    }
  }

  lemma PassesEscape(depth: int, c: char)
    ensures Passes(Scan(depth, true, false), ['\\', c])
  {
    var st := Scan(depth, true, false);
    forall open, rest ensures Cut(st, open, ['\\', c] + rest) == Cut(st, open + ['\\', c], rest) {
      assert ['\\', c] + rest == ['\\'] + ([c] + rest);
      CutOne(st, open, '\\', [c] + rest);
      CutOne(st.(escape := true), open + ['\\'], c, rest);
      assert open + ['\\'] + [c] == open + ['\\', c];
    }
  }

  /** What opens and closes around a passed middle is passed as a whole. */
  lemma PassesBracketed(st: Scan, c: char, p: string, d: char)
    requires !Cuts(st, c) && Passes(Next(st, c), p) && !Cuts(Next(st, c), d) && Next(Next(st, c), d) == st
    ensures Passes(st, [c] + p + [d])
  {
    forall open, rest ensures Cut(st, open, [c] + p + [d] + rest) == Cut(st, open + ([c] + p + [d]), rest) {
      assert [c] + p + [d] + rest == [c] + (p + ([d] + rest));
      CutOne(st, open, c, p + ([d] + rest));
      CutOne(Next(st, c), open + [c] + p, d, rest);
      assert open + [c] + p + [d] == open + ([c] + p + [d]);
    }
  }

  lemma {:induction false} PassesChars(depth: int, cs: seq<StringChar>)
    requires ValidChars(cs)
    ensures Passes(Scan(depth, true, false), PrintChars(cs))
  {
    var st := Scan(depth, true, false);
    if cs == [] {
      PassesNothing(st);
    } else {
      PassesChars(depth, cs[1..]);
      if cs[0].Literal? {
        PassesChar(st, cs[0].c);
        PassesBoth(st, [cs[0].c], PrintChars(cs[1..]));
      } else {
        PassesEscape(depth, cs[0].c);
        PassesBoth(st, ['\\', cs[0].c], PrintChars(cs[1..]));
      }
    }
  }

  lemma PassesText(depth: int, cs: seq<StringChar>)
    requires ValidChars(cs)
    ensures Passes(At(depth), PrintText(cs))
  {
    PassesChars(depth, cs);
    PassesBracketed(At(depth), '"', PrintChars(cs), '"');
  }

  lemma {:induction false} PassesAtom(depth: int, text: string)
    requires ValidAtom(text)
    ensures Passes(At(depth), text)
  {
    if text == "" {
      PassesNothing(At(depth));
    } else {
      PassesAtom(depth, text[1..]);
      PassesChar(At(depth), text[0]);
      PassesBoth(At(depth), [text[0]], text[1..]);
      assert [text[0]] + text[1..] == text;
    }
  }

  lemma {:induction false} PassesJson(depth: nat, j: Json)
    requires Valid(j)
    ensures Passes(At(depth), Print(j))
    decreases j, 0
  {
    match j {
      case Text(chars) => PassesText(depth, chars);
      case Atom(text) => PassesAtom(depth, text);
      case Array(items) =>
        PassesList(depth + 1, items);
        PassesBracketed(At(depth), '[', PrintList(items), ']');
      case Object(fields) =>
        PassesFields(depth + 1, fields);
        PassesBracketed(At(depth), '{', PrintFields(fields), '}');
    }
  }

  /** Below the top level a comma does not cut. */
  lemma PassesSeparated(depth: nat, p: string, c: char, q: string)
    requires Passes(At(depth), p) && Passes(At(depth), q)
    requires c == ':' || (c == ',' && depth > 0)
    ensures Passes(At(depth), p + [c] + q)
  {
    PassesChar(At(depth), c);
    PassesBoth(At(depth), p, [c]);
    PassesBoth(At(depth), p + [c], q);
  }

  lemma {:induction false} PassesList(depth: nat, js: seq<Json>)
    requires depth > 0 && forall i :: 0 <= i < |js| ==> Valid(js[i])
    ensures Passes(At(depth), PrintList(js))
    decreases js, 1
  {
    if js == [] {
      PassesNothing(At(depth));
    } else {
      PassesJson(depth, js[0]);
      if |js| > 1 {
        PassesList(depth, js[1..]);
        PassesSeparated(depth, Print(js[0]), ',', PrintList(js[1..]));
      }
    }
  }

  lemma {:induction false} PassesFields(depth: nat, fs: seq<Field>)
    requires depth > 0 && forall i :: 0 <= i < |fs| ==> ValidChars(fs[i].key) && Valid(fs[i].value)
    ensures Passes(At(depth), PrintFields(fs))
    decreases fs, 2
  {
    if fs == [] {
      PassesNothing(At(depth));
    } else {
      PassesText(depth, fs[0].key);
      PassesJson(depth, fs[0].value);
      PassesSeparated(depth, PrintText(fs[0].key), ':', Print(fs[0].value));
      if |fs| > 1 {
        PassesFields(depth, fs[1..]);
        PassesSeparated(depth, PrintField(fs[0]), ',', PrintFields(fs[1..]));
      }
    }
  }

  // ---------------------------------------------------------------- the round trip

  function Prints(js: seq<Json>): seq<string>
  {
    seq(|js|, i requires 0 <= i < |js| => Print(js[i]))
  }

  lemma {:induction false} CutList(js: seq<Json>)
    requires js != [] && forall i :: 0 <= i < |js| ==> Valid(js[i])
    ensures Cut(OUTSIDE, "", PrintList(js)) == Prints(js)
  {
    var p := Print(js[0]);
    PassesJson(0, js[0]);
    if |js| == 1 {
      assert p + "" == p && "" + p == p;
      assert Cut(OUTSIDE, "", p + "") == Cut(OUTSIDE, "" + p, "");
      assert Prints(js) == [p];
    } else {
      var q := PrintList(js[1..]);
      CutList(js[1..]);
      assert p + "," + q == p + ("," + q) && "" + p == p;
      assert Cut(OUTSIDE, "", p + ("," + q)) == Cut(OUTSIDE, "" + p, "," + q);
      assert ("," + q)[1..] == q;
      assert Prints(js) == [p] + Prints(js[1..]);
    }
  }

  predicate Blank(s: string)
  {
    forall i :: 0 <= i < |s| ==> s[i] <= ' '
  }

  lemma {:induction false} TrimLeftBlank(w: string, s: string)
    requires Blank(w) && s != "" && s[0] > ' '
    ensures TrimLeft(w + s) == s
  {
    if w == "" {
      assert w + s == s;
    } else {
      assert (w + s)[1..] == w[1..] + s;
      TrimLeftBlank(w[1..], s);
    }
  }

  lemma {:induction false} TrimRightBlank(s: string, w: string)
    requires Blank(w) && s != "" && s[|s| - 1] > ' '
    ensures TrimRight(s + w) == s
  {
    if w == "" {
      assert s + w == s;
    } else {
      assert (s + w)[..|s + w| - 1] == s + w[..|w| - 1];
      TrimRightBlank(s, w[..|w| - 1]);
    }
  }

  lemma InnerOf(w1: string, body: string, w2: string)
    requires Blank(w1) && Blank(w2)
    ensures Inner(w1 + ("[" + body + "]") + w2) == body
  {
    var t := "[" + body + "]";
    assert w1 + t + w2 == w1 + (t + w2);
    TrimLeftBlank(w1, t + w2);
    TrimRightBlank(t, w2);
    assert t[1..] == body + "]";
    assert (body + "]")[..|body|] == body;
  }

  /** Splitting a printed array, whatever blank space surrounds it, gives back exactly its elements
      if and only if there is at least one; an empty array comes back as one empty element. */
  lemma SplitUndoesPrinting(w1: string, js: seq<Json>, w2: string)
    requires Blank(w1) && Blank(w2) && Valid(Array(js))
    ensures Elements(w1 + Print(Array(js)) + w2) == Prints(js) <==> js != []
  {
    InnerOf(w1, PrintList(js), w2);
    if js == [] {
      assert Elements(w1 + Print(Array(js)) + w2) == [""];
      assert Prints(js) == [];
    } else {
      CutList(js);
    }
  }
}

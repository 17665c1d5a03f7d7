/**
JSON Pointer (internal/scenario/assertions.go:167-235; sections 3, 4 and 5 of
RFC 6901). Strings are sequences of bytes, as in the Go code.
*/
module JsonPointer {
  import opened Common
  import DecimalText
  import opened Json

  const MAX_POINTER: nat := 4096
  const MAX_UINT64: nat := 0xFFFF_FFFF_FFFF_FFFF

  // ---- Parsing ------------------------------------------------------------------

  /** strings.Split(s, "/") */
  function Split(s: string): (r: seq<string>)
    ensures r != []
  {
    if s == "" then [""]
    else if s[0] == '/' then [""] + Split(s[1..])
    else var r := Split(s[1..]); [[s[0]] + r[0]] + r[1..]
  }

  /** ~0 and ~1 decoded; None for any other use of '~'. */
  function Unescape(t: string): Option<string> {
    if t == "" then Some("")
    else if t[0] != '~' then
      (match Unescape(t[1..]) case None => None case Some(u) => Some([t[0]] + u))
    else if |t| < 2 || (t[1] != '0' && t[1] != '1') then None
    else (match Unescape(t[2..]) case None => None case Some(u) => Some([if t[1] == '0' then '~' else '/'] + u))
  }

  function UnescapeAll(ts: seq<string>): Option<seq<string>> {
    if ts == [] then Some([])
    else match (Unescape(ts[0]), UnescapeAll(ts[1..]))
      case (Some(t), Some(rest)) => Some([t] + rest)
      case _ => None
  }

  function Parse(pointer: string): Option<seq<string>> {
    if pointer == "" then Some([])
    else if |pointer| > MAX_POINTER || pointer[0] != '/' then None
    else UnescapeAll(Split(pointer[1..]))
  }

  function Prepend<T>(out: seq<T>, r: Option<seq<T>>): Option<seq<T>> {
    match r case None => None case Some(u) => Some(out + u)
  }

  lemma PrependMore<T>(out: seq<T>, x: T, r: Option<seq<T>>)
    ensures Prepend(out, Prepend([x], r)) == Prepend(out + [x], r)
    ensures Prepend([], r) == r && Prepend(out, Some([])) == Some(out)
  {
    if r.Some? {
      assert out + ([x] + r.value) == out + [x] + r.value;
      assert [] + r.value == r.value;
    }
    assert out + [] == out;
  }

  /** One turn of the decoding loop at offset j. */
  lemma UnescapeAt(token: string, j: nat)
    requires j < |token|
    ensures token[j] != '~' ==> Unescape(token[j..]) == Prepend([token[j]], Unescape(token[j + 1..]))
    ensures token[j] == '~' && j + 1 < |token| && token[j + 1] == '0' ==>
              Unescape(token[j..]) == Prepend(['~'], Unescape(token[j + 2..]))
    ensures token[j] == '~' && j + 1 < |token| && token[j + 1] == '1' ==>
              Unescape(token[j..]) == Prepend(['/'], Unescape(token[j + 2..]))
    ensures token[j] == '~' && (j + 1 == |token| || (token[j + 1] != '0' && token[j + 1] != '1')) ==>
              Unescape(token[j..]) == None
  {
    var t := token[j..];
    assert t[1..] == token[j + 1..];
    if j + 1 < |token| { assert t[1] == token[j + 1] && t[2..] == token[j + 2..]; }
  }

  method UnescapeToken(token: string) returns (r: Option<string>)
    ensures r == Unescape(token)
  {
    var out, j := "", 0;
    assert token[0..] == token;
    PrependMore(out, ' ', Unescape(token));
    while j < |token|
      invariant 0 <= j <= |token|
      invariant Unescape(token) == Prepend(out, Unescape(token[j..]))
    {
      UnescapeAt(token, j);
      var c, width := token[j], 1;
      if c == '~' {
        if j + 1 >= |token| { return None; }
        if token[j + 1] == '0' {
          c := '~';
        } else if token[j + 1] == '1' {
          c := '/';
        } else {
          return None;
        }
        width := 2;
      }
      PrependMore(out, c, Unescape(token[j + width..]));
      out, j := out + [c], j + width;
    }
    assert token[j..] == "";
    PrependMore(out, ' ', Unescape(token[j..]));
    return Some(out);
  }

  lemma UnescapeAllAt(raw: seq<string>, i: nat)
    requires i < |raw|
    ensures Unescape(raw[i]).None? ==> UnescapeAll(raw[i..]) == None
    ensures Unescape(raw[i]).Some? ==>
              UnescapeAll(raw[i..]) == Prepend([Unescape(raw[i]).value], UnescapeAll(raw[i + 1..]))
  {
    assert raw[i..][1..] == raw[i + 1..];
  }

  method PointerTokens(pointer: string) returns (r: Option<seq<string>>)
    ensures r == Parse(pointer)
  {
    if pointer == "" { return Some([]); }
    if |pointer| > MAX_POINTER || pointer[0] != '/' { return None; }
    var raw := Split(pointer[1..]);
    var tokens: seq<string> := [];
    assert raw[0..] == raw;
    PrependMore(tokens, "", UnescapeAll(raw));
    for i := 0 to |raw|
      invariant UnescapeAll(raw) == Prepend(tokens, UnescapeAll(raw[i..]))
    {
      UnescapeAllAt(raw, i);
      var token := UnescapeToken(raw[i]);
      if token.None? { return None; }
      PrependMore(tokens, token.value, UnescapeAll(raw[i + 1..]));
      tokens := tokens + [token.value];
    }
    assert raw[|raw|..] == [];
    PrependMore(tokens, "", UnescapeAll(raw[|raw|..]));
    return Some(tokens);
  }

  // ---- Printing: section 3 of RFC 6901 ------------------------------------------------

  function Escape(t: string): string {
    if t == "" then ""
    else (if t[0] == '~' then "~0" else if t[0] == '/' then "~1" else [t[0]]) + Escape(t[1..])
  }

  function Print(ts: seq<string>): string {
    if ts == [] then "" else "/" + Escape(ts[0]) + Print(ts[1..])
  }

  lemma {:induction false} UnescapeEscape(t: string)
    ensures Unescape(Escape(t)) == Some(t)
    ensures '/' !in Escape(t)
  {
    if t != "" {
      UnescapeEscape(t[1..]);
      var e := Escape(t);
      if t[0] == '~' || t[0] == '/' {
        assert e[2..] == Escape(t[1..]);
      } else {
        assert e[1..] == Escape(t[1..]);
      }
      assert t == [t[0]] + t[1..];
    }
  }

  lemma {:induction false} EscapeUnescape(t: string)
    requires '/' !in t && Unescape(t).Some?
    ensures Escape(Unescape(t).value) == t
  {
    if t != "" {
      if t[0] != '~' {
        EscapeUnescape(t[1..]);
        var u := Unescape(t).value;
        assert u[1..] == Unescape(t[1..]).value;
        assert t == [t[0]] + t[1..];
      } else {
        EscapeUnescape(t[2..]);
        var u := Unescape(t).value;
        assert u[1..] == Unescape(t[2..]).value;
        assert t == [t[0], t[1]] + t[2..];
      }
    }
  }

  /** Splitting a slash-free piece followed by a slash gives that piece first. */
  lemma {:induction false} SplitPiece(piece: string, rest: string)
    requires '/' !in piece
    ensures Split(piece + "/" + rest) == [piece] + Split(rest)
    ensures Split(piece) == [piece]
  {
    if piece == "" {
      assert piece + "/" + rest == "/" + rest;
      assert ("/" + rest)[1..] == rest;
    } else {
      SplitPiece(piece[1..], rest);
      assert (piece + "/" + rest)[1..] == piece[1..] + "/" + rest;
      assert piece == [piece[0]] + piece[1..];
    }
  }

  /** The pieces of a split hold no slash and join back to the text. */
  lemma {:induction false} SplitJoins(s: string)
    ensures forall i :: 0 <= i < |Split(s)| ==> '/' !in Split(s)[i]
    ensures Join(Split(s)) == "/" + s
  {
    if s != "" {
      SplitJoins(s[1..]);
      var r := Split(s[1..]);
      if s[0] == '/' {
        assert Split(s)[1..] == r;
        assert "/" + s == "/" + "" + ("/" + s[1..]);
      } else {
        assert Split(s) == [[s[0]] + r[0]] + r[1..];
        JoinPrepend(s[0], r, s[1..]);
        assert "/" + ([s[0]] + s[1..]) == "/" + s;
      }
    }
  }

  lemma JoinPrepend(c: char, r: seq<string>, text: string)
    requires r != [] && Join(r) == "/" + text
    ensures Join([[c] + r[0]] + r[1..]) == "/" + ([c] + text)
  {
    var rest := Join(r[1..]);
    assert text == (("/" + r[0]) + rest)[1..] == r[0] + rest;
    assert ([[c] + r[0]] + r[1..])[1..] == r[1..];
    assert ("/" + ([c] + r[0])) + rest == "/" + ([c] + (r[0] + rest));
  }

  function Join(ts: seq<string>): string {
    if ts == [] then "" else "/" + ts[0] + Join(ts[1..])
  }

  function EscapeAll(ts: seq<string>): seq<string> {
    if ts == [] then [] else [Escape(ts[0])] + EscapeAll(ts[1..])
  }

  lemma {:induction false} PrintIsJoin(ts: seq<string>)
    ensures Print(ts) == Join(EscapeAll(ts))
  {
    if ts != [] {
      PrintIsJoin(ts[1..]);
      assert EscapeAll(ts)[1..] == EscapeAll(ts[1..]);
    }
  }

  lemma {:induction false} SplitPrint(ts: seq<string>)
    requires ts != []
    ensures Print(ts) != "" && Print(ts)[0] == '/' && Split(Print(ts)[1..]) == EscapeAll(ts)
  {
    UnescapeEscape(ts[0]);
    if |ts| == 1 {
      assert ts[1..] == [];
      assert Print(ts) == "/" + Escape(ts[0]);
      assert Print(ts)[1..] == Escape(ts[0]);
      SplitPiece(Escape(ts[0]), "");
      assert EscapeAll(ts) == [Escape(ts[0])];
    } else {
      SplitPrint(ts[1..]);
      PrintCons(ts);
      SplitPiece(Escape(ts[0]), Print(ts[1..])[1..]);
    }
  }

  lemma PrintCons(ts: seq<string>)
    requires |ts| > 1 && Print(ts[1..]) != "" && Print(ts[1..])[0] == '/'
    ensures Print(ts)[1..] == Escape(ts[0]) + "/" + Print(ts[1..])[1..]
  {
    DropSlash(Escape(ts[0]), Print(ts[1..]));
  }

  lemma DropSlash(piece: string, tail: string)
    requires tail != "" && tail[0] == '/'
    ensures ("/" + piece + tail)[1..] == piece + "/" + tail[1..]
  {
  }

  lemma {:induction false} UnescapeEscapeAll(ts: seq<string>)
    ensures UnescapeAll(EscapeAll(ts)) == Some(ts)
  {
    if ts != [] {
      UnescapeEscape(ts[0]);
      UnescapeEscapeAll(ts[1..]);
      assert EscapeAll(ts)[1..] == EscapeAll(ts[1..]);
      assert ts == [ts[0]] + ts[1..];
    }
  }

  lemma {:induction false} EscapeUnescapeAll(ts: seq<string>)
    requires UnescapeAll(ts).Some? && forall i :: 0 <= i < |ts| ==> '/' !in ts[i]
    ensures EscapeAll(UnescapeAll(ts).value) == ts
  {
    if ts != [] {
      EscapeUnescape(ts[0]);
      EscapeUnescapeAll(ts[1..]);
      var u := UnescapeAll(ts).value;
      assert u[1..] == UnescapeAll(ts[1..]).value;
      assert ts == [ts[0]] + ts[1..];
    }
  }

  /** Printing then parsing is the identity, up to the length limit and not beyond it. */
  lemma {:induction false} ParsePrint(ts: seq<string>)
    ensures Parse(Print(ts)) == if |Print(ts)| <= MAX_POINTER then Some(ts) else None
  {
    if ts != [] {
      SplitPrint(ts);
      UnescapeEscapeAll(ts);
    }
  }

  /** Parsing an accepted pointer then printing is the identity. */
  lemma PrintParse(pointer: string)
    requires Parse(pointer).Some?
    ensures Print(Parse(pointer).value) == pointer
  {
    if pointer != "" {
      var s := pointer[1..];
      SplitJoins(s);
      EscapeUnescapeAll(Split(s));
      PrintIsJoin(Parse(pointer).value);
      assert pointer == "/" + s;
    }
  }

  // ---- Resolution: section 4 of RFC 6901 --------------------------------------------------

  datatype Resolution = Found(value: Json) | Missing | Malformed

  function StepInto(v: Json, token: string): Resolution {
    match v
    case Obj(fields) => if token in fields then Found(fields[token]) else Missing
    case Arr(items) =>
      if token == "-" then Missing
      else if !DecimalText.Canonical(token) then Malformed
      else if 0 <= DecimalText.Value(token) <= MAX_UINT64 &&
          DecimalText.Value(token) < |items| then Found(items[DecimalText.Value(token)])
      else Missing
    case _ => Missing
  }

  function Resolve(v: Json, tokens: seq<string>): Resolution {
    if tokens == [] then Found(v)
    else match StepInto(v, tokens[0])
      case Found(x) => Resolve(x, tokens[1..])
      case r => r
  }

  method ResolvePointer(value: Json, pointer: string) returns (r: Resolution)
    ensures r == match Parse(pointer) case None => Malformed case Some(ts) => Resolve(value, ts)
  {
    var parsed := PointerTokens(pointer);
    if parsed.None? { return Malformed; }
    var tokens, v := parsed.value, value;
    assert tokens[0..] == tokens;
    for i := 0 to |tokens|
      invariant Resolve(value, tokens) == Resolve(v, tokens[i..])
    {
      var token := tokens[i];
      assert tokens[i..][1..] == tokens[i + 1..];
      match v
      case Obj(fields) =>
        if token !in fields { return Missing; }
        v := fields[token];
      case Arr(items) =>
        if token == "-" { return Missing; }
        if token == "" || (|token| > 1 && token[0] == '0') { return Malformed; }
        for j := 0 to |token|
          invariant DecimalText.AllDigits(token[..j])
        {
          if token[j] < '0' || token[j] > '9' { return Malformed; }
        }
        assert token[..|token|] == token;
        DecimalText.CanonicalIsText(token);
        var index := DecimalText.Value(token);
        if index > MAX_UINT64 || index >= |items| { return Missing; }
        v := items[index];
      case _ => return Missing;
    }
    return Found(v);
  }

  // ---- Nodes -------------------------------------------------------------------------------

  datatype Selector = Key(key: string) | Index(index: nat)

  /** The node a path of keys and indices names, if the document has one there. */
  function NodeAt(v: Json, path: seq<Selector>): Option<Json> {
    if path == [] then Some(v)
    else match (v, path[0])
      case (Obj(fields), Key(k)) => if k in fields then NodeAt(fields[k], path[1..]) else None
      case (Arr(items), Index(i)) => if i < |items| then NodeAt(items[i], path[1..]) else None
      case _ => None
  }

  function TokenOf(s: Selector): string {
    match s case Key(k) => k case Index(i) => DecimalText.Text(i)
  }

  function TokensOf(path: seq<Selector>): seq<string> {
    if path == [] then [] else [TokenOf(path[0])] + TokensOf(path[1..])
  }

  /** No array is longer than a Go slice can be. */
  ghost predicate GoSized(v: Json) {
    match v
    case Arr(items) => |items| <= MAX_UINT64 && forall i :: 0 <= i < |items| ==> GoSized(items[i])
    case Obj(fields) => forall k :: k in fields ==> GoSized(fields[k])
    case _ => true
  }

  lemma {:induction false} EveryNodeResolves(v: Json, path: seq<Selector>)
    requires GoSized(v) && NodeAt(v, path).Some?
    ensures Resolve(v, TokensOf(path)) == Found(NodeAt(v, path).value)
    decreases |path|
  {
    if path != [] {
      assert TokensOf(path)[1..] == TokensOf(path[1..]);
      match (v, path[0])
      case (Obj(fields), Key(k)) => EveryNodeResolves(fields[k], path[1..]);
      case (Arr(items), Index(i)) =>
        DecimalText.TextIsCanonical(i);
        EveryNodeResolves(items[i], path[1..]);
    }
  }

  lemma {:induction false} EveryResolutionIsANode(v: Json, ts: seq<string>) returns (path: seq<Selector>)
    requires Resolve(v, ts).Found?
    ensures NodeAt(v, path) == Some(Resolve(v, ts).value) && TokensOf(path) == ts
    decreases |ts|
  {
    if ts == [] {
      path := [];
    } else {
      var x := StepInto(v, ts[0]).value;
      var rest := EveryResolutionIsANode(x, ts[1..]);
      var first := if v.Obj? then Key(ts[0]) else Index(DecimalText.Value(ts[0]));
      if v.Arr? { DecimalText.CanonicalIsText(ts[0]); }
      path := [first] + rest;
      assert path[1..] == rest;
      assert ts == [ts[0]] + ts[1..];
    }
  }

  lemma {:induction false} NodesHaveDistinctTokens(v: Json, p: seq<Selector>, q: seq<Selector>)
    requires NodeAt(v, p).Some? && NodeAt(v, q).Some? && TokensOf(p) == TokensOf(q)
    ensures p == q
    decreases |p|
  {
    if p != [] && q != [] {
      assert TokensOf(p)[1..] == TokensOf(p[1..]) && TokensOf(q)[1..] == TokensOf(q[1..]);
      assert TokensOf(p)[0] == TokenOf(p[0]) && TokensOf(q)[0] == TokenOf(q[0]);
      if v.Arr? {
        DecimalText.TextIsCanonical(p[0].index);
        DecimalText.TextIsCanonical(q[0].index);
        NodesHaveDistinctTokens(v.items[p[0].index], p[1..], q[1..]);
      } else {
        NodesHaveDistinctTokens(v.fields[p[0].key], p[1..], q[1..]);
      }
      assert p == [p[0]] + p[1..] && q == [q[0]] + q[1..];
    }
  }

  /** The pointer spells out the path of a node that the document has. */
  ghost predicate Names(v: Json, pointer: string, path: seq<Selector>) {
    NodeAt(v, path).Some? && Parse(pointer) == Some(TokensOf(path))
  }

  /** A pointer resolves exactly when it names a node, to that node, and it names only one. */
  lemma {:induction false} PointersNameNodes(v: Json, pointer: string)
    requires GoSized(v) && Parse(pointer).Some?
    ensures Resolve(v, Parse(pointer).value).Found? <==> exists path :: Names(v, pointer, path)
    ensures forall path :: Names(v, pointer, path) ==> Resolve(v, Parse(pointer).value) == Found(NodeAt(v, path).value)
    ensures forall p, q :: Names(v, pointer, p) && Names(v, pointer, q) ==> p == q
  {
    var ts := Parse(pointer).value;
    if Resolve(v, ts).Found? {
      var path := EveryResolutionIsANode(v, ts);
      assert Names(v, pointer, path);
    }
    forall path | Names(v, pointer, path) ensures Resolve(v, ts) == Found(NodeAt(v, path).value) {
      EveryNodeResolves(v, path);
    }
    forall p, q | Names(v, pointer, p) && Names(v, pointer, q) ensures p == q {
      NodesHaveDistinctTokens(v, p, q);
    }
  }

  /** Every node has exactly one pointer, provided that pointer is within the limit. */
  lemma OnePointerPerNode(v: Json, path: seq<Selector>, pointer: string)
    requires NodeAt(v, path).Some?
    ensures Names(v, pointer, path) <==> pointer == Print(TokensOf(path)) && |pointer| <= MAX_POINTER
  {
    ParsePrint(TokensOf(path));
    if Parse(pointer).Some? { PrintParse(pointer); }
  }
}

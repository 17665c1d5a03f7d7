/**
The structural check of internal/jsonutil/decode.go:118-171, from tokens: nesting is
bounded, object keys are unique and numbers are bounded. A document is a tree whose
objects are lists of members, so that duplicates can be written down.
*/
module JsonDecode {
  import opened Common
  import opened JsonNumber
  import opened Json

  const MAX_DEPTH: nat := 64

  datatype Token = OpenObj | CloseObj | OpenArr | CloseArr | Text(s: string) | Digits(n: Number) | Word(w: Atom)

  datatype Document =
    | Leaf(word: Atom)
    | String(s: string)
    | Literal(n: Number)
    | List(items: seq<Document>)
    | Record(members: seq<Member>)

  datatype Member = Member(key: string, value: Document)

  type Atom = j: Json | j.Null? || j.Bool? witness Null

  // ---- The program -----------------------------------------------------------

  /** What `value` leaves of the token stream, or None for an error. */
  function AcceptValue(ts: seq<Token>, depth: nat): (r: Option<seq<Token>>)
    ensures r.Some? ==> |r.value| < |ts|
    decreases |ts|, 0
  {
    if depth > MAX_DEPTH || ts == [] then None
    else match ts[0]
      case OpenObj => AcceptMembers(ts[1..], depth, {})
      case OpenArr => AcceptItems(ts[1..], depth)
      case Digits(n) => if Bounded(n) then Some(ts[1..]) else None
      case Text(_) => Some(ts[1..])
      case Word(_) => Some(ts[1..])
      case _ => None
  }

  function AcceptMembers(ts: seq<Token>, depth: nat, seen: set<string>): (r: Option<seq<Token>>)
    ensures r.Some? ==> |r.value| < |ts|
    decreases |ts|, 1
  {
    if ts == [] then None
    else match ts[0]
      case CloseObj => Some(ts[1..])
      case Text(key) =>
        if key in seen then None
        else (match AcceptValue(ts[1..], depth + 1)
              case None => None
              case Some(rest) => AcceptMembers(rest, depth, seen + {key}))
      case _ => None
  }

  function AcceptItems(ts: seq<Token>, depth: nat): (r: Option<seq<Token>>)
    ensures r.Some? ==> |r.value| < |ts|
    decreases |ts|, 1
  {
    if ts == [] then None
    else if ts[0] == CloseArr then Some(ts[1..])
    else if ts[0] == CloseObj then None
    else match AcceptValue(ts, depth + 1)
      case None => None
      case Some(rest) => AcceptItems(rest, depth)
  }

  /** `value`, with its loops over the decoder's remaining tokens. */
  method CheckValue(ts: seq<Token>, depth: nat) returns (r: Option<seq<Token>>)
    ensures r == AcceptValue(ts, depth)
    decreases |ts|
  {
    if depth > MAX_DEPTH || ts == [] { return None; }
    var rest := ts[1..];
    match ts[0]
    case OpenObj =>
      var seen := {};
      while rest != [] && rest[0] != CloseObj && rest[0] != CloseArr
        invariant |rest| < |ts|
        invariant AcceptMembers(ts[1..], depth, {}) == AcceptMembers(rest, depth, seen)
        decreases |rest|
      {
        if !rest[0].Text? { return None; }
        var key := rest[0].s;
        if key in seen { return None; }
        seen := seen + {key};
        var after := CheckValue(rest[1..], depth + 1);
        if after.None? { return None; }
        rest := after.value;
      }
      if rest == [] || rest[0] != CloseObj { return None; }
      return Some(rest[1..]);
    case OpenArr =>
      while rest != [] && rest[0] != CloseObj && rest[0] != CloseArr
        invariant |rest| < |ts|
        invariant AcceptItems(ts[1..], depth) == AcceptItems(rest, depth)
        decreases |rest|
      {
        var after := CheckValue(rest, depth + 1);
        if after.None? { return None; }
        rest := after.value;
      }
      if rest == [] || rest[0] != CloseArr { return None; }
      return Some(rest[1..]);
    case Digits(n) =>
      if !Bounded(n) { return None; }
      return Some(rest);
    case Text(_) => return Some(rest);
    case Word(_) => return Some(rest);
    case _ => return None;
  }

  // ---- Documents ----------------------------------------------------------------

  function Tokens(d: Document): seq<Token>
    decreases d, 0
  {
    match d
    case Leaf(w) => [Word(w)]
    case String(s) => [Text(s)]
    case Literal(n) => [Digits(n)]
    case List(items) => [OpenArr] + ItemTokens(items) + [CloseArr]
    case Record(members) => [OpenObj] + MemberTokens(members) + [CloseObj]
  }

  function ItemTokens(items: seq<Document>): seq<Token>
    decreases items, 1
  {
    if items == [] then [] else Tokens(items[0]) + ItemTokens(items[1..])
  }

  function MemberTokens(members: seq<Member>): seq<Token>
    decreases members, 1
  {
    if members == [] then [] else [Text(members[0].key)] + Tokens(members[0].value) + MemberTokens(members[1..])
  }

  predicate UniqueKeys(members: seq<Member>) {
    forall i, j :: 0 <= i < j < |members| ==> members[i].key != members[j].key
  }

  /** Unique keys in every object, bounded numbers, nothing nested deeper than `room`. */
  predicate Legal(d: Document, room: int)
    decreases d
  {
    && room >= 0
    && match d
       case Literal(n) => Bounded(n)
       case List(items) => forall i :: 0 <= i < |items| ==> Legal(items[i], room - 1)
       case Record(members) => UniqueKeys(members) && forall i :: 0 <= i < |members| ==>
           Legal(members[i].value, room - 1)
       case _ => true
  }

  ghost predicate LegalItems(items: seq<Document>, room: int) {
    forall i :: 0 <= i < |items| ==> Legal(items[i], room)
  }

  ghost predicate LegalMembers(members: seq<Member>, room: int, seen: set<string>) {
    && UniqueKeys(members)
    && (forall i :: 0 <= i < |members| ==> members[i].key !in seen && Legal(members[i].value, room))
  }

  /** The program accepts the tokens of exactly the legal documents, and no more of the stream. */
  lemma {:induction false} AcceptsExactlyLegal(d: Document, depth: nat, rest: seq<Token>)
    ensures AcceptValue(Tokens(d) + rest, depth) == if Legal(d, MAX_DEPTH - depth) then Some(rest) else None
    decreases d, 0
  {
    var ts := Tokens(d) + rest;
    match d
    case Leaf(_) =>
    case String(_) =>
    case Literal(_) =>
    case List(items) =>
      AcceptsExactlyItems(items, depth, rest);
      assert ts[1..] == ItemTokens(items) + ([CloseArr] + rest);
    case Record(members) =>
      AcceptsExactlyMembers(members, depth, {}, rest);
      assert ts[1..] == MemberTokens(members) + ([CloseObj] + rest);
  }

  lemma FirstTokenOpens(d: Document)
    ensures Tokens(d) != [] && Tokens(d)[0] != CloseArr && Tokens(d)[0] != CloseObj
  {
  }

  lemma {:induction false} AcceptsExactlyItems(items: seq<Document>, depth: nat, rest: seq<Token>)
    ensures AcceptItems(ItemTokens(items) + ([CloseArr] + rest), depth)
            == if LegalItems(items, MAX_DEPTH - depth - 1) then Some(rest) else None
    decreases items, 1
  {
    var ts := ItemTokens(items) + ([CloseArr] + rest);
    if items == [] {
      assert ts == [CloseArr] + rest;
    } else {
      var tail := ItemTokens(items[1..]) + ([CloseArr] + rest);
      assert ts == Tokens(items[0]) + tail;
      FirstTokenOpens(items[0]);
      AcceptsExactlyLegal(items[0], depth + 1, tail);
      AcceptsExactlyItems(items[1..], depth, rest);
      var room := MAX_DEPTH - depth - 1;
      assert LegalItems(items, room) <==> Legal(items[0], room) && LegalItems(items[1..], room) by {
        assert items == [items[0]] + items[1..];
      }
    }
  }

  lemma {:induction false} AcceptsExactlyMembers(members: seq<Member>, depth: nat, seen: set<string>, rest: seq<Token>)
    ensures AcceptMembers(MemberTokens(members) + ([CloseObj] + rest), depth, seen)
            == if LegalMembers(members, MAX_DEPTH - depth - 1, seen) then Some(rest) else None
    decreases members, 1
  {
    var ts := MemberTokens(members) + ([CloseObj] + rest);
    if members == [] {
      assert ts == [CloseObj] + rest;
    } else {
      var key, d := members[0].key, members[0].value;
      var tail := MemberTokens(members[1..]) + ([CloseObj] + rest);
      assert ts == [Text(key)] + (Tokens(d) + tail);
      assert ts[1..] == Tokens(d) + tail;
      AcceptsExactlyLegal(d, depth + 1, tail);
      AcceptsExactlyMembers(members[1..], depth, seen + {key}, rest);
      MembersSplit(members, MAX_DEPTH - depth - 1, seen);
    }
  }

  lemma MembersSplit(members: seq<Member>, room: int, seen: set<string>)
    requires members != []
    ensures LegalMembers(members, room, seen) <==>
            && members[0].key !in seen && Legal(members[0].value, room)
            && LegalMembers(members[1..], room, seen + {members[0].key})
  {
    var tail := members[1..];
    assert forall i :: 0 <= i < |tail| ==> tail[i] == members[i + 1];
    if members[0].key !in seen && Legal(members[0].value, room) && LegalMembers(tail, room, seen + {members[0].key}) {
      forall i, j | 0 <= i < j < |members| ensures members[i].key != members[j].key {
        assert members[j] == tail[j - 1];
        if i > 0 { assert members[i] == tail[i - 1]; }
      }
      forall i | 0 <= i < |members| ensures members[i].key !in seen && Legal(members[i].value, room) {
        if i > 0 { assert members[i] == tail[i - 1]; }
      }
    }
  }

  /** jsonutil.Decode's check of a whole document: one value and then the end. */
  predicate Accepts(ts: seq<Token>) {
    AcceptValue(ts, 0) == Some([])
  }

  lemma DecodeAcceptsExactlyLegal(d: Document)
    ensures Accepts(Tokens(d)) <==> Legal(d, MAX_DEPTH)
  {
    AcceptsExactlyLegal(d, 0, []);
    assert Tokens(d) + [] == Tokens(d);
  }

  /** The document whose tokens an accepted stream starts with. */
  lemma {:induction false} AcceptedValue(ts: seq<Token>, depth: nat) returns (d: Document)
    requires AcceptValue(ts, depth).Some?
    ensures ts == Tokens(d) + AcceptValue(ts, depth).value
    decreases |ts|, 0
  {
    var rest := AcceptValue(ts, depth).value;
    assert ts == [ts[0]] + ts[1..];
    match ts[0] {
      case OpenArr =>
        var items := AcceptedItems(ts[1..], depth);
        d := List(items);
        Bracketed(OpenArr, ItemTokens(items), CloseArr, rest);
      case OpenObj =>
        var members := AcceptedMembers(ts[1..], depth, {});
        d := Record(members);
        Bracketed(OpenObj, MemberTokens(members), CloseObj, rest);
      case Digits(n) => d := Literal(n);
      case Text(s) => d := String(s);
      case Word(w) => d := Leaf(w);
      case _ => assert false;
    }
  }

  lemma Bracketed(open: Token, inner: seq<Token>, close: Token, rest: seq<Token>)
    ensures [open] + (inner + ([close] + rest)) == ([open] + inner + [close]) + rest
  {
  }

  lemma Regrouped(a: seq<Token>, b: seq<Token>, c: seq<Token>)
    ensures a + (b + c) == (a + b) + c
  {
  }

  lemma {:induction false} AcceptedItems(ts: seq<Token>, depth: nat) returns (items: seq<Document>)
    requires AcceptItems(ts, depth).Some?
    ensures ts == ItemTokens(items) + ([CloseArr] + AcceptItems(ts, depth).value)
    decreases |ts|, 1
  {
    if ts[0] == CloseArr {
      items := [];
      assert ts == [ts[0]] + ts[1..];
    } else {
      var d := AcceptedValue(ts, depth + 1);
      var rest := AcceptValue(ts, depth + 1).value;
      var more := AcceptedItems(rest, depth);
      items := [d] + more;
      assert items[1..] == more;
      Regrouped(Tokens(d), ItemTokens(more), [CloseArr] + AcceptItems(ts, depth).value);
    }
  }

  lemma {:induction false} AcceptedMembers(ts: seq<Token>, depth: nat, seen: set<string>) returns (members: seq<Member>)
    requires AcceptMembers(ts, depth, seen).Some?
    ensures ts == MemberTokens(members) + ([CloseObj] + AcceptMembers(ts, depth, seen).value)
    decreases |ts|, 1
  {
    assert ts == [ts[0]] + ts[1..];
    if ts[0] == CloseObj {
      members := [];
    } else {
      var key := ts[0].s;
      var d := AcceptedValue(ts[1..], depth + 1);
      var rest := AcceptValue(ts[1..], depth + 1).value;
      var more := AcceptedMembers(rest, depth, seen + {key});
      members := [Member(key, d)] + more;
      assert members[1..] == more;
      var end := [CloseObj] + AcceptMembers(ts, depth, seen).value;
      Regrouped([Text(key)], Tokens(d), MemberTokens(more) + end);
      Regrouped([Text(key)] + Tokens(d), MemberTokens(more), end);
    }
  }

  /** A token list is accepted if and only if it is that of a legal document. */
  lemma AcceptsExactlyDocuments(ts: seq<Token>)
    ensures Accepts(ts) <==> exists d :: Legal(d, MAX_DEPTH) && Tokens(d) == ts
  {
    if Accepts(ts) {
      var d := AcceptedValue(ts, 0);
      assert Tokens(d) + [] == Tokens(d);
      DecodeAcceptsExactlyLegal(d);
    }
    forall d | Legal(d, MAX_DEPTH) && Tokens(d) == ts ensures Accepts(ts) {
      DecodeAcceptsExactlyLegal(d);
    }
  }

  // ---- The decoded value -------------------------------------------------------------

  function ToJson(d: Document): Json
    decreases d, 0
  {
    match d
    case Leaf(w) => w
    case String(s) => Str(s)
    case Literal(n) => Num(n)
    case List(items) => Arr(seq(|items|, i requires 0 <= i < |items| => ToJson(items[i])))
    case Record(members) => Obj(FieldsOf(members))
  }

  function FieldsOf(members: seq<Member>): map<string, Json>
    decreases members, 1
  {
    if members == [] then map[]
    else FieldsOf(members[..|members| - 1])[members[|members| - 1].key := ToJson(members[|members| - 1].value)]
  }

  /** With unique keys, every member is in the object under its own key, and nothing else. */
  lemma {:induction false} FieldsAreTheMembers(members: seq<Member>)
    requires UniqueKeys(members)
    ensures forall i :: 0 <= i < |members| ==>
              members[i].key in FieldsOf(members) && FieldsOf(members)[members[i].key] == ToJson(members[i].value)
    ensures forall k :: k in FieldsOf(members) ==> exists i :: 0 <= i < |members| && members[i].key == k
  {
    if members != [] {
      var n := |members| - 1;
      var init := members[..n];
      FieldsAreTheMembers(init);
      forall i | 0 <= i < |members|
        ensures members[i].key in FieldsOf(members) && FieldsOf(members)[members[i].key] == ToJson(members[i].value)
      {
        if i < n { assert init[i] == members[i] && members[i].key != members[n].key; }
      }
      forall k | k in FieldsOf(members) ensures exists i :: 0 <= i < |members| && members[i].key == k {
        if k in FieldsOf(init) {
          var i :| 0 <= i < |init| && init[i].key == k;
          assert members[i].key == k;
        }
      }
    }
  }

  /** Everything the program lets through compares without error. */
  lemma {:induction false} AcceptedValuesAreDecoded(d: Document, room: int)
    requires Legal(d, room)
    ensures Decoded(ToJson(d))
    decreases d
  {
    match d
    case List(items) =>
      forall i | 0 <= i < |items| ensures Decoded(ToJson(items[i])) { AcceptedValuesAreDecoded(items[i], room - 1); }
    case Record(members) =>
      FieldsAreTheMembers(members);
      forall k | k in FieldsOf(members) ensures Decoded(FieldsOf(members)[k]) {
        var i :| 0 <= i < |members| && members[i].key == k;
        AcceptedValuesAreDecoded(members[i].value, room - 1);
      }
    case _ =>
  }
}

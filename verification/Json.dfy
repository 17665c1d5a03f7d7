/**
Decoded JSON values and their equality (internal/scenario/assertions.go:99-147).
*/
module Json {
  import opened Common
  import opened JsonNumber

  datatype Json =
    | Null
    | Bool(b: bool)
    | Num(n: Number)
    | Str(s: string)
    | Arr(items: seq<Json>)
    | Obj(fields: map<string, Json>)

  /** Every number passed ValidateNumber, as in any value jsonutil.Decode returns. */
  ghost predicate Decoded(j: Json) {
    match j
    case Num(n) => Bounded(n)
    case Arr(items) => forall i :: 0 <= i < |items| ==> Decoded(items[i])
    case Obj(fields) => forall k :: k in fields ==> Decoded(fields[k])
    case _ => true
  }

  /** Mathematical equality: numbers by value, objects by key set and value. */
  ghost predicate SameValue(a: Json, b: Json)
    decreases a
  {
    match a
    case Null => b.Null?
    case Bool(x) => b == Bool(x)
    case Str(x) => b == Str(x)
    case Num(n) => b.Num? && Value(n) == Value(b.n)
    case Arr(x) => b.Arr? && |x| == |b.items| && forall i :: 0 <= i < |x| ==> SameValue(x[i], b.items[i])
    case Obj(x) => b.Obj? && x.Keys == b.fields.Keys && forall k :: k in x && k in b.fields ==>
        SameValue(x[k], b.fields[k])
  }

  /** Go visits a map in no fixed order; the loop below may take any. */
  method Equal(a: Json, b: Json) returns (same: bool, failed: bool)
    ensures Decoded(a) && Decoded(b) ==> !failed && same == SameValue(a, b)
    decreases a
  {
    match a
    case Null => return b.Null?, false;
    case Bool(x) => return b == Bool(x), false;
    case Str(x) => return b == Str(x), false;
    case Num(n) =>
      if !b.Num? { return false, false; }
      var c := CompareNumbers(n, b.n);
      if c.None? { return true, true; }
      CompareIsExact(n, b.n);
      return c.value == 0, false;
    case Arr(x) =>
      if !b.Arr? || |x| != |b.items| { return false, false; }
      for i := 0 to |x|
        invariant Decoded(a) && Decoded(b) ==> forall j :: 0 <= j < i ==> SameValue(x[j], b.items[j])
      {
        same, failed := Equal(x[i], b.items[i]);
        if !same || failed { return; }
      }
      return true, false;
    case Obj(x) =>
      if !b.Obj? || |x| != |b.fields| { return false, false; }
      var todo := x.Keys;
      while todo != {}
        invariant todo <= x.Keys
        invariant forall k :: k in x && k !in todo ==> k in b.fields
        invariant Decoded(a) && Decoded(b) ==> forall k :: k in x && k !in todo && k in b.fields ==>
                   SameValue(x[k], b.fields[k])
        decreases |todo|
      {
        var k :| k in todo;
        if k !in b.fields { return false, false; }
        same, failed := Equal(x[k], b.fields[k]);
        if !same || failed { return; }
        todo := todo - {k};
      }
      SubsetOfSameSize(x.Keys, b.fields.Keys);
      return true, false;
  }

  /** The pigeonhole step: equal length and one inclusion give equal key sets. */
  lemma {:induction false} SubsetOfSameSize<T>(s: set<T>, t: set<T>)
    requires s <= t && |s| == |t|
    ensures s == t
    decreases s
  {
    if s != {} {
      var x :| x in s;
      SubsetOfSameSize(s - {x}, t - {x});
    }
  }

  lemma {:induction false} SameValueReflexive(a: Json)
    ensures SameValue(a, a)
  {
    match a
    case Arr(x) =>
      forall i | 0 <= i < |x| ensures SameValue(x[i], x[i]) { SameValueReflexive(x[i]); }
    case Obj(x) =>
      forall k | k in x ensures SameValue(x[k], x[k]) { SameValueReflexive(x[k]); }
    case _ =>
  }

  lemma {:induction false} SameValueSymmetric(a: Json, b: Json)
    requires SameValue(a, b)
    ensures SameValue(b, a)
    decreases a
  {
    match a
    case Arr(x) =>
      forall i | 0 <= i < |x| ensures SameValue(b.items[i], x[i]) { SameValueSymmetric(x[i], b.items[i]); }
    case Obj(x) =>
      forall k | k in x ensures SameValue(b.fields[k], x[k]) { SameValueSymmetric(x[k], b.fields[k]); }
    case _ =>
  }

  lemma {:induction false} SameValueTransitive(a: Json, b: Json, c: Json)
    requires SameValue(a, b) && SameValue(b, c)
    ensures SameValue(a, c)
    decreases a
  {
    match a
    case Arr(x) =>
      forall i | 0 <= i < |x| ensures SameValue(x[i], c.items[i]) { SameValueTransitive(x[i], b.items[i], c.items[i]); }
    case Obj(x) =>
      forall k | k in x ensures SameValue(x[k], c.fields[k]) { SameValueTransitive(x[k], b.fields[k], c.fields[k]); }
    case _ =>
  }
}

/** Options, partial maps over sequences, first hits, and arrangements of a sequence by a key. */
module Prelude {

  datatype Option<+T> = None | Some(value: T)

  /** What a throwing computation leaves behind. */
  datatype Result<+T> = Ok(value: T) | Throw {
    predicate IsFailure() { Throw? }
    function PropagateFailure<U>(): Result<U>
      requires Throw?
    {
      Throw
    }
    function Extract(): T
      requires Ok?
    {
      value
    }
  }

  /** The defined images of the elements of `s`, in order. */
  function FilterMap<T, U>(f: T -> Option<U>, s: seq<T>): (r: seq<U>)
  {
    if s == [] then []
    else
      var init := FilterMap(f, s[..|s| - 1]);
      match f(s[|s| - 1])
      case None => init
      case Some(u) => init + [u]
  }

  lemma FilterMapSnoc<T, U>(f: T -> Option<U>, s: seq<T>, x: T)
    ensures FilterMap(f, s + [x]) == FilterMap(f, s) + (if f(x).Some? then [f(x).value] else [])
  {
    assert (s + [x])[..|s|] == s;
  }

  lemma {:induction false} FilterMapConcat<T, U>(f: T -> Option<U>, a: seq<T>, b: seq<T>)
    ensures FilterMap(f, a + b) == FilterMap(f, a) + FilterMap(f, b)
  {
    if b == [] {
      assert a + b == a;
    } else {
      var init, x := b[..|b| - 1], b[|b| - 1];
      FilterMapConcat(f, a, init);
      FilterMapSnoc(f, a + init, x);
      assert a + b == (a + init) + [x];
    }
  }

  lemma FilterMapCons<T, U>(f: T -> Option<U>, x: T, s: seq<T>)
    ensures FilterMap(f, [x] + s) == (if f(x).Some? then [f(x).value] else []) + FilterMap(f, s)
  {
    FilterMapSnoc(f, [], x);
    assert [] + [x] == [x];
    FilterMapConcat(f, [x], s);
  }

  lemma {:induction false} FilterMapMember<T, U>(f: T -> Option<U>, s: seq<T>, u: U)
    ensures u in FilterMap(f, s) <==> exists x :: x in s && f(x) == Some(u)
  {
    if s == [] {
    } else {
      var init, x := s[..|s| - 1], s[|s| - 1];
      FilterMapMember(f, init, u);
      assert s == init + [x];
    }
  }

  lemma TakeOut<T>(s: seq<T>, x: T) returns (l: seq<T>, r: seq<T>)
    requires x in s
    ensures s == l + [x] + r && multiset(l + r) == multiset(s) - multiset{x}
  {
    var k :| 0 <= k < |s| && s[k] == x;
    l, r := s[..k], s[k + 1..];
    assert s == l + [x] + r;
  }

  /** An element whose image is `u` can come first. */
  lemma MoveToFront<T, U>(f: T -> Option<U>, s: seq<T>, u: U) returns (x: T, l: seq<T>, r: seq<T>)
    requires u in FilterMap(f, s)
    ensures s == l + [x] + r && f(x) == Some(u)
    ensures multiset([x] + (l + r)) == multiset(s)
    ensures FilterMap(f, [x] + (l + r)) == [u] + FilterMap(f, l + r)
  {
    FilterMapMember(f, s, u);
    x :| x in s && f(x) == Some(u);
    l, r := TakeOut(s, x);
    assert multiset([x] + (l + r)) == multiset{x} + multiset(l + r);
    FilterMapCons(f, x, l + r);
  }

  lemma FilterMapInsert<T, U>(f: T -> Option<U>, l: seq<T>, x: T, r: seq<T>)
    ensures multiset(FilterMap(f, l + [x] + r))
            == multiset(FilterMap(f, l + r)) + if f(x).Some? then multiset{f(x).value} else multiset{}
  {
    FilterMapConcat(f, l, r);
    FilterMapConcat(f, l + [x], r);
    FilterMapSnoc(f, l, x);
  }

  lemma FilterMapSkip<T, U>(f: T -> Option<U>, l: seq<T>, x: T, r: seq<T>)
    requires f(x).None?
    ensures FilterMap(f, [x] + (l + r)) == FilterMap(f, l + [x] + r)
  {
    FilterMapCons(f, x, l + r);
    FilterMapConcat(f, l, r);
    FilterMapConcat(f, l + [x], r);
    FilterMapSnoc(f, l, x);
  }

  /** How often an image occurs is settled by how often the elements occur, not by their order. */
  lemma {:induction false} FilterMapPermutes<T, U>(f: T -> Option<U>, a: seq<T>, b: seq<T>)
    requires multiset(a) == multiset(b)
    ensures multiset(FilterMap(f, a)) == multiset(FilterMap(f, b))
    decreases |a|
  {
    if a == [] {
      assert |multiset(b)| == 0;
    } else {
      var x := a[0];
      assert x in multiset(b);
      var al, ar := TakeOut(a, x);
      var bl, br := TakeOut(b, x);
      FilterMapPermutes(f, al + ar, bl + br);
      FilterMapInsert(f, al, x, ar);
      FilterMapInsert(f, bl, x, br);
    }
  }

  /** Two passes are one pass of the composed function. */
  lemma {:induction false} FilterMapCompose<T, U, V>(f: T -> Option<U>, g: U -> Option<V>, h: T -> Option<V>, s: seq<T>)
    requires forall x | x in s :: h(x) == if f(x).Some? then g(f(x).value) else None
    ensures FilterMap(g, FilterMap(f, s)) == FilterMap(h, s)
  {
    if s == [] {
    } else {
      var init, x := s[..|s| - 1], s[|s| - 1];
      FilterMapCompose(f, g, h, init);
      assert x in s;
      if f(x).Some? {
        FilterMapSnoc(g, FilterMap(f, init), f(x).value);
      }
    }
  }

  lemma {:induction false} FilterMapExtensional<T, U>(f: T -> Option<U>, g: T -> Option<U>, s: seq<T>)
    requires forall x | x in s :: f(x) == g(x)
    ensures FilterMap(f, s) == FilterMap(g, s)
  {
    if s == [] {
    } else {
      assert s[|s| - 1] in s;
      FilterMapExtensional(f, g, s[..|s| - 1]);
    }
  }

  lemma {:induction false} FilterMapPointwise<S, T, U>(f: S -> Option<U>, s: seq<S>, g: T -> Option<U>, t: seq<T>)
    requires |s| == |t| && forall i | 0 <= i < |s| :: f(s[i]) == g(t[i])
    ensures FilterMap(f, s) == FilterMap(g, t)
  {
    if s == [] {
    } else {
      FilterMapPointwise(f, s[..|s| - 1], g, t[..|t| - 1]);
    }
  }

  lemma {:induction false} FilterMapTotal<T, U>(f: T -> Option<U>, s: seq<T>)
    requires forall x | x in s :: f(x).Some?
    ensures |FilterMap(f, s)| == |s|
    ensures forall i | 0 <= i < |s| :: f(s[i]) == Some(FilterMap(f, s)[i])
  {
    if s == [] {
    } else {
      var init := s[..|s| - 1];
      assert s[|s| - 1] in s;
      FilterMapTotal(f, init);
      assert forall i | 0 <= i < |init| :: s[i] == init[i];
    }
  }

  lemma {:induction false} FilterMapNone<T, U>(f: T -> Option<U>, s: seq<T>)
    requires forall x | x in s :: f(x).None?
    ensures FilterMap(f, s) == []
  {
    if s == [] {
    } else {
      assert s[|s| - 1] in s;
      FilterMapNone(f, s[..|s| - 1]);
    }
  }

  /** An image that only `x` has occurs as often as `x` does. */
  lemma {:induction false} FilterMapCount<T, U>(f: T -> Option<U>, s: seq<T>, x: T, u: U)
    requires forall y | y in s && f(y) == Some(u) :: y == x
    requires f(x) == Some(u) || x !in s
    ensures multiset(FilterMap(f, s))[u] == multiset(s)[x]
  {
    if s == [] {
    } else {
      var init, y := s[..|s| - 1], s[|s| - 1];
      assert s == init + [y];
      FilterMapCount(f, init, x, u);
    }
  }

  /** The index of the first element that satisfies `p`. */
  function FirstWhere<T>(p: T -> bool, s: seq<T>): (r: Option<nat>)
    ensures r.Some? ==> r.value < |s| && p(s[r.value]) && forall j | 0 <= j < r.value :: !p(s[j])
    ensures r.None? ==> forall j | 0 <= j < |s| :: !p(s[j])
  {
    if s == [] then None
    else
      var init := FirstWhere(p, s[..|s| - 1]);
      if init.Some? then init
      else if p(s[|s| - 1]) then Some(|s| - 1) else None
  }

  /** The first hit among the images of `s` is the image of the first element of `s` whose image is a hit. */
  lemma {:induction false} FirstImage<T, U>(f: T -> Option<U>, s: seq<T>, p: U -> bool, i: nat)
    returns (k: nat)
    requires i < |FilterMap(f, s)| && p(FilterMap(f, s)[i])
    requires forall j | 0 <= j < i :: !p(FilterMap(f, s)[j])
    ensures k < |s| && f(s[k]) == Some(FilterMap(f, s)[i])
    ensures forall j | 0 <= j < k && f(s[j]).Some? :: !p(f(s[j]).value)
  {
    var init, x := s[..|s| - 1], s[|s| - 1];
    var images := FilterMap(f, init);
    assert forall j | 0 <= j < |images| :: FilterMap(f, s)[j] == images[j];
    if i < |images| {
      k := FirstImage(f, init, p, i);
    } else {
      k := |s| - 1;
      forall j | 0 <= j < k && f(s[j]).Some?
        ensures !p(f(s[j]).value)
      {
        assert init[j] == s[j];
        FilterMapMember(f, init, f(s[j]).value);
      }
    }
  }

  /** The parts joined in order. */
  function Flatten<T>(parts: seq<seq<T>>): seq<T> {
    if parts == [] then [] else Flatten(parts[..|parts| - 1]) + parts[|parts| - 1]
  }

  lemma FlattenSnoc<T>(parts: seq<seq<T>>, p: seq<T>)
    ensures Flatten(parts + [p]) == Flatten(parts) + p
  {
    assert (parts + [p])[..|parts|] == parts;
  }

  /** `s` is ordered by ascending `key`; ties may stand in any order. */
  ghost predicate Ordered<T(!new)>(key: T -> int, s: seq<T>) {
    forall i, j | 0 <= i < j < |s| :: key(s[i]) <= key(s[j])
  }

  /** What `std::sort` may leave of `s`: it is not stable, so any ordered permutation. */
  ghost predicate IsArrangement<T(!new)>(key: T -> int, arr: seq<T>, s: seq<T>) {
    Ordered(key, arr) && multiset(arr) == multiset(s)
  }

  /** A sorting routine that meets the contract of `std::sort` and nothing more. */
  ghost predicate Sorts<T(!new)>(sort: seq<T> -> seq<T>, key: T -> int) {
    forall s :: IsArrangement(key, sort(s), s)
  }

  /** When elements with equal keys are equal, there is only one arrangement. */
  lemma {:induction false} ArrangementUnique<T(!new)>(key: T -> int, a: seq<T>, b: seq<T>)
    requires Ordered(key, a) && Ordered(key, b) && multiset(a) == multiset(b)
    requires forall x, y | x in a && y in a && key(x) == key(y) :: x == y
    ensures a == b
    decreases |a|
  {
    assert |a| == |multiset(a)| == |multiset(b)| == |b|;
    if a == [] {
    } else {
      LeastFirst(key, a, b);
      LeastFirst(key, b, a);
      assert b[0] in multiset(a);
      DropHead(a);
      DropHead(b);
      ArrangementUnique(key, a[1..], b[1..]);
    }
  }

  lemma LeastFirst<T(!new)>(key: T -> int, a: seq<T>, b: seq<T>)
    requires a != [] && b != [] && Ordered(key, a) && multiset(a) == multiset(b)
    ensures key(a[0]) <= key(b[0])
  {
    assert b[0] in multiset(a);
  }

  lemma DropHead<T>(s: seq<T>)
    requires s != []
    ensures multiset(s[1..]) == multiset(s) - multiset{s[0]}
  {
    assert s == [s[0]] + s[1..];
  }

  lemma Prepend<T(!new)>(key: T -> int, x: T, s: seq<T>)
    requires Ordered(key, s) && (s == [] || key(x) <= key(s[0]))
    ensures Ordered(key, [x] + s)
  {
    var r := [x] + s;
    forall i, j | 0 <= i < j < |r|
      ensures key(r[i]) <= key(r[j])
    {
      assert r[j] == s[j - 1];
    }
  }

  /** Insertion before every element of the same or a larger key. */
  lemma {:induction false} InsertFirst<T(!new)>(key: T -> int, x: T, s: seq<T>) returns (r: seq<T>, i: nat)
    requires Ordered(key, s)
    ensures IsArrangement(key, r, [x] + s)
    ensures i < |r| && r[i] == x && forall j | 0 <= j < i :: key(r[j]) < key(x)
  {
    if s == [] || key(x) <= key(s[0]) {
      r, i := [x] + s, 0;
      Prepend(key, x, s);
    } else {
      var t, k := InsertFirst(key, x, s[1..]);
      r, i := [s[0]] + t, k + 1;
      SwapHeads(x, s, t);
      Prepend(key, s[0], t);
    }
  }

  lemma SwapHeads<T>(x: T, s: seq<T>, t: seq<T>)
    requires s != [] && multiset(t) == multiset([x] + s[1..])
    ensures multiset([s[0]] + t) == multiset([x] + s)
    ensures t != [] && (t[0] == x || t[0] in s[1..])
  {
    assert s == [s[0]] + s[1..];
    assert x in multiset(t);
    assert t[0] in multiset(t);
  }

  lemma {:induction false} Arrange<T(!new)>(key: T -> int, s: seq<T>) returns (r: seq<T>)
    ensures IsArrangement(key, r, s)
  {
    if s == [] {
      r := [];
    } else {
      assert s == [s[0]] + s[1..];
      var t := Arrange(key, s[1..]);
      var at;
      r, at := InsertFirst(key, s[0], t);
    }
  }

  /** Any element can be the first of its key in some arrangement. */
  lemma ArrangeFirst<T(!new)>(key: T -> int, s: seq<T>, x: T) returns (arr: seq<T>, i: nat)
    requires x in s
    ensures IsArrangement(key, arr, s)
    ensures i < |arr| && arr[i] == x && forall j | 0 <= j < i :: key(arr[j]) < key(x)
  {
    var l, r := TakeOut(s, x);
    var t := Arrange(key, l + r);
    arr, i := InsertFirst(key, x, t);
  }

  lemma FilterMapAt<T, U>(f: T -> Option<U>, s: seq<T>, i: nat)
    requires i < |s| && f(s[i]).Some?
    ensures var k := |FilterMap(f, s[..i])|;
            k < |FilterMap(f, s)| && FilterMap(f, s)[k] == f(s[i]).value
  {
    assert s == s[..i] + ([s[i]] + s[i + 1..]);
    FilterMapConcat(f, s[..i], [s[i]] + s[i + 1..]);
    FilterMapCons(f, s[i], s[i + 1..]);
  }

  /** Two elements of one key but different images: another arrangement has other images. */
  lemma SwapTied<T(!new), U>(key: T -> int, f: T -> Option<U>, arr: seq<T>, i: nat, j: nat) returns (other: seq<T>)
    requires i < j < |arr| && Ordered(key, arr) && key(arr[i]) == key(arr[j])
    requires f(arr[i]).Some? && f(arr[j]).Some? && f(arr[i]) != f(arr[j])
    ensures IsArrangement(key, other, arr) && FilterMap(f, other) != FilterMap(f, arr)
  {
    other := arr[i := arr[j]][j := arr[i]];
    assert forall k | 0 <= k < |arr| :: key(other[k]) == key(arr[k]);
    assert other[..i] == arr[..i];
    FilterMapAt(f, arr, i);
    FilterMapAt(f, other, i);
  }

  /** All arrangements of a sequence have the same keys in the same places. */
  lemma SameKeys<T(!new)>(key: T -> int, a: seq<T>, b: seq<T>)
    requires Ordered(key, a) && Ordered(key, b) && multiset(a) == multiset(b)
    ensures |a| == |b| && forall i | 0 <= i < |a| :: key(a[i]) == key(b[i])
  {
    var image, id := (x: T) => Some(key(x)), (k: int) => k;
    FilterMapTotal(image, a);
    FilterMapTotal(image, b);
    FilterMapPermutes(image, a, b);
    var ka, kb := FilterMap(image, a), FilterMap(image, b);
    assert forall i | 0 <= i < |a| :: ka[i] == key(a[i]);
    assert forall i | 0 <= i < |b| :: kb[i] == key(b[i]);
    assert Ordered(id, ka) && Ordered(id, kb);
    ArrangementUnique(id, ka, kb);
  }
}

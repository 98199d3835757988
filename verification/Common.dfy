/** Small building blocks shared by the models: an optional value, duplicate-free sequences
    and sums over sequences. */
module Common {

  datatype Option<+T> = None | Some(value: T)

  lemma MulMonotone(a: int, b: int, n: nat)
    requires a <= b
    ensures a * n <= b * n
  {
    assert (b - a) * n >= 0;
    assert b * n == a * n + (b - a) * n;
  }

  ghost predicate Distinct<T(!new)>(s: seq<T>) {
    forall i, j :: 0 <= i < j < |s| ==> s[i] != s[j]
  }

  /** Every element of the images has a property that all images have. */
  lemma {:induction false} FlatMapForm<A(!new), B(!new)>(f: A -> seq<B>, s: seq<A>, p: B -> bool)
    requires forall x :: x in s ==> forall y :: y in f(x) ==> p(y)
    ensures forall y :: y in FlatMap(f, s) ==> p(y)
  {
    if s != [] {
      FlatMapForm(f, s[..|s| - 1], p);
    }
  }

  /** In a sequence without duplicates every element occurs once. */
  lemma {:induction false} DistinctOnce<T(!new)>(s: seq<T>, x: T)
    requires Distinct(s)
    ensures multiset(s)[x] == if x in s then 1 else 0
  {
    if s != [] {
      var n := |s| - 1;
      assert s == s[..n] + [s[n]];
      DistinctOnce(s[..n], x);
    }
  }

  /** The images of the elements, one after the other. */
  function FlatMap<A, B>(f: A -> seq<B>, s: seq<A>): seq<B> {
    if s == [] then [] else FlatMap(f, s[..|s| - 1]) + f(s[|s| - 1])
  }

  lemma {:induction false} FlatMapConcat<A, B>(f: A -> seq<B>, a: seq<A>, b: seq<A>)
    ensures FlatMap(f, a + b) == FlatMap(f, a) + FlatMap(f, b)
  {
    var c := a + b;
    if b == [] {
      assert c == a;
    } else {
      assert c[..|c| - 1] == a + b[..|b| - 1] && c[|c| - 1] == b[|b| - 1];
      FlatMapConcat(f, a, b[..|b| - 1]);
    }
  }

  lemma {:induction false} FlatMapHas<A, B>(f: A -> seq<B>, s: seq<A>, x: A, y: B)
    requires x in s && y in f(x)
    ensures y in FlatMap(f, s)
  {
    var n := |s| - 1;
    if x != s[n] {
      assert s == s[..n] + [s[n]];
      FlatMapHas(f, s[..n], x, y);
    }
  }

  lemma {:induction false} FlatMapFrom<A, B>(f: A -> seq<B>, s: seq<A>, y: B) returns (x: A)
    requires y in FlatMap(f, s)
    ensures x in s && y in f(x)
  {
    var n := |s| - 1;
    if y in f(s[n]) {
      x := s[n];
    } else {
      x := FlatMapFrom(f, s[..n], y);
    }
  }

  lemma AppendAssociative<T>(a: seq<T>, b: seq<T>, c: seq<T>)
    ensures a + b + c == a + (b + c)
  {
  }

  function Concat<T>(parts: seq<seq<T>>): seq<T> {
    if parts == [] then [] else Concat(parts[..|parts| - 1]) + parts[|parts| - 1]
  }

  lemma ConcatSnoc<T>(parts: seq<seq<T>>, part: seq<T>)
    ensures Concat(parts + [part]) == Concat(parts) + part
  {
    var more := parts + [part];
    assert more[..|more| - 1] == parts;
  }

  /** Sum of a sequence of integers, taken from the right end so that appending is one unfolding. */
  function Sum(s: seq<int>): int {
    if s == [] then 0 else Sum(s[..|s| - 1]) + s[|s| - 1]
  }

  lemma SumAppend(s: seq<int>, x: int)
    ensures Sum(s + [x]) == Sum(s) + x
  {
    assert (s + [x])[..|s|] == s;
  }

  /** Replacing one term changes the sum by the difference of the two terms. */
  lemma {:induction false} SumUpdate(s: seq<int>, i: nat, x: int)
    requires i < |s|
    ensures Sum(s[i := x]) == Sum(s) - s[i] + x
  {
    var n := |s| - 1;
    if i == n {
      assert s[i := x][..n] == s[..n];
    } else {
      SumUpdate(s[..n], i, x);
      assert s[i := x][..n] == s[..n][i := x];
    }
  }

  /** Sum of f over a finite set of keys. */
  ghost function SumOver<K(!new)>(keys: set<K>, f: K -> int): int {
    if keys == {} then 0
    else
      var k :| k in keys;
      f(k) + SumOver(keys - {k}, f)
  }

  /** Any key can be taken out first. */
  lemma {:induction false} SumOverRemove<K(!new)>(keys: set<K>, f: K -> int, k: K)
    requires k in keys
    ensures SumOver(keys, f) == f(k) + SumOver(keys - {k}, f)
    decreases keys
  {
    var c :| c in keys && SumOver(keys, f) == f(c) + SumOver(keys - {c}, f);
    if c != k {
      SumOverRemove(keys - {c}, f, k);
      SumOverRemove(keys - {k}, f, c);
      assert keys - {c} - {k} == keys - {k} - {c};
    }
  }

  lemma {:induction false} SumOverAgree<K(!new)>(keys: set<K>, f: K -> int, g: K -> int)
    requires forall k :: k in keys ==> f(k) == g(k)
    ensures SumOver(keys, f) == SumOver(keys, g)
    decreases keys
  {
    if keys != {} {
      var k :| k in keys;
      SumOverRemove(keys, f, k);
      SumOverRemove(keys, g, k);
      SumOverAgree(keys - {k}, f, g);
    }
  }

  lemma {:induction false} SumOverNatural<K(!new)>(keys: set<K>, f: K -> int)
    requires forall k :: k in keys ==> f(k) >= 0
    ensures SumOver(keys, f) >= 0
    decreases keys
  {
    if keys != {} {
      var k :| k in keys;
      SumOverRemove(keys, f, k);
      SumOverNatural(keys - {k}, f);
    }
  }

  /** A positive sum has a positive term. */
  lemma {:induction false} SumOverPositive<K(!new)>(keys: set<K>, f: K -> int) returns (k: K)
    requires SumOver(keys, f) > 0
    ensures k in keys && f(k) > 0
    decreases keys
  {
    k :| k in keys;
    SumOverRemove(keys, f, k);
    if f(k) <= 0 {
      k := SumOverPositive(keys - {k}, f);
    }
  }

  /** Changing f at one key shifts the sum by the same amount. */
  lemma SumOverShift<K(!new)>(keys: set<K>, f: K -> int, g: K -> int, k: K, d: int)
    requires k in keys && g(k) == f(k) + d
    requires forall x :: x in keys && x != k ==> g(x) == f(x)
    ensures SumOver(keys, g) == SumOver(keys, f) + d
  {
    SumOverRemove(keys, f, k);
    SumOverRemove(keys, g, k);
    SumOverAgree(keys - {k}, f, g);
  }

  lemma {:induction false} Least<K(!new)>(keys: set<K>, f: K -> int) returns (k: K)
    requires keys != {}
    ensures k in keys && forall x :: x in keys ==> f(k) <= f(x)
    decreases keys
  {
    k :| k in keys;
    if keys != {k} {
      assert keys - {k} != {};
      var x := Least(keys - {k}, f);
      if f(x) < f(k) {
        k := x;
      }
    }
  }

  /** There is always another string. */
  lemma Unused(used: set<string>) returns (x: string)
    ensures x !in used
  {
    var n := Longest(used);
    x := seq(n + 1, _ => 'a');
  }

  lemma {:induction false} Longest(used: set<string>) returns (n: nat)
    ensures forall x :: x in used ==> |x| <= n
    decreases used
  {
    n := 0;
    if used != {} {
      var x :| x in used;
      n := Longest(used - {x});
      if n < |x| {
        n := |x|;
      }
    }
  }
}

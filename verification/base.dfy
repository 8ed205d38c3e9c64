/** Machine integers, accounts and sums shared by both contracts. */
module Base {

  datatype Option<+T> = None | Some(value: T)

  type AccountId = string

  const U64_MAX: int := 0xFFFF_FFFF_FFFF_FFFF
  const U128_MAX: int := 0xFFFF_FFFF_FFFF_FFFF_FFFF_FFFF_FFFF_FFFF

  type U64 = x: int | 0 <= x <= U64_MAX
  type U128 = x: int | 0 <= x <= U128_MAX

  function Min(a: int, b: int): int {
    if a <= b then a else b
  }

  function Max(a: int, b: int): int {
    if a <= b then b else a
  }

  /** The saturating operations of the u64 and u128 wrappers. */
  function SatAdd64(a: U64, b: U64): U64 {
    if a + b <= U64_MAX then a + b else U64_MAX
  }

  function SatMul64(a: U64, b: nat): U64 {
    if a * b <= U64_MAX then a * b else U64_MAX
  }

  function SatAdd128(a: U128, b: U128): U128 {
    if a + b <= U128_MAX then a + b else U128_MAX
  }

  function SatSub128(a: U128, b: U128): U128 {
    if b <= a then a - b else 0
  }

  /** The sum of the weights of the elements of `s`. */
  function Sum<T>(s: seq<T>, weight: T -> nat): nat {
    if s == [] then 0 else Sum(s[..|s| - 1], weight) + weight(s[|s| - 1])
  }

  lemma SumAppend<T>(s: seq<T>, x: T, weight: T -> nat)
    ensures Sum(s + [x], weight) == Sum(s, weight) + weight(x)
  {
    assert (s + [x])[..|s|] == s;
  }

  lemma SumOne<T>(x: T, weight: T -> nat)
    ensures Sum([x], weight) == weight(x)
  {
    assert [x][..0] == [];
  }

  lemma {:induction false} SumUpdate<T>(s: seq<T>, i: nat, x: T, weight: T -> nat)
    requires i < |s|
    ensures Sum(s[i := x], weight) + weight(s[i]) == Sum(s, weight) + weight(x)
  {
    var n := |s| - 1;
    if i < n {
      assert s[i := x][..n] == s[..n][i := x];
      SumUpdate(s[..n], i, x, weight);
    } else {
      assert s[i := x][..n] == s[..n];
    }
  }

  /** When every weight splits in two, so does the sum. */
  lemma {:induction false} SumSplit<T>(s: seq<T>, whole: T -> nat, left: T -> nat, right: T -> nat)
    requires forall x | x in s :: whole(x) == left(x) + right(x)
    ensures Sum(s, whole) == Sum(s, left) + Sum(s, right)
  {
    if s != [] {
      assert s[|s| - 1] in s;
      SumSplit(s[..|s| - 1], whole, left, right);
    }
  }

  lemma {:induction false} SumAtLeast<T>(s: seq<T>, i: nat, weight: T -> nat)
    requires i < |s|
    ensures weight(s[i]) <= Sum(s, weight)
  {
    if i < |s| - 1 {
      SumAtLeast(s[..|s| - 1], i, weight);
    }
  }

  lemma {:induction false} SumZero<T>(s: seq<T>, weight: T -> nat)
    requires forall x | x in s :: weight(x) == 0
    ensures Sum(s, weight) == 0
  {
    if s != [] {
      assert s[|s| - 1] in s;
      SumZero(s[..|s| - 1], weight);
    }
  }

  /** When one element alone has weight, that is the sum. */
  lemma {:induction false} SumSingle<T>(s: seq<T>, i: nat, weight: T -> nat)
    requires i < |s| && forall j | 0 <= j < |s| && j != i :: weight(s[j]) == 0
    ensures Sum(s, weight) == weight(s[i])
  {
    var n := |s| - 1;
    if i < n {
      SumSingle(s[..n], i, weight);
    } else {
      forall x | x in s[..n] ensures weight(x) == 0 {
        var j :| 0 <= j < n && s[..n][j] == x;
        assert s[j] == x;
      }
      SumZero(s[..n], weight);
    }
  }

  lemma {:induction false} SumRemove<T>(s: seq<T>, i: nat, weight: T -> nat)
    requires i < |s|
    ensures Sum(s, weight) == Sum(s[..i] + s[i + 1..], weight) + weight(s[i])
  {
    var n := |s| - 1;
    if i < n {
      var rest := s[..i] + s[i + 1..];
      assert rest[..n - 1] == s[..n][..i] + s[..n][i + 1..];
      SumRemove(s[..n], i, weight);
    } else {
      assert s[..i] + s[i + 1..] == s[..n];
    }
  }

  /** A permutation of `a` holds its last element somewhere; without it the rests are permutations. */
  lemma Matching<T>(a: seq<T>, b: seq<T>) returns (i: nat)
    requires a != [] && multiset(a) == multiset(b)
    ensures i < |b| && b[i] == a[|a| - 1]
    ensures multiset(a[..|a| - 1]) == multiset(b[..i] + b[i + 1..])
  {
    var n := |a| - 1;
    assert a == a[..n] + [a[n]];
    assert a[n] in multiset(b);
    i :| 0 <= i < |b| && b[i] == a[n];
    assert b == b[..i] + [b[i]] + b[i + 1..];
    assert multiset(b) == multiset(b[..i]) + multiset{a[n]} + multiset(b[i + 1..]);
    assert multiset(a) == multiset(a[..n]) + multiset{a[n]};
    calc {
      multiset(a[..n]);
      multiset(a) - multiset{a[n]};
      multiset(b) - multiset{a[n]};
      multiset(b[..i]) + multiset(b[i + 1..]);
      multiset(b[..i] + b[i + 1..]);
    }
  }

  lemma {:induction false} SumPermuted<T>(a: seq<T>, b: seq<T>, weight: T -> nat)
    requires multiset(a) == multiset(b)
    ensures Sum(a, weight) == Sum(b, weight)
  {
    if a == [] {
      assert |b| == |multiset(b)| == 0;
    } else {
      var i := Matching(a, b);
      SumPermuted(a[..|a| - 1], b[..i] + b[i + 1..], weight);
      SumRemove(b, i, weight);
    }
  }

  lemma SumFront<T>(s: seq<T>, weight: T -> nat)
    requires s != []
    ensures Sum(s, weight) == weight(s[0]) + Sum(s[1..], weight)
  {
    SumRemove(s, 0, weight);
    assert s[..0] + s[1..] == s[1..];
  }

  lemma {:induction false} SumConcat<T>(a: seq<T>, b: seq<T>, weight: T -> nat)
    ensures Sum(a + b, weight) == Sum(a, weight) + Sum(b, weight)
  {
    if b == [] {
      assert a + b == a;
    } else {
      var n := |b| - 1;
      assert (a + b)[..|a + b| - 1] == a + b[..n];
      SumConcat(a, b[..n], weight);
    }
  }
}

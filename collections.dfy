/** Sequence helpers standing for the JavaScript array methods the store code is
    written with: `find`, `filter`, `reduce` (summing), and the replace-by-id and
    remove-by-id idioms built from `map` and `filter`. */
module Collections {

  datatype Option<T> = None | Some(value: T)

  function Max(a: int, b: int): int { if a >= b then a else b }

  function Min(a: int, b: int): int { if a <= b then a else b }

  /** `s.find(p)`: the first element satisfying `p`, if there is one. */
  function Find<T>(s: seq<T>, p: T -> bool): (r: Option<T>)
    ensures r.None? <==> forall i :: 0 <= i < |s| ==> !p(s[i])
    ensures r.Some? ==> exists i :: 0 <= i < |s| && s[i] == r.value && p(s[i]) &&
                                    forall j :: 0 <= j < i ==> !p(s[j])
  {
    if s == [] then None
    else if p(s[0]) then Some(s[0])
    else
      var r := Find(s[1..], p);
      assert r.Some? ==> exists i :: 0 <= i < |s| - 1 && s[1..][i] == r.value && p(s[1..][i]) &&
                                    forall j :: 0 <= j < i ==> !p(s[1..][j]);
      assert forall i :: 0 <= i < |s| - 1 ==> s[1..][i] == s[i + 1];
      r
  }

  /** `a` is an order-preserving subsequence of `b`: `a` is `b` with some
      elements left out. */
  ghost predicate Subsequence<T>(a: seq<T>, b: seq<T>)
    decreases |b|
  {
    if a == [] then true
    else if b == [] then false
    else (a[0] == b[0] && Subsequence(a[1..], b[1..])) || Subsequence(a, b[1..])
  }

  /** `s.filter(p)`: the elements of `s` that satisfy `p`, in their order. */
  function Filter<T(!new)>(s: seq<T>, p: T -> bool): (r: seq<T>)
    ensures |r| <= |s|
    ensures forall i :: 0 <= i < |r| ==> p(r[i])
    ensures forall i :: 0 <= i < |r| ==> r[i] in s
    ensures forall i :: 0 <= i < |s| ==> (s[i] in r <==> p(s[i]))
    ensures Subsequence(r, s)
    ensures (forall i :: 0 <= i < |s| ==> p(s[i])) ==> r == s
    // every value satisfying `p` is kept as often as it occurs, and no other
    ensures forall x {:trigger multiset(r)[x]} :: multiset(r)[x] == if p(x) then multiset(s)[x] else 0
  {
    if s == [] then []
    else
      var rest := Filter(s[1..], p);
      var r := if p(s[0]) then [s[0]] + rest else rest;
      FilterConsKept(s, p, rest, r);
      FilterConsIff(s, p, rest, r);
      FilterConsOrder(s, p, rest, r);
      FilterConsCount(s, p, rest, r);
      r
  }

  /** One step of `Filter`: what is kept satisfies `p` and comes from `s`. */
  lemma FilterConsKept<T>(s: seq<T>, p: T -> bool, rest: seq<T>, r: seq<T>)
    requires s != [] && r == if p(s[0]) then [s[0]] + rest else rest
    requires |rest| <= |s[1..]|
    requires forall i :: 0 <= i < |rest| ==> p(rest[i])
    requires forall i :: 0 <= i < |rest| ==> rest[i] in s[1..]
    ensures |r| <= |s|
    ensures forall i :: 0 <= i < |r| ==> p(r[i])
    ensures forall i :: 0 <= i < |r| ==> r[i] in s
  {
    forall i | 0 <= i < |r| ensures p(r[i]) && r[i] in s {
      if p(s[0]) && i == 0 {
        assert r[0] == s[0];
      } else {
        var k := if p(s[0]) then i - 1 else i;
        assert r[i] == rest[k];
        assert rest[k] in s[1..];
      }
    }
  }

  /** One step of `Filter`: an element of `s` is kept exactly when it satisfies `p`. */
  lemma FilterConsIff<T>(s: seq<T>, p: T -> bool, rest: seq<T>, r: seq<T>)
    requires s != [] && r == if p(s[0]) then [s[0]] + rest else rest
    requires forall i :: 0 <= i < |rest| ==> p(rest[i])
    requires forall i :: 0 <= i < |s[1..]| ==> (s[1..][i] in rest <==> p(s[1..][i]))
    ensures forall i :: 0 <= i < |s| ==> (s[i] in r <==> p(s[i]))
  {
    forall i | 0 <= i < |s| ensures s[i] in r <==> p(s[i]) {
      if i > 0 {
        assert s[i] == s[1..][i - 1];
      }
      if s[i] in rest {
        var k :| 0 <= k < |rest| && rest[k] == s[i];
      }
    }
  }

  /** One step of `Filter`: the kept elements are in order, and nothing is
      dropped when everything satisfies `p`. */
  lemma FilterConsOrder<T>(s: seq<T>, p: T -> bool, rest: seq<T>, r: seq<T>)
    requires s != [] && r == if p(s[0]) then [s[0]] + rest else rest
    requires Subsequence(rest, s[1..])
    requires (forall i :: 0 <= i < |s[1..]| ==> p(s[1..][i])) ==> rest == s[1..]
    ensures Subsequence(r, s)
    ensures (forall i :: 0 <= i < |s| ==> p(s[i])) ==> r == s
  {
    if p(s[0]) {
      assert r[1..] == rest;
    }
    if forall i :: 0 <= i < |s| ==> p(s[i]) {
      assert forall i :: 0 <= i < |s[1..]| ==> s[1..][i] == s[i + 1];
      assert s == [s[0]] + s[1..];
    }
  }

  /** One step of `Filter`: the head is counted once more exactly when it is kept. */
  lemma FilterConsCount<T>(s: seq<T>, p: T -> bool, rest: seq<T>, r: seq<T>)
    requires s != [] && r == if p(s[0]) then [s[0]] + rest else rest
    requires forall x {:trigger multiset(rest)[x]} :: multiset(rest)[x] == if p(x) then multiset(s[1..])[x] else 0
    ensures forall x {:trigger multiset(r)[x]} :: multiset(r)[x] == if p(x) then multiset(s)[x] else 0
  {
    assert s == [s[0]] + s[1..];
    assert multiset(s) == multiset([s[0]]) + multiset(s[1..]);
    if p(s[0]) {
      assert multiset(r) == multiset([s[0]]) + multiset(rest);
    }
  }

  /** Filtering keeps nothing when nothing satisfies `p`. */
  lemma FilterNone<T(!new)>(s: seq<T>, p: T -> bool)
    requires forall i :: 0 <= i < |s| ==> !p(s[i])
    ensures Filter(s, p) == []
  {
  }

  /** When every element but the one at `i` satisfies `p` and that one does not,
      filtering removes exactly position `i`. */
  lemma {:induction false} FilterDropsOne<T(!new)>(s: seq<T>, p: T -> bool, i: int)
    requires 0 <= i < |s| && !p(s[i])
    requires forall j :: 0 <= j < |s| && j != i ==> p(s[j])
    ensures Filter(s, p) == s[..i] + s[i + 1..]
  {
    var tail := s[1..];
    if i == 0 {
      assert Filter(s, p) == Filter(tail, p);
      forall j | 0 <= j < |tail| ensures p(tail[j]) { assert tail[j] == s[j + 1]; }
      assert s[..0] + s[1..] == tail;
    } else {
      assert Filter(s, p) == [s[0]] + Filter(tail, p);
      forall j | 0 <= j < |tail| && j != i - 1 ensures p(tail[j]) { assert tail[j] == s[j + 1]; }
      assert tail[i - 1] == s[i];
      FilterDropsOne(tail, p, i - 1);
      DropOneCons(s, i);
    }
  }

  lemma DropOneCons<T>(s: seq<T>, i: int)
    requires 0 < i < |s|
    ensures [s[0]] + (s[1..][..i - 1] + s[1..][i..]) == s[..i] + s[i + 1..]
  {
  }

  /** `s.reduce((acc, x) => acc + f(x), 0)`. */
  function SumOf<T>(s: seq<T>, f: T -> int): int
  {
    if s == [] then 0 else f(s[0]) + SumOf(s[1..], f)
  }

  lemma {:induction false} SumOfAppend<T>(a: seq<T>, b: seq<T>, f: T -> int)
    ensures SumOf(a + b, f) == SumOf(a, f) + SumOf(b, f)
  {
    if a == [] {
      assert a + b == b;
    } else {
      assert (a + b)[1..] == a[1..] + b;
      SumOfAppend(a[1..], b, f);
    }
  }

  /** No two elements of `s` share a key. */
  ghost predicate UniqueKeys<T>(s: seq<T>, key: T -> string)
  {
    forall i, j :: 0 <= i < j < |s| ==> key(s[i]) != key(s[j])
  }

  /** Some element of `s` has key `k`. */
  ghost predicate HasKey<T>(s: seq<T>, key: T -> string, k: string)
  {
    exists i :: 0 <= i < |s| && key(s[i]) == k
  }

  /** A subsequence of a sequence with unique keys has unique keys. */
  lemma {:induction false} SubsequenceKeepsUniqueKeys<T>(a: seq<T>, b: seq<T>, key: T -> string)
    requires Subsequence(a, b)
    ensures UniqueKeys(b, key) ==> UniqueKeys(a, key)
    ensures forall i :: 0 <= i < |a| ==> HasKey(b, key, key(a[i]))
    decreases |b|
  {
    if a != [] {
      assert forall j :: 0 <= j < |b| - 1 ==> b[1..][j] == b[j + 1];
      if a[0] == b[0] && Subsequence(a[1..], b[1..]) {
        SubsequenceKeepsUniqueKeys(a[1..], b[1..], key);
        forall i | 0 <= i < |a| ensures HasKey(b, key, key(a[i])) {
          if i == 0 {
            assert key(b[0]) == key(a[0]);
          } else {
            assert a[i] == a[1..][i - 1];
            assert HasKey(b[1..], key, key(a[1..][i - 1]));
            var j :| 0 <= j < |b| - 1 && key(b[1..][j]) == key(a[i]);
            assert key(b[j + 1]) == key(a[i]);
          }
        }
        forall i, j | 0 <= i < j < |a| && UniqueKeys(b, key) ensures key(a[i]) != key(a[j]) {
          if i == 0 {
            assert a[j] == a[1..][j - 1];
            assert HasKey(b[1..], key, key(a[1..][j - 1]));
            var m :| 0 <= m < |b| - 1 && key(b[1..][m]) == key(a[j]);
            assert key(b[m + 1]) == key(a[j]);
          } else {
            assert a[i] == a[1..][i - 1] && a[j] == a[1..][j - 1];
          }
        }
      } else {
        SubsequenceKeepsUniqueKeys(a, b[1..], key);
        forall i | 0 <= i < |a| ensures HasKey(b, key, key(a[i])) {
          var j :| 0 <= j < |b| - 1 && key(b[1..][j]) == key(a[i]);
          assert key(b[j + 1]) == key(a[i]);
        }
      }
    }
  }

  /** `s.map(e => key(e) === key(x) ? x : e)`: every element whose key is that
      of `x` is replaced by `x`. */
  function ReplaceByKey<T>(s: seq<T>, key: T -> string, x: T): (r: seq<T>)
    ensures |r| == |s|
    ensures forall i :: 0 <= i < |s| ==> r[i] == if key(s[i]) == key(x) then x else s[i]
  {
    seq(|s|, i requires 0 <= i < |s| => if key(s[i]) == key(x) then x else s[i])
  }

  /** Replacing by key changes no key, so it keeps keys unique; and an element
      whose key was absent is not brought in. */
  lemma ReplaceByKeyKeepsKeys<T>(s: seq<T>, key: T -> string, x: T)
    ensures forall i :: 0 <= i < |s| ==> key(ReplaceByKey(s, key, x)[i]) == key(s[i])
    ensures UniqueKeys(s, key) ==> UniqueKeys(ReplaceByKey(s, key, x), key)
    ensures !HasKey(s, key, key(x)) ==> ReplaceByKey(s, key, x) == s
  {
  }

  /** `s.filter(e => key(e) !== k)`. */
  function RemoveByKey<T(!new)>(s: seq<T>, key: T -> string, k: string): (r: seq<T>)
    ensures forall i :: 0 <= i < |r| ==> r[i] in s
    ensures forall i :: 0 <= i < |s| ==> (s[i] in r <==> key(s[i]) != k)
    ensures !HasKey(r, key, k)
    ensures Subsequence(r, s)
    ensures !HasKey(s, key, k) ==> r == s
    ensures UniqueKeys(s, key) ==> UniqueKeys(r, key)
    ensures forall x {:trigger multiset(r)[x]} :: multiset(r)[x] == if key(x) != k then multiset(s)[x] else 0
  {
    var r := Filter(s, (e: T) => key(e) != k);
    assert forall i :: 0 <= i < |r| ==> key(r[i]) != k;
    SubsequenceKeepsUniqueKeys(r, s, key);
    r
  }
}

/** The two array operations the handlers use, `Array.prototype.find` and
    `Array.prototype.filter`, specialised to the callbacks the server passes
    them: "the record's integer key equals k". */
module ArrayOps {
  import opened Options

  /** Index of the first element whose key is `k`, as `find` scans: the first hit wins. */
  function FindFirst<T>(s: seq<T>, key: T -> int, k: int): (r: Option<nat>)
    ensures r.Some? ==> r.value < |s| && key(s[r.value]) == k
    ensures r.Some? ==> forall j :: 0 <= j < r.value ==> key(s[j]) != k
    ensures r.None? <==> forall j :: 0 <= j < |s| ==> key(s[j]) != k
  {
    if s == [] then None
    else if key(s[0]) == k then Some(0)
    else
      match FindFirst(s[1..], key, k)
      case None => None
      case Some(i) => Some(i + 1)
  }

  /** The elements whose key is `k`, in their original order, as `filter` keeps them. */
  function FilterByKey<T>(s: seq<T>, key: T -> int, k: int): (r: seq<T>)
    ensures |r| <= |s|
    ensures forall i :: 0 <= i < |r| ==> r[i] in s && key(r[i]) == k
    ensures forall i :: 0 <= i < |s| && key(s[i]) == k ==> s[i] in r
  {
    if s == [] then []
    else (if key(s[0]) == k then [s[0]] else []) + FilterByKey(s[1..], key, k)
  }

  /** Keys numbered 1, 2, ..., n in index order. */
  ghost predicate Dense<T>(s: seq<T>, key: T -> int) {
    forall i :: 0 <= i < |s| ==> key(s[i]) == i + 1
  }

  /** Filtering distributes over concatenation: together with its behaviour on one
      element this pins the result down, order and multiplicity included. */
  lemma {:induction false} FilterAppend<T>(a: seq<T>, b: seq<T>, key: T -> int, k: int)
    ensures FilterByKey(a + b, key, k) == FilterByKey(a, key, k) + FilterByKey(b, key, k)
  {
    if a == [] {
      assert a + b == b;
    } else {
      assert (a + b)[0] == a[0];
      assert (a + b)[1..] == a[1..] + b;
      FilterAppend(a[1..], b, key, k);
    }
  }

  /** On one element the filter keeps it once if its key is `k` and drops it otherwise. */
  lemma FilterSingleton<T>(x: T, key: T -> int, k: int)
    ensures FilterByKey([x], key, k) == if key(x) == k then [x] else []
  {
    assert [x][1..] == [];
  }

  /** When every key is `k` the filter keeps everything; when none is, nothing. */
  lemma {:induction false} FilterAllOrNothing<T>(s: seq<T>, key: T -> int, k: int)
    ensures (forall i :: 0 <= i < |s| ==> key(s[i]) == k) ==> FilterByKey(s, key, k) == s
    ensures (forall i :: 0 <= i < |s| ==> key(s[i]) != k) ==> FilterByKey(s, key, k) == []
  {
    if s != [] {
      FilterAllOrNothing(s[1..], key, k);
      if forall i :: 0 <= i < |s| ==> key(s[i]) == k {
        assert forall i :: 0 <= i < |s[1..]| ==> key(s[1..][i]) == k by {
          forall i | 0 <= i < |s[1..]| ensures key(s[1..][i]) == k {
            assert s[1..][i] == s[i + 1];
          }
        }
        assert [s[0]] + s[1..] == s;
      }
      if forall i :: 0 <= i < |s| ==> key(s[i]) != k {
        assert forall i :: 0 <= i < |s[1..]| ==> key(s[1..][i]) != k by {
          forall i | 0 <= i < |s[1..]| ensures key(s[1..][i]) != k {
            assert s[1..][i] == s[i + 1];
          }
        }
      }
    }
  }

  /** With dense keys the first element with key `k` sits at index `k - 1`;
      keys outside `1..|s|` are found nowhere. */
  lemma DenseFind<T>(s: seq<T>, key: T -> int, k: int)
    requires Dense(s, key)
    ensures FindFirst(s, key, k) == if 1 <= k <= |s| then Some(k - 1) else None
  {
    if 1 <= k <= |s| {
      assert key(s[k - 1]) == k;
    }
  }

  /** Dense keys are unique. */
  lemma DenseUnique<T>(s: seq<T>, key: T -> int, i: int, j: int)
    requires Dense(s, key)
    requires 0 <= i < |s| && 0 <= j < |s| && key(s[i]) == key(s[j])
    ensures i == j
  {
  }

  /** Appending the element keyed `|s| + 1` keeps the keys dense. */
  lemma DenseAppend<T>(s: seq<T>, key: T -> int, x: T)
    requires Dense(s, key) && key(x) == |s| + 1
    ensures Dense(s + [x], key)
  {
  }

  /** Replacing an element by one with the same key keeps the keys dense. */
  lemma DenseUpdate<T>(s: seq<T>, key: T -> int, i: int, x: T)
    requires Dense(s, key) && 0 <= i < |s| && key(x) == key(s[i])
    ensures Dense(s[i := x], key)
  {
  }

  /** Replacing the element `find` hit by one with the same key leaves what `find` hits unchanged. */
  lemma FindAfterUpdate<T>(s: seq<T>, key: T -> int, k: int, i: nat, x: T)
    requires FindFirst(s, key, k) == Some(i) && key(x) == k
    ensures FindFirst(s[i := x], key, k) == Some(i)
  {
    assert key(s[i := x][i]) == k;
  }
}

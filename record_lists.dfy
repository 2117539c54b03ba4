/**
 * Lists of records identified by a key (the expense id), and the one bulk
 * operation both stores apply to them: `Vec::retain(|el| el.id != id)`.
 * The key is passed as a function so that both record shapes share the proofs.
 */
module RecordLists {

  /** Some record of `s` has key `k`. */
  predicate HasKey<T>(s: seq<T>, key: T -> int, k: int) {
    exists i | 0 <= i < |s| :: key(s[i]) == k
  }

  /** No two records of `s` share a key. */
  predicate DistinctKeys<T>(s: seq<T>, key: T -> int) {
    forall i, j | 0 <= i < j < |s| :: key(s[i]) != key(s[j])
  }

  /** Keys strictly increase along `s` (the shape a list built by appending
      records with id max+1 has). */
  predicate KeysIncreasing<T>(s: seq<T>, key: T -> int) {
    forall i, j | 0 <= i < j < |s| :: key(s[i]) < key(s[j])
  }

  /** `a` is `b` with some records dropped and the rest in their original order. */
  ghost predicate IsSubsequence<T>(a: seq<T>, b: seq<T>)
    decreases |b|
  {
    if a == [] then true
    else if b == [] then false
    else if a[0] == b[0] then IsSubsequence(a[1..], b[1..])
    else IsSubsequence(a, b[1..])
  }

  /** `retain(|el| key(el) != k)`: keeps, in order, every record whose key differs from `k`. */
  function KeepOthers<T>(s: seq<T>, key: T -> int, k: int): (r: seq<T>)
    ensures |r| <= |s|
    ensures forall i | 0 <= i < |r| :: key(r[i]) != k
  {
    if s == [] then []
    else (if key(s[0]) != k then [s[0]] else []) + KeepOthers(s[1..], key, k)
  }

  lemma {:induction false} KeepOthersMembers<T>(s: seq<T>, key: T -> int, k: int, x: T)
    ensures x in KeepOthers(s, key, k) <==> x in s && key(x) != k
  {
    if s != [] {
      KeepOthersMembers(s[1..], key, k, x);
      assert s == [s[0]] + s[1..];
    }
  }

  /** The length stays the same exactly when no record had the key, and then
      nothing changed; otherwise it strictly decreases. */
  lemma {:induction false} KeepOthersLength<T>(s: seq<T>, key: T -> int, k: int)
    ensures |KeepOthers(s, key, k)| == |s| <==> !HasKey(s, key, k)
    ensures !HasKey(s, key, k) ==> KeepOthers(s, key, k) == s
    ensures HasKey(s, key, k) ==> |KeepOthers(s, key, k)| < |s|
  {
    if s != [] {
      KeepOthersLength(s[1..], key, k);
      if key(s[0]) != k {
        if HasKey(s, key, k) {
          var i :| 0 <= i < |s| && key(s[i]) == k;
          assert key(s[1..][i - 1]) == k;
        }
      } else {
        assert key(s[0]) == k;
      }
      assert !HasKey(s[1..], key, k) && key(s[0]) != k ==> !HasKey(s, key, k) by {
        if !HasKey(s[1..], key, k) && key(s[0]) != k {
          forall i | 0 <= i < |s| ensures key(s[i]) != k {
            if i > 0 { assert s[i] == s[1..][i - 1]; }
          }
        }
      }
    }
  }

  /** Retaining distributes over concatenation: the survivors of a list keep
      their original relative order. */
  lemma {:induction false} KeepOthersAppend<T>(a: seq<T>, b: seq<T>, key: T -> int, k: int)
    ensures KeepOthers(a + b, key, k) == KeepOthers(a, key, k) + KeepOthers(b, key, k)
  {
    if a != [] {
      KeepOthersAppend(a[1..], b, key, k);
      assert (a + b)[1..] == a[1..] + b;
    } else {
      assert a + b == b;
    }
  }

  lemma {:induction false} KeepOthersSubsequence<T>(s: seq<T>, key: T -> int, k: int)
    ensures IsSubsequence(KeepOthers(s, key, k), s)
  {
    if s != [] {
      KeepOthersSubsequence(s[1..], key, k);
      if key(s[0]) != k {
        assert KeepOthers(s, key, k) == [s[0]] + KeepOthers(s[1..], key, k);
        assert KeepOthers(s, key, k)[1..] == KeepOthers(s[1..], key, k);
      } else {
        var r := KeepOthers(s[1..], key, k);
        assert KeepOthers(s, key, k) == [] + r == r;
        assert r != [] ==> key(r[0]) != key(s[0]);
      }
    }
  }

  /** Retaining twice with the same key is the same as retaining once. */
  lemma KeepOthersIdempotent<T>(s: seq<T>, key: T -> int, k: int)
    ensures KeepOthers(KeepOthers(s, key, k), key, k) == KeepOthers(s, key, k)
  {
    var r := KeepOthers(s, key, k);
    KeepOthersLength(r, key, k);
  }

  /** Distinct keys stay distinct after a retain. */
  lemma {:induction false} KeepOthersDistinct<T>(s: seq<T>, key: T -> int, k: int)
    requires DistinctKeys(s, key)
    ensures DistinctKeys(KeepOthers(s, key, k), key)
  {
    if s != [] {
      var rest := KeepOthers(s[1..], key, k);
      KeepOthersDistinct(s[1..], key, k);
      if key(s[0]) != k {
        forall j | 0 <= j < |rest| ensures key(s[0]) != key(rest[j]) {
          KeepOthersMembers(s[1..], key, k, rest[j]);
          var m :| 0 <= m < |s[1..]| && s[1..][m] == rest[j];
          assert s[m + 1] == rest[j];
        }
        var r := KeepOthers(s, key, k);
        assert r == [s[0]] + rest;
        forall i, j | 0 <= i < j < |r| ensures key(r[i]) != key(r[j]) {
          if i > 0 { assert r[i] == rest[i - 1] && r[j] == rest[j - 1]; }
          else { assert r[j] == rest[j - 1]; }
        }
      }
    }
  }

  /** Increasing keys stay increasing after a retain. */
  lemma {:induction false} KeepOthersIncreasing<T>(s: seq<T>, key: T -> int, k: int)
    requires KeysIncreasing(s, key)
    ensures KeysIncreasing(KeepOthers(s, key, k), key)
  {
    if s != [] {
      var rest := KeepOthers(s[1..], key, k);
      KeepOthersIncreasing(s[1..], key, k);
      if key(s[0]) != k {
        forall j | 0 <= j < |rest| ensures key(s[0]) < key(rest[j]) {
          KeepOthersMembers(s[1..], key, k, rest[j]);
          var m :| 0 <= m < |s[1..]| && s[1..][m] == rest[j];
          assert s[m + 1] == rest[j];
        }
        var r := KeepOthers(s, key, k);
        assert r == [s[0]] + rest;
        forall i, j | 0 <= i < j < |r| ensures key(r[i]) < key(r[j]) {
          if i > 0 { assert r[i] == rest[i - 1] && r[j] == rest[j - 1]; }
          else { assert r[j] == rest[j - 1]; }
        }
      }
    }
  }
}

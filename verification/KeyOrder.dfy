/**
 Composite sort keys. Every ordered read of the service sorts on one column and
 breaks ties with a row id: the sweep's candidates on (last_checked_at NULLS FIRST,
 connector_id), the catalogue on (created_at DESC, connector_id DESC) or
 (name ASC, connector_id ASC), a comment thread on (created_at, comment_id).

 The first column is a sequence of integers compared lexicographically, which covers
 text (its collation weights), a timestamp ([t]), a descending timestamp ([-t]) and a
 NULL that sorts first ([]). `Sorted` is what ORDER BY returns.
 */
module KeyOrder {
  datatype Key = Key(major: seq<int>, minor: int)

  /** The row a key belongs to. */
  function RowId(k: Key): nat {
    if k.minor >= 0 then k.minor else 0
  }

  predicate LexLess(a: seq<int>, b: seq<int>) {
    b != [] && (a == [] || a[0] < b[0] || (a[0] == b[0] && LexLess(a[1..], b[1..])))
  }

  predicate Less(a: Key, b: Key) {
    LexLess(a.major, b.major) || (a.major == b.major && a.minor < b.minor)
  }

  lemma {:induction false} LexIrreflexive(a: seq<int>)
    ensures !LexLess(a, a)
  {
    if a != [] { LexIrreflexive(a[1..]); }
  }

  lemma {:induction false} LexTotal(a: seq<int>, b: seq<int>)
    ensures a == b || LexLess(a, b) || LexLess(b, a)
  {
    if a != [] && b != [] && a[0] == b[0] {
      LexTotal(a[1..], b[1..]);
      if a[1..] == b[1..] {
        assert a == [a[0]] + a[1..] && b == [b[0]] + b[1..];
      }
    }
  }

  lemma {:induction false} LexTransitive(a: seq<int>, b: seq<int>, c: seq<int>)
    requires LexLess(a, b) && LexLess(b, c)
    ensures LexLess(a, c)
  {
    if a != [] && a[0] == b[0] == c[0] {
      LexTransitive(a[1..], b[1..], c[1..]);
    }
  }

  lemma LessIrreflexive(a: Key)
    ensures !Less(a, a)
  {
    LexIrreflexive(a.major);
  }

  lemma LessTotal(a: Key, b: Key)
    ensures a == b || Less(a, b) || Less(b, a)
  {
    LexTotal(a.major, b.major);
  }

  lemma LessTransitive(a: Key, b: Key, c: Key)
    requires Less(a, b) && Less(b, c)
    ensures Less(a, c)
  {
    if LexLess(a.major, b.major) && LexLess(b.major, c.major) {
      LexTransitive(a.major, b.major, c.major);
    }
  }

  lemma LessAsymmetric(a: Key, b: Key)
    requires Less(a, b)
    ensures !Less(b, a) && a != b
  {
    LessIrreflexive(a);
    if Less(b, a) { LessTransitive(a, b, a); }
  }

  ghost predicate Increasing(s: seq<Key>) {
    forall i, j :: 0 <= i < j < |s| ==> Less(s[i], s[j])
  }

  ghost predicate IsLeast(k: Key, s: set<Key>) {
    k in s && forall x :: x in s && x != k ==> Less(k, x)
  }

  lemma {:induction false} LeastExists(s: set<Key>)
    requires s != {}
    ensures exists k :: IsLeast(k, s)
  {
    var x :| x in s;
    if s == {x} {
      assert IsLeast(x, s);
    } else {
      LeastExists(s - {x});
      var k :| IsLeast(k, s - {x});
      LessTotal(x, k);
      if Less(x, k) {
        forall y | y in s && y != x ensures Less(x, y) {
          if y != k { LessTransitive(x, k, y); }
        }
        assert IsLeast(x, s);
      } else {
        assert IsLeast(k, s);
      }
    }
  }

  lemma LeastUnique(s: set<Key>)
    ensures forall k, k' :: IsLeast(k, s) && IsLeast(k', s) ==> k == k'
  {
    forall k, k' | IsLeast(k, s) && IsLeast(k', s) ensures k == k' {
      if k != k' { LessAsymmetric(k, k'); }
    }
  }

  function Least(s: set<Key>): (k: Key)
    requires s != {}
    ensures IsLeast(k, s)
  {
    LeastExists(s);
    LeastUnique(s);
    assert forall k :: IsLeast(k, s) <==> k in s && forall x :: x in s && x != k ==> Less(k, x);
    var k :| k in s && forall x :: x in s && x != k ==> Less(k, x);
    k
  }

  /** ORDER BY over a set of keys. */
  function Sorted(s: set<Key>): (r: seq<Key>)
    ensures |r| == |s|
  {
    if s == {} then [] else [Least(s)] + Sorted(s - {Least(s)})
  }

  /** LIMIT n */
  function Take(r: seq<Key>, n: nat): seq<Key> {
    if |r| <= n then r else r[..n]
  }

  /** The listing has exactly the keys of the set, in strictly increasing order. */
  lemma {:induction false} SortedFacts(s: set<Key>)
    ensures Increasing(Sorted(s))
    ensures forall k :: k in Sorted(s) <==> k in s
  {
    if s != {} {
      var k := Least(s);
      var rest := Sorted(s - {k});
      SortedFacts(s - {k});
      forall i, j | 0 <= i < j < |s| ensures Less(Sorted(s)[i], Sorted(s)[j]) {
        assert Sorted(s)[j] == rest[j - 1] && rest[j - 1] in rest;
        if i > 0 { assert Sorted(s)[i] == rest[i - 1]; }
      }
    }
  }

  lemma SortedAt(s: set<Key>, i: nat)
    requires i < |s|
    ensures Sorted(s)[i] in s
  {
    SortedFacts(s);
    assert Sorted(s)[i] in Sorted(s);
  }

  ghost function KeysIn(r: seq<Key>): set<Key> {
    set k | k in r
  }

  /** The first key of an increasing listing is its least, and does not come again. */
  lemma FirstIsLeast(r: seq<Key>)
    requires Increasing(r) && r != []
    ensures Increasing(r[1..]) && KeysIn(r[1..]) == KeysIn(r) - {r[0]}
    ensures r[0] in KeysIn(r) && Least(KeysIn(r)) == r[0]
  {
    var tail := r[1..];
    assert r == [r[0]] + tail;
    forall i | 0 <= i < |tail| ensures tail[i] != r[0] {
      LessAsymmetric(r[0], r[i + 1]);
    }
    forall k | IsLeast(k, KeysIn(r)) ensures k == r[0] {
      var i :| 0 <= i < |r| && r[i] == k;
      if i > 0 { LessAsymmetric(r[0], r[i]); }
    }
  }

  lemma SortedCons(r: seq<Key>, s: set<Key>)
    requires r != [] && s != {} && Least(s) == r[0] && Sorted(s - {r[0]}) == r[1..]
    ensures Sorted(s) == r
  {
  }

  lemma {:induction false} IncreasingIsSorted(r: seq<Key>)
    requires Increasing(r)
    ensures r == Sorted(KeysIn(r))
  {
    if r == [] {
      assert KeysIn(r) == {};
    } else {
      FirstIsLeast(r);
      IncreasingIsSorted(r[1..]);
      SortedCons(r, KeysIn(r));
    }
  }

  /** An increasing listing is determined by its elements. */
  lemma SortedUnique(r: seq<Key>, s: set<Key>)
    requires Increasing(r)
    requires forall k :: k in r <==> k in s
    ensures r == Sorted(s)
  {
    IncreasingIsSorted(r);
    assert KeysIn(r) == s;
  }

  /** The keys that sort after position i of a listing are exactly those above its i-th key. */
  lemma SortedSuffix(s: set<Key>, i: nat)
    requires i < |s|
    ensures Sorted(set k | k in s && Less(Sorted(s)[i], k)) == Sorted(s)[i + 1..]
  {
    var r := Sorted(s);
    SortedFacts(s);
    var above := set k | k in s && Less(r[i], k);
    forall k ensures k in r[i + 1..] <==> k in above {
      if k in above {
        var j :| 0 <= j < |r| && r[j] == k;
        LessAsymmetric(r[i], k);
        assert i < j;
        assert r[i + 1..][j - i - 1] == k;
      }
    }
    SortedUnique(r[i + 1..], above);
  }

  /** Two increasing listings, the second beyond the last key of the first, concatenate. */
  lemma IncreasingConcat(a: seq<Key>, b: seq<Key>)
    requires Increasing(a) && Increasing(b)
    requires a != [] ==> forall k :: k in b ==> Less(a[|a| - 1], k)
    ensures Increasing(a + b)
  {
    var r := a + b;
    forall i, j | 0 <= i < j < |r| ensures Less(r[i], r[j]) {
      if i < |a| <= j {
        var last := a[|a| - 1];
        assert r[j] == b[j - |a|] && r[j] in b;
        if i < |a| - 1 {
          assert Less(a[i], last);
          LessTransitive(a[i], last, r[j]);
        }
      } else if |a| <= i {
        assert Less(b[i - |a|], b[j - |a|]);
      }
    }
  }

  lemma IncreasingPrefix(r: seq<Key>, n: nat)
    requires Increasing(r) && n <= |r|
    ensures Increasing(r[..n])
  {
  }
}

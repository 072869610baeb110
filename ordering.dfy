/**
 * `ORDER BY timestamp` and `LIMIT/OFFSET` over table rows, as the stores'
 * queries ask the database for them. Rows with equal keys keep their table
 * order (SQL itself leaves their order open).
 */
module Ordering {

  predicate SortedBy<T>(s: seq<T>, key: T -> int)
  {
    forall i, j :: 0 <= i < j < |s| ==> key(s[i]) <= key(s[j])
  }

  /** Insert `x` after every element whose key is not greater than its own. */
  function Insert<T>(x: T, s: seq<T>, key: T -> int): (r: seq<T>)
    ensures |r| == |s| + 1
    ensures multiset(r) == multiset(s) + multiset{x}
    ensures SortedBy(s, key) ==> SortedBy(r, key)
    decreases |s|
  {
    if s == [] then [x]
    else if key(x) < key(s[0]) then [x] + s
    else
      var rest := Insert(x, s[1..], key);
      assert s == [s[0]] + s[1..];
      if SortedBy(s, key) then
        HeadBelowAll(s, x, rest, key);
        [s[0]] + rest
      else
        [s[0]] + rest
  }

  lemma HeadBelowAll<T>(s: seq<T>, x: T, rest: seq<T>, key: T -> int)
    requires s != [] && SortedBy(s, key) && key(s[0]) <= key(x)
    requires multiset(rest) == multiset(s[1..]) + multiset{x}
    ensures forall k :: 0 <= k < |rest| ==> key(s[0]) <= key(rest[k])
  {
    forall k | 0 <= k < |rest|
      ensures key(s[0]) <= key(rest[k])
    {
      assert rest[k] in multiset(rest);
      if rest[k] != x {
        assert rest[k] in multiset(s[1..]);
        var m :| 0 <= m < |s[1..]| && s[1..][m] == rest[k];
        assert s[m + 1] == rest[k];
      }
    }
  }

  /** A stable sort by `key`, ascending. */
  function SortBy<T>(s: seq<T>, key: T -> int): (r: seq<T>)
    ensures |r| == |s|
    ensures multiset(r) == multiset(s)
    ensures SortedBy(r, key)
    decreases |s|
  {
    if s == [] then []
    else
      assert s == s[..|s| - 1] + [s[|s| - 1]];
      Insert(s[|s| - 1], SortBy(s[..|s| - 1], key), key)
  }

  /**
   * `LIMIT limit OFFSET offset` with the SQLite reading of negative values:
   * a negative offset counts as 0 and a negative limit means no limit.
   */
  function Window<T>(s: seq<T>, offset: int, limit: int): (r: seq<T>)
    ensures var start := if offset <= 0 then 0 else if offset >= |s| then |s| else offset;
            |r| == (if limit < 0 || limit >= |s| - start then |s| - start else limit)
            && r == s[start..][..|r|]
    ensures limit < 0 ==> r == s[if offset <= 0 then 0 else if offset >= |s| then |s| else offset..]
    ensures offset <= 0 && limit >= |s| ==> r == s
  {
    var start := if offset <= 0 then 0 else if offset >= |s| then |s| else offset;
    var rest := s[start..];
    if limit < 0 || limit >= |rest| then rest else rest[..limit]
  }

  /** A window of a sorted sequence is sorted, and holds only elements of the sequence. */
  lemma WindowKeepsOrder<T>(s: seq<T>, offset: int, limit: int, key: T -> int)
    requires SortedBy(s, key)
    ensures SortedBy(Window(s, offset, limit), key)
    ensures forall x :: x in Window(s, offset, limit) ==> x in s
  {
    var start := if offset <= 0 then 0 else if offset >= |s| then |s| else offset;
    var w := Window(s, offset, limit);
    assert forall i :: 0 <= i < |w| ==> w[i] == s[start + i];
  }

  /** Consecutive windows tile the sequence: page k+1 starts where page k ends. */
  lemma {:induction false} WindowsTile<T>(s: seq<T>, offset: nat, limit: nat)
    ensures Window(s, offset, limit) + Window(s, offset + limit, limit) == Window(s, offset, 2 * limit)
  {
    var a := Window(s, offset, limit);
    var b := Window(s, offset + limit, limit);
    var c := Window(s, offset, 2 * limit);
    if offset >= |s| {
      assert a == [] && b == [] && c == [];
    } else if offset + limit >= |s| {
      assert a == s[offset..];
      assert b == [];
      assert c == s[offset..];
    } else {
      assert a == s[offset..offset + limit];
      assert c == s[offset..][..if 2 * limit >= |s| - offset then |s| - offset else 2 * limit];
      assert b == s[offset + limit..][..if limit >= |s| - offset - limit then |s| - offset - limit else limit];
    }
  }
}

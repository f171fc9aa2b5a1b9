/**
  `records.sorted { $0.updatedAt > $1.updatedAt }`, used by both the output
  tab and the context builder, and the `prefix(k)` that the context builder
  takes of the result.

  Swift's `sorted(by:)` promises an ordered permutation and nothing about the
  order of records with equal keys; the model sorts by insertion, and every
  contract below is stated without relying on how ties are broken.
*/
module Sorting {
  import opened Text
  import opened Json
  import opened Models

  /** Non-increasing in the key: no later record has a greater key. */
  ghost predicate SortedDesc<T>(s: seq<T>, key: T -> string)
  {
    forall i, j :: 0 <= i < j < |s| ==> !LexLess(key(s[i]), key(s[j]))
  }

  /** Puts `x` in front of the first record whose key is not greater than its own. */
  function Insert<T>(x: T, s: seq<T>, key: T -> string): (r: seq<T>)
    requires SortedDesc(s, key)
    ensures multiset(r) == multiset(s) + multiset{x}
    ensures SortedDesc(r, key)
  {
    if |s| == 0 then [x]
    else if !LexLess(key(x), key(s[0])) then
      InsertFront(x, s, key);
      [x] + s
    else
      var tail := Insert(x, s[1..], key);
      assert s == [s[0]] + s[1..];
      InsertBehind(s[0], x, s[1..], tail, key);
      [s[0]] + tail
  }

  lemma InsertFront<T>(x: T, s: seq<T>, key: T -> string)
    requires SortedDesc(s, key) && |s| > 0 && !LexLess(key(x), key(s[0]))
    ensures SortedDesc([x] + s, key)
  {
    var r := [x] + s;
    forall i, j | 0 <= i < j < |r| ensures !LexLess(key(r[i]), key(r[j])) {
      if i == 0 && j > 1 {
        LexAtLeastTransitive(key(x), key(s[0]), key(s[j - 1]));
      }
    }
  }

  lemma InsertBehind<T>(y: T, x: T, s: seq<T>, tail: seq<T>, key: T -> string)
    requires SortedDesc([y] + s, key) && LexLess(key(x), key(y))
    requires SortedDesc(tail, key) && multiset(tail) == multiset(s) + multiset{x}
    ensures SortedDesc([y] + tail, key)
  {
    var r := [y] + tail;
    forall i, j | 0 <= i < j < |r| ensures !LexLess(key(r[i]), key(r[j])) {
      if i == 0 {
        var z := tail[j - 1];
        assert r[0] == y && r[j] == z;
        assert z in multiset(tail);
        if z == x {
          LexLessAsymmetric(key(x), key(y));
        } else {
          assert z in multiset(s);
          var k :| 0 <= k < |s| && s[k] == z;
          assert ([y] + s)[0] == y && ([y] + s)[k + 1] == z;
        }
      } else {
        assert r[i] == tail[i - 1] && r[j] == tail[j - 1];
      }
    }
  }

  /** The records ordered by key, greatest first: an ordered permutation. */
  function SortDesc<T>(s: seq<T>, key: T -> string): (r: seq<T>)
    ensures multiset(r) == multiset(s)
    ensures SortedDesc(r, key)
  {
    if |s| == 0 then []
    else
      assert s == [s[0]] + s[1..];
      Insert(s[0], SortDesc(s[1..], key), key)
  }

  /** `prefix(k)`: the first `k` elements, or all of them when there are fewer. */
  function Take<T>(s: seq<T>, k: nat): (r: seq<T>)
    ensures |r| == if |s| < k then |s| else k
    ensures r <= s
  {
    if |s| < k then s else s[..k]
  }

  /** Sorting keeps exactly the records it was given. */
  lemma SortKeepsRecords<T>(s: seq<T>, key: T -> string, x: T)
    ensures x in SortDesc(s, key) <==> x in s
    ensures |SortDesc(s, key)| == |s|
  {
    var r := SortDesc(s, key);
    assert x in r <==> x in multiset(r);
    assert x in s <==> x in multiset(s);
    assert |r| == |multiset(r)| == |multiset(s)| == |s|;
  }

  /** The top `k` of the sorted records are the most recent: no record that was
      loaded and left out has a greater key than any record kept. */
  lemma TopKAreMostRecent<T>(s: seq<T>, key: T -> string, k: nat)
    ensures forall x, y :: x in Take(SortDesc(s, key), k) && y in s && y !in Take(SortDesc(s, key), k)
                           ==> !LexLess(key(x), key(y))
  {
    var r := SortDesc(s, key);
    var top := Take(r, k);
    forall x, y | x in top && y in s && y !in top ensures !LexLess(key(x), key(y)) {
      var i :| 0 <= i < |top| && top[i] == x;
      SortKeepsRecords(s, key, y);
      var j :| 0 <= j < |r| && r[j] == y;
      assert top == r[..|top|];
      assert r[i] == x && i < j;
    }
  }

  /** The projects cached in the projects file, most recently updated first. */
  function SortedProjects(files: Files, parse: JsonParser): (r: seq<ProjectMeta>)
    ensures multiset(r) == multiset(LoadProjects(files, ProjectsFileName, parse))
    ensures SortedDesc(r, ProjectUpdatedAt)
  {
    SortDesc(LoadProjects(files, ProjectsFileName, parse), ProjectUpdatedAt)
  }

  /** The actions cached in the actions file, most recently updated first. */
  function SortedActions(files: Files, parse: JsonParser): (r: seq<ProjectAction>)
    ensures multiset(r) == multiset(LoadActions(files, ActionsFileName, parse))
    ensures SortedDesc(r, ActionUpdatedAt)
  {
    SortDesc(LoadActions(files, ActionsFileName, parse), ActionUpdatedAt)
  }
}

/** Ascending ids and keyset pages: SELECT ... WHERE id > after ORDER BY id LIMIT n. */
module Keyset {
  import opened Finite

  function MinOf(s: set<nat>): (m: nat)
    requires s != {}
    ensures m in s && forall x | x in s :: m <= x
  {
    MinExists(s);
    var m :| m in s && forall x | x in s :: m <= x;
    m
  }

  lemma {:induction false} MinExists(s: set<nat>)
    requires s != {}
    ensures exists m :: m in s && forall x | x in s :: m <= x
  {
    var y := Member(s);
    if s != {y} {
      var rest := s - {y};
      MinExists(rest);
      var m :| m in rest && forall x | x in rest :: m <= x;
      var least := if y < m then y else m;
      forall x | x in s
        ensures least <= x
      {
        assert x == y || x in rest;
      }
      assert least in s;
    }
  }

  predicate Ascending(l: seq<nat>) {
    forall i, j | 0 <= i < j < |l| :: l[i] < l[j]
  }

  ghost predicate Lists(l: seq<nat>, s: set<nat>) {
    Ascending(l) && |l| == |s| && forall x :: x in l <==> x in s
  }

  lemma ConsLists(m: nat, rest: seq<nat>, s: set<nat>)
    requires m in s && (forall x | x in s :: m <= x) && Lists(rest, s - {m})
    ensures Lists([m] + rest, s)
  {
    assert forall i | 0 <= i < |rest| :: rest[i] in rest;
    forall x
      ensures x in [m] + rest <==> x in s
    {
      assert x in [m] + rest <==> x == m || x in rest;
    }
  }

  /** The elements of s in ascending order. */
  function Sorted(s: set<nat>): (l: seq<nat>)
    decreases |s|
  {
    if s == {} then []
    else
      var m := MinOf(s);
      [m] + Sorted(s - {m})
  }

  lemma {:induction false} SortedLists(s: set<nat>)
    ensures Lists(Sorted(s), s)
    decreases |s|
  {
    if s != {} {
      var m := MinOf(s);
      SortedLists(s - {m});
      ConsLists(m, Sorted(s - {m}), s);
    }
  }

  function Beyond(s: set<nat>, after: int): set<nat> {
    set x | x in s && x > after
  }

  function Take<T>(l: seq<T>, n: int): seq<T> {
    if n <= 0 then [] else if n < |l| then l[..n] else l
  }

  /** One keyset page. */
  function Page(s: set<nat>, after: int, limit: int): seq<nat> {
    Take(Sorted(Beyond(s, after)), limit)
  }

  /** Resuming after the n-th id lists exactly what the first n left over. */
  lemma {:induction false} ResumeAfter(s: set<nat>, after: int, n: nat)
    requires 0 < n <= |Sorted(Beyond(s, after))|
    ensures var all := Sorted(Beyond(s, after)); Sorted(Beyond(s, all[n - 1])) == all[n..]
    decreases n
  {
    var beyond := Beyond(s, after);
    var all := Sorted(beyond);
    SortedLists(beyond);
    assert beyond != {};
    var m := MinOf(beyond);
    assert Beyond(s, m) == beyond - {m};
    assert all[0] == m && all[1..] == Sorted(Beyond(s, m));
    if n > 1 {
      ResumeAfter(s, m, n - 1);
      assert all[1..][n - 2] == all[n - 1] && all[1..][n - 1..] == all[n..];
    }
  }

  /** The page after the n-th id. */
  lemma PageAfter(s: set<nat>, from: int, n: nat, since: int, fetch: int)
    requires n <= |Sorted(Beyond(s, from))| && fetch > 0
    requires since == if n == 0 then from else Sorted(Beyond(s, from))[n - 1]
    ensures Page(s, since, fetch) == Take(Sorted(Beyond(s, from))[n..], fetch)
  {
    if n > 0 {
      ResumeAfter(s, from, n);
    } else {
      assert Sorted(Beyond(s, from))[0..] == Sorted(Beyond(s, from));
    }
  }

  lemma SortedPops(s: set<nat>)
    requires s != {}
    ensures Sorted(s) == [MinOf(s)] + Sorted(s - {MinOf(s)})
  {
  }

  lemma SortedIsEmpty()
    ensures Sorted({}) == []
  {
  }

  /** The engine's side of a page: the smallest ids first, until the limit. */
  method FirstIds(s: set<nat>, limit: int) returns (ids: seq<nat>)
    requires limit > 0
    ensures ids == Take(Sorted(s), limit)
  {
    ids := [];
    var rest := s;
    while |ids| < limit && rest != {}
      invariant |ids| <= limit && Sorted(s) == ids + Sorted(rest)
      decreases |rest|
    {
      SortedPops(rest);
      var m := MinOf(rest);
      rest := rest - {m};
      ids := ids + [m];
    }
    if rest == {} {
      SortedIsEmpty();
    }
  }

  /** Elements at or before the cursor do not matter to what follows it. */
  lemma OnlyBeyondMatters(s: set<nat>, t: set<nat>, after: int)
    requires forall x | x > after :: x in s <==> x in t
    ensures Beyond(s, after) == Beyond(t, after)
  {
  }

  /** The first n elements: ascending members, and whoever is left out comes later and finds the list full. */
  lemma TakeIsFirst(s: set<nat>, n: int, l: seq<nat>)
    requires l == Take(Sorted(s), n)
    ensures |l| <= (if n < 0 then 0 else n) && Ascending(l)
    ensures forall x | x in l :: x in s
    ensures forall x | x in s && x !in l :: |l| >= n && forall i | 0 <= i < |l| :: l[i] < x
  {
    var all := Sorted(s);
    SortedLists(s);
    assert forall i | 0 <= i < |l| :: l[i] == all[i] && all[i] in all;
    forall x | x in s && x !in l
      ensures |l| >= n && forall i | 0 <= i < |l| :: l[i] < x
    {
      var j :| 0 <= j < |all| && all[j] == x;
      assert forall i | 0 <= i < |l| :: l[i] in l;
    }
  }
}

/** Option, as used for the nullable columns of every table. */
module Wrappers {
  datatype Option<+T> = None | Some(value: T)

  datatype Result<+T, +E> = Ok(value: T) | Err(error: E)
}

/** Wall-clock time in nanoseconds, and its truncation to Unix seconds. */
module Clock {
  type Time = int

  const SECOND: int := 1_000_000_000

  /** Go's Time.Unix and SQLite's strftime('%s', t): both round down. */
  function Unix(t: Time): (s: int)
    ensures s * SECOND <= t < (s + 1) * SECOND
  {
    t / SECOND
  }

  /** A gap of whole seconds survives the truncation; a lag of less than k seconds costs at most k of them. */
  lemma UnixGap(a: Time, b: Time, k: int)
    ensures b >= a + k * SECOND ==> Unix(b) >= Unix(a) + k
    ensures b <= a + k * SECOND ==> Unix(b) <= Unix(a) + k
  {
  }
}

module Octets {
  type Byte = n: nat | n < 256
}

module Arithmetic {
  /** Multiplying by the same number keeps an order. */
  lemma Times(a: int, b: int, k: int)
    requires a <= b && k >= 0
    ensures a * k <= b * k
  {
  }
}

/** Finite sets and injections, as the ranking and counting proofs need them. */
module Finite {
  lemma Member<T>(s: set<T>) returns (x: T)
    requires s != {}
    ensures x in s
  {
    x :| x in s;
  }

  /** A set that maps one-to-one into lo..hi has at most hi - lo + 1 elements. */
  lemma {:induction false} InjectionBound<T>(s: set<T>, f: map<T, int>, lo: int, hi: int)
    requires s <= f.Keys
    requires forall x | x in s :: lo <= f[x] <= hi
    requires forall x, y | x in s && y in s && x != y :: f[x] != f[y]
    requires lo <= hi + 1
    ensures |s| <= hi - lo + 1
    decreases hi - lo + 1
  {
    if s == {} {
      return;
    }
    var any :| any in s;
    assert lo <= f[any] <= hi;
    var top := set x | x in s && f[x] == hi;
    if top == {} {
      forall x | x in s ensures f[x] <= hi - 1 {
        assert x !in top;
      }
      InjectionBound(s, f, lo, hi - 1);
    } else {
      var x :| x in top;
      assert s == (s - {x}) + {x};
      InjectionBound(s - {x}, f, lo, hi - 1);
    }
  }

  lemma SubsetSize<T>(a: set<T>, b: set<T>)
    requires a <= b
    ensures |a| <= |b|
    ensures |a| == |b| ==> a == b
  {
    assert b == a + (b - a);
  }

  lemma Complement<T>(a: set<T>, b: set<T>)
    requires a <= b
    ensures a + (b - a) == b && a !! (b - a)
  {
  }

  /** Any finite set can be listed without repetition up to a wanted length. */
  method Listing<T>(s: set<T>, n: nat) returns (l: seq<T>)
    requires n <= |s|
    ensures |l| == n
    ensures forall x | x in l :: x in s
    ensures NoDup(l)
  {
    if n == 0 {
      l := [];
    } else {
      var x :| x in s;
      var rest := Listing(s - {x}, n - 1);
      l := [x] + rest;
    }
  }

  ghost predicate NoDup<T>(l: seq<T>) {
    forall i, j | 0 <= i < j < |l| :: l[i] != l[j]
  }

  lemma {:induction false} NoDupSize<T>(l: seq<T>)
    requires NoDup(l)
    ensures |set x | x in l| == |l|
  {
    if l != [] {
      NoDupSize(l[1..]);
      assert (set x | x in l) == (set x | x in l[1..]) + {l[0]};
    }
  }
}

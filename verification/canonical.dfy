/** Bytes, and the order sort.Strings sorts them by. */
module Bytes {
  import opened Octets

  type Text = seq<Byte>

  /** Lexicographic order. */
  predicate AtMost(a: Text, b: Text) {
    if a == [] then true
    else if b == [] then false
    else a[0] < b[0] || (a[0] == b[0] && AtMost(a[1..], b[1..]))
  }

  lemma {:induction false} AtMostTotal(a: Text, b: Text)
    ensures AtMost(a, b) || AtMost(b, a)
  {
    if a != [] && b != [] {
      AtMostTotal(a[1..], b[1..]);
    }
  }

  lemma {:induction false} AtMostBoth(a: Text, b: Text)
    requires AtMost(a, b) && AtMost(b, a)
    ensures a == b
  {
    if a != [] && b != [] {
      AtMostBoth(a[1..], b[1..]);
      assert a == [a[0]] + a[1..] && b == [b[0]] + b[1..];
    }
  }

  lemma {:induction false} AtMostThrough(a: Text, b: Text, c: Text)
    requires AtMost(a, b) && AtMost(b, c)
    ensures AtMost(a, c)
  {
    if a != [] && b != [] && c != [] && a[0] == b[0] == c[0] {
      AtMostThrough(a[1..], b[1..], c[1..]);
    }
  }

  lemma SameHead(a: Text, b: Text, n: nat)
    requires n < |a| && n < |b| && a[..n] == b[..n]
    ensures n > 0 ==> a[0] == b[0] && a[1..][..n - 1] == b[1..][..n - 1]
  {
    if n > 0 {
      assert a[0] == a[..n][0] && b[0] == b[..n][0];
      assert a[1..][..n - 1] == a[..n][1..] && b[1..][..n - 1] == b[..n][1..];
    }
  }

  lemma OneHeadMore(a: Text, b: Text, n: nat)
    requires a != [] && b != [] && a[0] == b[0]
    requires n < |a[1..]| && n < |b[1..]| && a[1..][..n] == b[1..][..n] && a[1..][n] < b[1..][n]
    ensures a[..n + 1] == b[..n + 1] && a[n + 1] < b[n + 1]
  {
    assert a[..n + 1] == [a[0]] + a[1..][..n] && b[..n + 1] == [b[0]] + b[1..][..n];
  }

  /** On the bytes: a is a prefix of b, or smaller where they first differ. */
  lemma {:induction false} AtMostIff(a: Text, b: Text)
    ensures AtMost(a, b)
       <==> a <= b || exists n :: 0 <= n < |a| && n < |b| && a[..n] == b[..n] && a[n] < b[n]
  {
    if a != [] && b != [] {
      assert a == [a[0]] + a[1..] && b == [b[0]] + b[1..];
      if n :| 0 <= n < |a| && n < |b| && a[..n] == b[..n] && a[n] < b[n] {
        SameHead(a, b, n);
      }
      if a[0] < b[0] {
        assert a[..0] == b[..0];
      }
      if a[0] == b[0] {
        AtMostIff(a[1..], b[1..]);
        if n :| 0 <= n < |a[1..]| && n < |b[1..]| && a[1..][..n] == b[1..][..n] && a[1..][n] < b[1..][n] {
          OneHeadMore(a, b, n);
        }
      }
    }
  }

  ghost predicate Rising(s: seq<Text>) {
    forall i, j | 0 <= i < j < |s| :: AtMost(s[i], s[j])
  }

  /** sort.Strings. */
  method SortStrings(s: seq<Text>) returns (r: seq<Text>)
    ensures Rising(r) && multiset(r) == multiset(s)
  {
    r := [];
    for i := 0 to |s|
      invariant Rising(r) && multiset(r) == multiset(s[..i])
    {
      r := Insert(r, s[i]);
      assert s[..i + 1] == s[..i] + [s[i]];
    }
    assert s[..|s|] == s;
  }

  method Insert(s: seq<Text>, t: Text) returns (r: seq<Text>)
    requires Rising(s)
    ensures Rising(r) && multiset(r) == multiset(s) + multiset{t}
  {
    var i := 0;
    while i < |s| && AtMost(s[i], t)
      invariant i <= |s| && forall k | 0 <= k < i :: AtMost(s[k], t)
    {
      i := i + 1;
    }
    r := s[..i] + [t] + s[i..];
    InsertedRises(s, i, t);
    assert s == s[..i] + s[i..];
  }

  /** t fits right after the strings that are at most t. */
  lemma InsertedRises(s: seq<Text>, i: nat, t: Text)
    requires Rising(s) && i <= |s| && forall k | 0 <= k < i :: AtMost(s[k], t)
    requires i < |s| ==> !AtMost(s[i], t)
    ensures Rising(s[..i] + [t] + s[i..])
  {
    var r := s[..i] + [t] + s[i..];
    forall m, n | 0 <= m < n < |r|
      ensures AtMost(r[m], r[n])
    {
      if n < i {
        assert r[m] == s[m] && r[n] == s[n];
      } else if n == i {
        assert r[m] == s[m] && r[n] == t;
      } else {
        assert r[n] == s[n - 1];
        if m == i {
          AtMostTotal(s[i], t);
          if n - 1 > i {
            AtMostThrough(t, s[i], s[n - 1]);
          }
        } else {
          assert r[m] == s[if m < i then m else m - 1];
        }
      }
    }
  }
}

/** Query strings: percent-encoding (RFC 3986 section 2.1) with '+' for a space, printing and parsing. */
module QueryCodec {
  import opened Wrappers
  import opened Bytes
  import opened Octets

  const SPACE: Byte := 32
  const PERCENT: Byte := 37
  const AMPERSAND: Byte := 38
  const PLUS: Byte := 43
  const SEMICOLON: Byte := 59
  const EQUALS: Byte := 61

  datatype Pair = Pair(key: Text, value: Text)

  predicate Unreserved(c: Byte) {
    48 <= c <= 57 || 65 <= c <= 90 || 97 <= c <= 122 || c == 45 || c == 46 || c == 95 || c == 126
  }

  function HexDigit(n: nat): Byte
    requires n < 16
  {
    if n < 10 then 48 + n else 55 + n
  }

  function Nibble(c: Byte): Option<nat> {
    if 48 <= c <= 57 then Some(c - 48)
    else if 65 <= c <= 70 then Some(c - 55)
    else if 97 <= c <= 102 then Some(c - 87)
    else None
  }

  function EscapeByte(c: Byte): Text {
    if Unreserved(c) then [c]
    else if c == SPACE then [PLUS]
    else [PERCENT, HexDigit(c / 16), HexDigit(c % 16)]
  }

  /** url.QueryEscape. */
  function Escape(t: Text): Text {
    if t == [] then [] else EscapeByte(t[0]) + Escape(t[1..])
  }

  function Put(c: Byte, rest: Option<Text>): Option<Text> {
    if rest.Some? then Some([c] + rest.value) else None
  }

  /** url.QueryUnescape. */
  function Unescape(s: Text): Option<Text> {
    if s == [] then Some([])
    else if s[0] == PERCENT then
      if |s| < 3 || Nibble(s[1]).None? || Nibble(s[2]).None? then None
      else Put(16 * Nibble(s[1]).value + Nibble(s[2]).value, Unescape(s[3..]))
    else Put(if s[0] == PLUS then SPACE else s[0], Unescape(s[1..]))
  }

  lemma UnescapeOne(c: Byte, rest: Text)
    ensures Unescape(EscapeByte(c) + rest) == Put(c, Unescape(rest))
  {
    var s := EscapeByte(c) + rest;
    if Unreserved(c) || c == SPACE {
      assert s[1..] == rest;
    } else {
      NibbleOfDigit(c / 16);
      NibbleOfDigit(c % 16);
      assert s[1] == HexDigit(c / 16) && s[2] == HexDigit(c % 16) && s[3..] == rest;
    }
  }

  lemma NibbleOfDigit(n: nat)
    requires n < 16
    ensures Nibble(HexDigit(n)) == Some(n)
  {
  }

  /** Unescaping undoes escaping, for every byte string. */
  lemma {:induction false} EscapeRoundTrip(t: Text)
    ensures Unescape(Escape(t)) == Some(t)
  {
    if t != [] {
      var c, rest := t[0], t[1..];
      calc {
        Unescape(Escape(t));
        Unescape(EscapeByte(c) + Escape(rest));
        { UnescapeOne(c, Escape(rest)); }
        Put(c, Unescape(Escape(rest)));
        { EscapeRoundTrip(rest); }
        Put(c, Some(rest));
        Some([c] + rest);
        { assert [c] + rest == t; }
        Some(t);
      }
    }
  }

  predicate Delimiter(c: Byte) {
    c == AMPERSAND || c == SEMICOLON || c == EQUALS
  }

  /** Escaped text never contains a delimiter. */
  lemma {:induction false} EscapeHidesDelimiters(t: Text)
    ensures forall i | 0 <= i < |Escape(t)| :: !Delimiter(Escape(t)[i])
  {
    if t != [] {
      EscapeHidesDelimiters(t[1..]);
      assert forall i | 0 <= i < |EscapeByte(t[0])| :: !Delimiter(EscapeByte(t[0])[i]);
    }
  }

  // ----- printing and parsing ------------------------------------------------

  function Piece(p: Pair): Text {
    Escape(p.key) + [EQUALS] + Escape(p.value)
  }

  function Print(ps: seq<Pair>): Text {
    if ps == [] then []
    else if |ps| == 1 then Piece(ps[0])
    else Piece(ps[0]) + [AMPERSAND] + Print(ps[1..])
  }

  /** The first place of c, or the length. */
  function IndexOf(s: Text, c: Byte): (i: nat)
    ensures i <= |s| && (i < |s| ==> s[i] == c) && forall k | 0 <= k < i :: s[k] != c
  {
    if s == [] || s[0] == c then 0 else IndexOf(s[1..], c) + 1
  }

  /** strings.Cut. */
  function Head(s: Text, c: Byte): Text {
    s[..IndexOf(s, c)]
  }

  function Tail(s: Text, c: Byte): (t: Text)
    ensures s != [] ==> |t| < |s|
  {
    if IndexOf(s, c) < |s| then s[IndexOf(s, c) + 1..] else []
  }

  /** One piece between ampersands: skipped when empty, when it has a semicolon, or when it does not unescape. */
  function ParsePiece(s: Text): seq<Pair> {
    if s == [] || IndexOf(s, SEMICOLON) < |s| then []
    else
      var key, value := Unescape(Head(s, EQUALS)), Unescape(Tail(s, EQUALS));
      if key.Some? && value.Some? then [Pair(key.value, value.value)] else []
  }

  /** url.ParseQuery, in the order of the pieces. */
  function Parse(s: Text): seq<Pair>
    decreases |s|
  {
    if s == [] then [] else ParsePiece(Head(s, AMPERSAND)) + Parse(Tail(s, AMPERSAND))
  }

  lemma CutAt(a: Text, c: Byte, b: Text)
    requires forall i | 0 <= i < |a| :: a[i] != c
    ensures Head(a + [c] + b, c) == a && Tail(a + [c] + b, c) == b
  {
    var s := a + [c] + b;
    assert s[|a|] == c;
    assert forall k | 0 <= k < |a| :: s[k] == a[k];
    assert IndexOf(s, c) == |a|;
  }

  lemma NothingToCut(a: Text, c: Byte)
    requires forall i | 0 <= i < |a| :: a[i] != c
    ensures IndexOf(a, c) == |a| && Head(a, c) == a && Tail(a, c) == []
  {
  }

  lemma PieceHides(p: Pair, c: Byte)
    requires c == AMPERSAND || c == SEMICOLON
    ensures forall i | 0 <= i < |Piece(p)| :: Piece(p)[i] != c
  {
    EscapeHidesDelimiters(p.key);
    EscapeHidesDelimiters(p.value);
  }

  lemma PieceParses(p: Pair)
    ensures ParsePiece(Piece(p)) == [p]
  {
    PieceHides(p, SEMICOLON);
    NothingToCut(Piece(p), SEMICOLON);
    EscapeHidesDelimiters(p.key);
    CutAt(Escape(p.key), EQUALS, Escape(p.value));
    EscapeRoundTrip(p.key);
    EscapeRoundTrip(p.value);
  }

  /** Parsing undoes printing, for every list of pairs. */
  lemma {:induction false} PrintRoundTrip(ps: seq<Pair>)
    ensures Parse(Print(ps)) == ps
  {
    if |ps| > 0 {
      PieceParses(ps[0]);
      PieceHides(ps[0], AMPERSAND);
      if |ps| == 1 {
        NothingToCut(Piece(ps[0]), AMPERSAND);
        assert Parse(Print(ps)) == [ps[0]] + Parse([]);
      } else {
        PrintRoundTrip(ps[1..]);
        CutAt(Piece(ps[0]), AMPERSAND, Print(ps[1..]));
        assert Parse(Print(ps)) == [ps[0]] + ps[1..];
      }
    }
  }

  lemma {:induction false} PrintOneMore(ps: seq<Pair>, p: Pair)
    ensures Print(ps + [p]) == (if ps == [] then [] else Print(ps) + [AMPERSAND]) + Piece(p)
  {
    if |ps| > 0 {
      assert (ps + [p])[1..] == ps[1..] + [p];
      PrintOneMore(ps[1..], p);
      if |ps| == 1 {
        assert Print(ps[1..] + [p]) == Piece(p);
      }
    }
  }
}

/** The codec told byte by byte. */
module QueryBytes {
  import opened Wrappers
  import opened Bytes
  import opened Octets
  import opened QueryCodec

  /** Letters, digits, '-', '.', '_' and '~' stand for themselves, '+' for a space, %XX in capitals for the rest. */
  lemma EscapeOnBytes(c: Byte, rest: Text)
    ensures Escape([]) == []
    ensures Escape([c] + rest)
         == (if 48 <= c <= 57 || 65 <= c <= 90 || 97 <= c <= 122 || c == 45 || c == 46 || c == 95 || c == 126 then [c]
             else if c == 32 then [43]
             else [37, if c / 16 < 10 then 48 + c / 16 else 55 + c / 16,
                   if c % 16 < 10 then 48 + c % 16 else 55 + c % 16])
            + Escape(rest)
  {
    assert ([c] + rest)[1..] == rest;
  }

  /** Outside percent signs: '+' is a space and other bytes are themselves. */
  lemma UnescapeOnBytes(c: Byte, rest: Text)
    requires c != 37
    ensures Unescape([]) == Some([])
    ensures Unescape([c] + rest)
         == if Unescape(rest).None? then None else Some([if c == 43 then 32 else c] + Unescape(rest).value)
  {
    assert ([c] + rest)[1..] == rest;
  }

  /** A percent sign and two hexadecimal digits, in either case, are one byte. */
  lemma UnescapeOnPercent(a: Byte, b: Byte, high: nat, low: nat, rest: Text)
    requires high < 16 && low < 16
    requires if high < 10 then a == 48 + high else a == 55 + high || a == 87 + high
    requires if low < 10 then b == 48 + low else b == 55 + low || b == 87 + low
    ensures Unescape([37, a, b] + rest)
         == if Unescape(rest).None? then None else Some([16 * high + low] + Unescape(rest).value)
  {
    assert ([37, a, b] + rest)[3..] == rest;
  }

  /** A percent sign without two hexadecimal digits after it spoils the text. */
  lemma UnescapeOnBadPercent(rest: Text)
    requires |rest| < 2
          || !(48 <= rest[0] <= 57 || 65 <= rest[0] <= 70 || 97 <= rest[0] <= 102)
          || !(48 <= rest[1] <= 57 || 65 <= rest[1] <= 70 || 97 <= rest[1] <= 102)
    ensures Unescape([37] + rest) == None
  {
    var s := [37] + rest;
    assert |rest| >= 2 ==> s[1] == rest[0] && s[2] == rest[1];
  }

  /** k=v pairs joined by ampersands. */
  lemma PrintOnBytes(p: Pair, ps: seq<Pair>)
    ensures Print([]) == [] && Print([p]) == Escape(p.key) + [61] + Escape(p.value)
    ensures ps != [] ==> Print([p] + ps) == Escape(p.key) + [61] + Escape(p.value) + [38] + Print(ps)
  {
    assert ([p] + ps)[1..] == ps;
  }

  /** The text up to the first ampersand is one piece, and what follows is parsed on its own. */
  lemma ParseOnBytes(a: Text, b: Text)
    requires 38 !in a
    ensures Parse([]) == [] && Parse(a) == ParsePiece(a) && Parse(a + [38] + b) == ParsePiece(a) + Parse(b)
  {
    NothingToCut(a, 38);
    CutAt(a, 38, b);
    assert Parse([]) == [];
  }

  /** A piece with a semicolon or a bad escape is dropped; the first '=' separates; without one the value is empty. */
  lemma PieceOnBytes(k: Text, v: Text)
    requires 61 !in k
    ensures 59 in k + [61] + v ==> ParsePiece(k + [61] + v) == []
    ensures 59 !in k + [61] + v ==>
              ParsePiece(k + [61] + v)
                == if Unescape(k).Some? && Unescape(v).Some? then [Pair(Unescape(k).value, Unescape(v).value)] else []
    ensures ParsePiece([]) == []
    ensures k != [] ==>
              ParsePiece(k) == if 59 !in k && Unescape(k).Some? then [Pair(Unescape(k).value, [])] else []
  {
    CutAt(k, 61, v);
    NothingToCut(k, 61);
    HasIff(k + [61] + v, 59);
    HasIff(k, 59);
    assert Unescape([]) == Some([]);
  }

  lemma HasIff(s: Text, c: Byte)
    ensures c in s <==> IndexOf(s, c) < |s|
  {
  }
}

/** Canonical URLs, on parsed URLs. */
module Canonical {
  import opened Bytes
  import opened Octets
  import opened QueryCodec

  /** The parts of a parsed URL that Canonical looks at or keeps. */
  datatype Url = Url(scheme: string, user: Text, host: Text, path: Text, rawQuery: Text, forceQuery: bool,
      fragment: Text)

  function LowerByte(c: Byte): Byte {
    if 65 <= c <= 90 then c + 32 else c
  }

  function Lower(t: Text): (r: Text)
    ensures |r| == |t|
  {
    seq(|t|, i requires 0 <= i < |t| => LowerByte(t[i]))
  }

  const PORT_80: Text := [58, 56, 48]
  const PORT_443: Text := [58, 52, 52, 51]

  predicate EndsWith(t: Text, suffix: Text) {
    |t| >= |suffix| && t[|t| - |suffix|..] == suffix
  }

  predicate HasDefaultPort(scheme: string, host: Text) {
    (scheme == "http" && EndsWith(host, PORT_80)) || (scheme == "https" && EndsWith(host, PORT_443))
  }

  /** Everything before the last colon. */
  function LastColon(t: Text): (i: int)
    ensures -1 <= i < |t| && (i >= 0 ==> t[i] == 58) && forall k | i < k < |t| :: t[k] != 58
  {
    if t == [] then -1 else if t[|t| - 1] == 58 then |t| - 1 else LastColon(t[..|t| - 1])
  }

  function WithoutPort(scheme: string, host: Text): Text {
    if HasDefaultPort(scheme, host) && LastColon(host) >= 0 then host[..LastColon(host)] else host
  }

  function Host(u: Url): Text {
    WithoutPort(u.scheme, Lower(u.host))
  }

  predicate InOrder(p: Pair, q: Pair) {
    if p.key == q.key then AtMost(p.value, q.value) else AtMost(p.key, q.key)
  }

  ghost predicate Ordered(ps: seq<Pair>) {
    forall i, j | 0 <= i < j < |ps| :: InOrder(ps[i], ps[j])
  }

  /** ps is the decoded query of raw in canonical order. */
  ghost predicate Arranges(raw: Text, ps: seq<Pair>) {
    Ordered(ps) && multiset(ps) == multiset(Parse(raw))
  }

  /** r is the canonical form of u. */
  ghost predicate Canonizes(u: Url, r: Url) {
    && r.scheme == u.scheme && r.user == u.user && r.forceQuery == u.forceQuery
    && r.host == Host(u)
    && r.path == (if u.path == [] then [47] else u.path)
    && r.fragment == []
    && exists ps :: Arranges(u.rawQuery, ps) && r.rawQuery == Print(ps)
  }

  // ----- the query, grouped, sorted and printed ------------------------------

  /** The values of one key among the first n pairs, in order. */
  function ValuesOf(ps: seq<Pair>, k: Text, n: nat): seq<Text>
    requires n <= |ps|
  {
    if n == 0 then [] else ValuesOf(ps, k, n - 1) + if ps[n - 1].key == k then [ps[n - 1].value] else []
  }

  type Values = map<Text, seq<Text>>

  ghost predicate Groups(q: Values, ps: seq<Pair>, n: nat)
    requires n <= |ps|
  {
    && (forall k | k in q :: q[k] == ValuesOf(ps, k, n) && q[k] != [])
    && (forall k | k !in q :: ValuesOf(ps, k, n) == [])
  }

  lemma GroupsOneMore(q: Values, q': Values, ps: seq<Pair>, i: nat)
    requires i < |ps| && Groups(q, ps, i)
    requires q' == q[ps[i].key := (if ps[i].key in q then q[ps[i].key] else []) + [ps[i].value]]
    ensures Groups(q', ps, i + 1)
  {
  }

  /** url.Values of a raw query. */
  method Query(raw: Text) returns (q: Values)
    ensures Groups(q, Parse(raw), |Parse(raw)|)
  {
    var ps := Parse(raw);
    q := map[];
    for i := 0 to |ps|
      invariant Groups(q, ps, i)
    {
      var p := ps[i];
      ghost var was := q;
      q := q[p.key := (if p.key in q then q[p.key] else []) + [p.value]];
      GroupsOneMore(was, q, ps, i);
    }
  }

  method Keys(q: Values) returns (keys: seq<Text>)
    ensures Rising(keys) && (forall k :: k in keys <==> k in q) && forall i, j | 0 <= i < j < |keys| ::
              keys[i] != keys[j]
  {
    var rest, listed: seq<Text> := q.Keys, [];
    while rest != {}
      invariant rest <= q.Keys && (forall k :: k in q <==> k in rest || k in listed)
                  && (forall k | k in listed :: k !in rest)
      invariant forall i, j | 0 <= i < j < |listed| :: listed[i] != listed[j]
      decreases |rest|
    {
      var k :| k in rest;
      listed, rest := listed + [k], rest - {k};
    }
    keys := SortStrings(listed);
    SameElements(keys, listed);
  }

  lemma {:induction false} OnceEach(s: seq<Text>, k: Text)
    requires forall i, j | 0 <= i < j < |s| :: s[i] != s[j]
    ensures multiset(s)[k] <= 1
  {
    if s != [] {
      OnceEach(s[1..], k);
      assert s == [s[0]] + s[1..];
      if s[0] == k {
        assert k !in s[1..];
      }
    }
  }

  lemma SameElements(a: seq<Text>, b: seq<Text>)
    requires multiset(a) == multiset(b) && forall i, j | 0 <= i < j < |b| :: b[i] != b[j]
    ensures (forall k :: k in a <==> k in b) && forall i, j | 0 <= i < j < |a| :: a[i] != a[j]
  {
    forall k
      ensures k in a <==> k in b
    {
      assert k in a <==> k in multiset(a);
      assert k in b <==> k in multiset(b);
    }
    forall i, j | 0 <= i < j < |a|
      ensures a[i] != a[j]
    {
      OnceEach(b, a[i]);
      var one, two := a[..i + 1], a[i + 1..];
      assert a == one + two;
      assert one[i] == a[i] && two[j - i - 1] == a[j];
      assert multiset(one)[a[i]] >= 1;
      assert a[j] in multiset(two);
    }
  }

  function Tagged(k: Text, vs: seq<Text>): (ps: seq<Pair>)
    ensures |ps| == |vs|
  {
    seq(|vs|, i requires 0 <= i < |vs| => Pair(k, vs[i]))
  }

  lemma {:induction false} TaggedCounts(k: Text, vs: seq<Text>, p: Pair)
    ensures multiset(Tagged(k, vs))[p] == if p.key == k then multiset(vs)[p.value] else 0
  {
    if vs != [] {
      var front, last := vs[..|vs| - 1], vs[|vs| - 1];
      TaggedCounts(k, front, p);
      assert vs == front + [last];
      assert Tagged(k, vs) == Tagged(k, front) + [Pair(k, last)];
    }
  }

  lemma CountSnoc<T>(s: seq<T>, x: T, y: T)
    ensures multiset(s + [x])[y] == multiset(s)[y] + if x == y then 1 else 0
  {
  }

  function CountOf(ps: seq<Pair>, p: Pair, n: nat): nat
    requires n <= |ps|
  {
    if n == 0 then 0 else CountOf(ps, p, n - 1) + if ps[n - 1] == p then 1 else 0
  }

  lemma {:induction false} PairsCount(ps: seq<Pair>, p: Pair, n: nat)
    requires n <= |ps|
    ensures multiset(ps[..n])[p] == CountOf(ps, p, n)
  {
    if n > 0 {
      PairsCount(ps, p, n - 1);
      CountSnoc(ps[..n - 1], ps[n - 1], p);
      assert ps[..n] == ps[..n - 1] + [ps[n - 1]];
    }
  }

  lemma {:induction false} ValuesCount(ps: seq<Pair>, p: Pair, n: nat)
    requires n <= |ps|
    ensures multiset(ValuesOf(ps, p.key, n))[p.value] == CountOf(ps, p, n)
  {
    if n > 0 {
      ValuesCount(ps, p, n - 1);
      if ps[n - 1].key == p.key {
        CountSnoc(ValuesOf(ps, p.key, n - 1), ps[n - 1].value, p.value);
      } else {
        assert ValuesOf(ps, p.key, n) == ValuesOf(ps, p.key, n - 1);
      }
    }
  }

  /** out lists, key by key, the pairs of the first i keys. */
  ghost predicate ListsFirst(out: seq<Pair>, q: Values, keys: seq<Text>, i: nat)
    requires i <= |keys|
  {
    && Ordered(out)
    && (forall n | 0 <= n < |out| :: out[n].key in keys[..i])
    && forall p: Pair :: multiset(out)[p] == if p.key in keys[..i] && p.key in q then multiset(q[p.key])[p.value] else 0
  }

  lemma NextKey(out: seq<Pair>, q: Values, keys: seq<Text>, i: nat, vs: seq<Text>)
    requires i < |keys| && ListsFirst(out, q, keys, i) && keys[i] in q
    requires Rising(keys) && forall m, n | 0 <= m < n < |keys| :: keys[m] != keys[n]
    requires Rising(vs) && multiset(vs) == multiset(q[keys[i]])
    ensures ListsFirst(out + Tagged(keys[i], vs), q, keys, i + 1)
  {
    var k, more := keys[i], out + Tagged(keys[i], vs);
    assert keys[..i + 1] == keys[..i] + [k];
    assert forall n | 0 <= n < i :: keys[..i][n] == keys[n];
    forall n | 0 <= n < |more|
      ensures more[n].key in keys[..i + 1]
    {
      if n < |out| {
        assert more[n] == out[n] && out[n].key in keys[..i];
      }
    }
    forall m, n | 0 <= m < n < |more|
      ensures InOrder(more[m], more[n])
    {
      if n >= |out| && m < |out| {
        assert out[m].key in keys[..i];
        var l :| 0 <= l < i && keys[l] == out[m].key;
      }
    }
    forall p: Pair
      ensures multiset(more)[p] == if p.key in keys[..i + 1] && p.key in q then multiset(q[p.key])[p.value] else 0
    {
      TaggedCounts(k, vs, p);
    }
  }

  lemma ListedAsOften(raw: Text, q: Values, keys: seq<Text>, out: seq<Pair>, p: Pair)
    requires Groups(q, Parse(raw), |Parse(raw)|) && forall k :: k in keys <==> k in q
    requires ListsFirst(out, q, keys, |keys|)
    ensures multiset(out)[p] == multiset(Parse(raw))[p]
  {
    var ps := Parse(raw);
    ValuesCount(ps, p, |ps|);
    PairsCount(ps, p, |ps|);
    assert keys[..|keys|] == keys && ps[..|ps|] == ps;
  }

  lemma ListingArranges(raw: Text, q: Values, keys: seq<Text>, out: seq<Pair>)
    requires Groups(q, Parse(raw), |Parse(raw)|) && forall k :: k in keys <==> k in q
    requires ListsFirst(out, q, keys, |keys|)
    ensures Arranges(raw, out)
  {
    forall p: Pair
      ensures multiset(out)[p] == multiset(Parse(raw))[p]
    {
      ListedAsOften(raw, q, keys, out, p);
    }
    assert multiset(out) == multiset(Parse(raw));
  }

  /** The inner loop: the pairs of one key. */
  method PrintKey(k: Text, vs: seq<Text>, sofar: Text, ghost before: seq<Pair>) returns (b: Text)
    requires sofar == Print(before)
    ensures b == Print(before + Tagged(k, vs))
  {
    b := sofar;
    ghost var ps := before;
    for j := 0 to |vs|
      invariant ps == before + Tagged(k, vs[..j]) && b == Print(ps)
    {
      b := PrintPair(k, vs[j], b, ps);
      TaggedOneMore(before, k, vs, j);
      ps := ps + [Pair(k, vs[j])];
    }
    assert vs[..|vs|] == vs;
  }

  method PrintPair(k: Text, v: Text, sofar: Text, ghost before: seq<Pair>) returns (b: Text)
    requires sofar == Print(before)
    ensures b == Print(before + [Pair(k, v)])
  {
    PrintOneMore(before, Pair(k, v));
    PrintIsEmpty(before);
    b := sofar;
    if |b| > 0 {
      b := b + [AMPERSAND];
    }
    b := b + Escape(k) + [EQUALS] + Escape(v);
    assert b == sofar + (if before == [] then [] else [AMPERSAND]) + Piece(Pair(k, v));
  }

  lemma TaggedOneMore(before: seq<Pair>, k: Text, vs: seq<Text>, j: nat)
    requires j < |vs|
    ensures before + Tagged(k, vs[..j]) + [Pair(k, vs[j])] == before + Tagged(k, vs[..j + 1])
  {
    assert Tagged(k, vs[..j + 1]) == Tagged(k, vs[..j]) + [Pair(k, vs[j])];
  }

  /** The nested loops over sorted keys and sorted values. */
  method SortQuery(raw: Text) returns (b: Text)
    ensures exists ps :: Arranges(raw, ps) && b == Print(ps)
  {
    var q := Query(raw);
    var keys := Keys(q);
    b := [];
    ghost var ps: seq<Pair> := [];
    for i := 0 to |keys|
      invariant ListsFirst(ps, q, keys, i) && b == Print(ps)
    {
      var k := keys[i];
      assert k in keys;
      var vs := SortStrings(q[k]);
      NextKey(ps, q, keys, i, vs);
      b := PrintKey(k, vs, b, ps);
      ps := ps + Tagged(k, vs);
    }
    ListingArranges(raw, q, keys, ps);
    assert Arranges(raw, ps) && b == Print(ps);
  }

  lemma PrintIsEmpty(ps: seq<Pair>)
    ensures Print(ps) == [] <==> ps == []
  {
  }

  method Canonicalize(u: Url) returns (r: Url)
    ensures Canonizes(u, r)
  {
    r := u.(host := Lower(u.host), fragment := []);
    if HasDefaultPort(r.scheme, r.host) {
      var i := LastColon(r.host);
      if i >= 0 {
        r := r.(host := r.host[..i]);
      }
    }
    if r.rawQuery != [] {
      var b := SortQuery(r.rawQuery);
      r := r.(rawQuery := b);
    } else {
      assert Arranges(u.rawQuery, []) && r.rawQuery == Print([]);
    }
    if r.path == [] {
      r := r.(path := [47]);
    }
  }

  // ----- main results --------------------------------------------------------

  lemma InOrderBoth(p: Pair, q: Pair)
    requires InOrder(p, q) && InOrder(q, p)
    ensures p == q
  {
    if p.key == q.key {
      AtMostBoth(p.value, q.value);
    } else {
      AtMostBoth(p.key, q.key);
    }
  }

  /** The canonical order leaves no choice. */
  lemma {:induction false} OneArrangement(a: seq<Pair>, b: seq<Pair>)
    requires Ordered(a) && Ordered(b) && multiset(a) == multiset(b)
    ensures a == b
  {
    assert |a| == |multiset(a)| == |multiset(b)| == |b|;
    if a != [] {
      SameFirst(a, b);
      RestIsLess(a);
      RestIsLess(b);
      OneArrangement(a[1..], b[1..]);
      assert a == [a[0]] + a[1..] && b == [b[0]] + b[1..];
    }
  }

  lemma RestIsLess(a: seq<Pair>)
    requires Ordered(a) && a != []
    ensures Ordered(a[1..]) && multiset(a[1..]) == multiset(a) - multiset{a[0]}
  {
    assert a == [a[0]] + a[1..];
  }

  lemma SameFirst(a: seq<Pair>, b: seq<Pair>)
    requires Ordered(a) && Ordered(b) && multiset(a) == multiset(b) && a != [] && b != []
    ensures a[0] == b[0]
  {
    assert a[0] in multiset(b) && b[0] in multiset(a);
    var i :| 0 <= i < |b| && b[i] == a[0];
    var j :| 0 <= j < |a| && a[j] == b[0];
    if i > 0 && j > 0 {
      InOrderBoth(a[0], b[0]);
    }
  }

  /**
   * Canonical strings agree exactly on URLs that agree up to host case, one default
   * port, an empty path, the fragment, and the order of decoded query pairs.
   */
  lemma SameFormIff(u: Url, v: Url, r: Url, s: Url)
    requires Canonizes(u, r) && Canonizes(v, s)
    ensures r == s
       <==> && u.scheme == v.scheme && u.user == v.user && u.forceQuery == v.forceQuery
            && Host(u) == Host(v)
            && (u.path == v.path || {u.path, v.path} == {[], [47]})
            && multiset(Parse(u.rawQuery)) == multiset(Parse(v.rawQuery))
  {
    var ps :| Arranges(u.rawQuery, ps) && r.rawQuery == Print(ps);
    var qs :| Arranges(v.rawQuery, qs) && s.rawQuery == Print(qs);
    PrintRoundTrip(ps);
    PrintRoundTrip(qs);
    if multiset(ps) == multiset(qs) {
      OneArrangement(ps, qs);
    }
    PathsAgree(u.path, v.path);
  }

  lemma PathsAgree(p: Text, q: Text)
    ensures (if p == [] then [47] else p) == (if q == [] then [47] else q) <==> p == q || {p, q} == {[], [47]}
  {
    var none: Text, slash: Text := [], [47];
    if {p, q} == {none, slash} {
      assert p in {none, slash} && q in {none, slash};
      assert none in {p, q} && slash in {p, q};
    }
    if p == none && q == slash {
      assert {p, q} == {none, slash};
    }
    if q == none && p == slash {
      assert {p, q} == {none, slash};
    }
  }

  lemma LowerTwice(t: Text)
    ensures Lower(Lower(t)) == Lower(t)
  {
  }

  lemma WithoutPortStaysLower(scheme: string, t: Text)
    ensures Lower(WithoutPort(scheme, Lower(t))) == WithoutPort(scheme, Lower(t))
  {
    var l, h := Lower(t), WithoutPort(scheme, Lower(t));
    LowerTwice(t);
    assert forall i | 0 <= i < |h| :: h[i] == l[i] && LowerByte(l[i]) == Lower(l)[i];
  }

  lemma StrippingShortens(scheme: string, h: Text)
    ensures WithoutPort(scheme, h) == h <==> !HasDefaultPort(scheme, h)
  {
    if HasDefaultPort(scheme, h) {
      var at := if scheme == "http" then |h| - 3 else |h| - 4;
      assert h[at] == h[at..][0] == 58;
    }
  }

  /** The host ends in its scheme's default port twice. */
  predicate EndsInPortTwice(scheme: string, host: Text) {
    || (scheme == "http" && EndsWith(host, PORT_80 + PORT_80))
    || (scheme == "https" && EndsWith(host, PORT_443 + PORT_443))
  }

  predicate IsPort(port: Text) {
    |port| > 0 && port[0] == 58 && forall i | 0 < i < |port| :: 48 <= port[i] <= 57
  }

  /** Digits and colons have no case. */
  lemma LowerKeepsPorts(t: Text, port: Text)
    requires forall i | 0 <= i < |port| :: 48 <= port[i] <= 58
    ensures EndsWith(Lower(t), port) <==> EndsWith(t, port)
  {
    if |t| >= |port| {
      var at := |t| - |port|;
      assert forall i | 0 <= i < |port| :: Lower(t)[at..][i] == LowerByte(t[at..][i]);
    }
  }

  /** A port suffix starts at the last colon. */
  lemma LastColonOfPort(h: Text, port: Text)
    requires IsPort(port) && EndsWith(h, port)
    ensures LastColon(h) == |h| - |port|
  {
    var at := |h| - |port|;
    assert forall i | 0 <= i < |port| :: h[at + i] == h[at..][i] == port[i];
    assert h[at] == 58;
    forall k | at < k < |h|
      ensures h[k] != 58
    {
      assert h[k] == port[k - at];
    }
  }

  lemma EndsTwice(h: Text, port: Text)
    requires EndsWith(h, port)
    ensures EndsWith(h[..|h| - |port|], port) <==> EndsWith(h, port + port)
  {
    var at := |h| - |port|;
    assert h == h[..at] + port;
    if |h| >= 2 * |port| {
      var start := |h| - 2 * |port|;
      assert h[start..] == h[..at][start..] + port;
      assert (port + port)[..|port|] == port && h[start..][..|port|] == h[..at][start..];
    }
  }

  lemma SuffixOfDouble(h: Text, port: Text)
    requires EndsWith(h, port + port)
    ensures EndsWith(h, port)
  {
    assert h[|h| - |port|..] == h[|h| - 2 * |port|..][|port|..] == port;
  }

  /** Another default port is left after stripping exactly when the host came with it twice. */
  lemma PortIsLeftIff(u: Url)
    ensures HasDefaultPort(u.scheme, Host(u)) <==> EndsInPortTwice(u.scheme, u.host)
  {
    if u.scheme == "http" {
      OnePortIsLeftIff(u, PORT_80);
    } else if u.scheme == "https" {
      OnePortIsLeftIff(u, PORT_443);
    }
  }

  lemma OnePortIsLeftIff(u: Url, port: Text)
    requires (u.scheme == "http" && port == PORT_80) || (u.scheme == "https" && port == PORT_443)
    ensures EndsWith(Host(u), port) <==> EndsWith(u.host, port + port)
  {
    var l := Lower(u.host);
    assert IsPort(port);
    LowerKeepsPorts(u.host, port + port);
    if EndsWith(l, port) {
      LastColonOfPort(l, port);
      EndsTwice(l, port);
    } else if EndsWith(l, port + port) {
      SuffixOfDouble(l, port);
    }
  }

  /**
   * A canonical form is its own canonical form exactly when the URL did not come
   * with its default port twice: only one is dropped.
   */
  lemma StableIff(u: Url, r: Url)
    requires Canonizes(u, r)
    ensures Canonizes(r, r) <==> !EndsInPortTwice(u.scheme, u.host)
  {
    var ps :| Arranges(u.rawQuery, ps) && r.rawQuery == Print(ps);
    PrintRoundTrip(ps);
    assert Arranges(r.rawQuery, ps);
    WithoutPortStaysLower(u.scheme, u.host);
    StrippingShortens(u.scheme, Host(u));
    PortIsLeftIff(u);
  }

  /** The host a:80:80 loses one of its two ports. */
  lemma DoublePortHost(u: Url)
    requires u.scheme == "http" && u.host == [97] + PORT_80 + PORT_80
    ensures Host(u) == [97] + PORT_80
  {
    var h := u.host;
    assert Lower(h) == h;
    assert h[4..] == PORT_80;
    LastColonOfPort(h, PORT_80);
    assert h[..4] == [97] + PORT_80;
  }

  /** http://a:80:80/ is not stable: its form http://a:80/ has the form http://a/. */
  lemma DoublePortIsNotStable(r: Url)
    requires Canonizes(Url("http", [], [97] + PORT_80 + PORT_80, [47], [], false, []), r)
    ensures r.host == [97] + PORT_80 && !Canonizes(r, r)
  {
    var u := Url("http", [], [97] + PORT_80 + PORT_80, [47], [], false, []);
    DoublePortHost(u);
    assert u.host[1..] == PORT_80 + PORT_80;
    StableIff(u, r);
  }

  // ----- on the bytes --------------------------------------------------------

  /** A canonical host holds no capital letter. */
  lemma HostHasNoCapitals(u: Url, r: Url, i: nat)
    requires Canonizes(u, r) && i < |r.host|
    ensures !(65 <= r.host[i] <= 90)
  {
    assert r.host[i] == Lower(u.host)[i];
  }

  lemma SameLower(a: Text, b: Text)
    requires |a| == |b|
    requires forall i | 0 <= i < |a| ::
               || a[i] == b[i]
               || (65 <= a[i] <= 90 && b[i] == a[i] + 32)
               || (65 <= b[i] <= 90 && a[i] == b[i] + 32)
    ensures Lower(a) == Lower(b)
  {
    forall i | 0 <= i < |a|
      ensures Lower(a)[i] == Lower(b)[i]
    {
      assert a[i] == b[i] || (65 <= a[i] <= 90 && b[i] == a[i] + 32) || (65 <= b[i] <= 90 && a[i] == b[i] + 32);
    }
  }

  /** Hosts that differ in the case of their letters have one form. */
  lemma CaseDoesNotMatter(u: Url, v: Url, r: Url, s: Url)
    requires Canonizes(u, r) && Canonizes(v, s) && v == u.(host := v.host) && |u.host| == |v.host|
    requires forall i | 0 <= i < |u.host| ::
               || u.host[i] == v.host[i]
               || (65 <= u.host[i] <= 90 && v.host[i] == u.host[i] + 32)
               || (65 <= v.host[i] <= 90 && u.host[i] == v.host[i] + 32)
    ensures r == s
  {
    SameLower(u.host, v.host);
    SameFormIff(u, v, r, s);
  }

  lemma LowerKeeps(t: Text)
    requires forall i | 0 <= i < |t| :: !(65 <= t[i] <= 90)
    ensures Lower(t) == t
  {
  }

  /** A host without capitals and without its scheme's default port is kept. */
  lemma PlainHostIsKept(u: Url, r: Url)
    requires Canonizes(u, r) && forall i | 0 <= i < |u.host| :: !(65 <= u.host[i] <= 90)
    requires u.scheme == "http" ==> |u.host| < 3 || u.host[|u.host| - 3..] != [58, 56, 48]
    requires u.scheme == "https" ==> |u.host| < 4 || u.host[|u.host| - 4..] != [58, 52, 52, 51]
    ensures r.host == u.host
  {
    LowerKeeps(u.host);
  }

  lemma LowerKeepsWithPort(name: Text, port: Text)
    requires forall i | 0 <= i < |name| :: !(65 <= name[i] <= 90)
    requires IsPort(port)
    ensures Lower(name + port) == name + port
  {
    var h := name + port;
    forall i | 0 <= i < |h|
      ensures !(65 <= h[i] <= 90)
    {
      assert h[i] == if i < |name| then name[i] else port[i - |name|];
    }
    LowerKeeps(h);
  }

  lemma PortsArePorts()
    ensures IsPort(PORT_80) && IsPort(PORT_443)
  {
  }

  lemma EndsWithPort(name: Text, port: Text)
    ensures EndsWith(name + port, port) && (name + port)[..|name|] == name
  {
    assert (name + port)[|name|..] == port;
  }

  lemma PortGoes(scheme: string, name: Text, port: Text)
    requires (scheme == "http" && port == PORT_80) || (scheme == "https" && port == PORT_443)
    requires forall i | 0 <= i < |name| :: !(65 <= name[i] <= 90)
    ensures WithoutPort(scheme, Lower(name + port)) == name
  {
    var h := name + port;
    PortsArePorts();
    LowerKeepsWithPort(name, port);
    EndsWithPort(name, port);
    LastColonOfPort(h, port);
    assert HasDefaultPort(scheme, h) && LastColon(h) == |name|;
  }

  /** ":80" after a host is dropped for http and ":443" for https. */
  lemma DefaultPortIsDropped(u: Url, r: Url, name: Text)
    requires Canonizes(u, r) && forall i | 0 <= i < |name| :: !(65 <= name[i] <= 90)
    requires (u.scheme == "http" && u.host == name + [58, 56, 48])
          || (u.scheme == "https" && u.host == name + [58, 52, 52, 51])
    ensures r.host == name
  {
    if u.scheme == "http" {
      PortGoes(u.scheme, name, PORT_80);
    } else {
      PortGoes(u.scheme, name, PORT_443);
    }
  }

  /** The rest of the URL: kept, but for an empty path and the fragment. */
  lemma OtherPartsOnBytes(u: Url, r: Url)
    requires Canonizes(u, r)
    ensures r.scheme == u.scheme && r.user == u.user && r.forceQuery == u.forceQuery && r.fragment == []
    ensures r.path == if |u.path| == 0 then [47] else u.path
  {
  }

  /** The query of a canonical form prints the pairs of the URL's own query, */
  lemma QueryPairs(u: Url, r: Url)
    requires Canonizes(u, r)
    ensures multiset(Parse(r.rawQuery)) == multiset(Parse(u.rawQuery)) && Print(Parse(r.rawQuery)) == r.rawQuery
  {
    var ps :| Arranges(u.rawQuery, ps) && r.rawQuery == Print(ps);
    PrintRoundTrip(ps);
  }

  /** by key and then by value, in byte order. */
  lemma QueryOnBytes(u: Url, r: Url, i: nat, j: nat, a: Text, b: Text)
    requires Canonizes(u, r) && i < j < |Parse(r.rawQuery)|
    requires var p, q := Parse(r.rawQuery)[i], Parse(r.rawQuery)[j];
      a == (if p.key == q.key then p.value else p.key) && b == (if p.key == q.key then q.value else q.key)
    ensures a <= b || exists n :: 0 <= n < |a| && n < |b| && a[..n] == b[..n] && a[n] < b[n]
  {
    var ps :| Arranges(u.rawQuery, ps) && r.rawQuery == Print(ps);
    PrintRoundTrip(ps);
    assert InOrder(ps[i], ps[j]);
    AtMostIff(a, b);
  }
}

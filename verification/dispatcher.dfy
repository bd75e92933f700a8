/** Triggers, and the cache in front of their table. */
module TriggerModel {
  import opened Keyset

  datatype Event = LakeObjectInserted | BlobProduced

  /** when_filter: empty, not parsable, or its two fields. */
  datatype Filter = NoFilter | BadFilter | Filter(contentTypePrefix: string, sourceProcessor: string)

  datatype Trigger = Trigger(id: nat, event: Event, filter: Filter, kind: string, enabled: bool)

  type Triggers = map<nat, Trigger>

  datatype Payload = Payload(lake: nat, contentType: string, sourceProcessor: string)

  datatype Job = Job(lake: nat, kind: string)

  function LowerChar(c: char): char {
    if 'A' <= c <= 'Z' then c - 'A' + 'a' else c
  }

  function LowerCase(s: string): string {
    seq(|s|, i requires 0 <= i < |s| => LowerChar(s[i]))
  }

  predicate Matches(t: Trigger, p: Payload) {
    match t.filter
    case NoFilter => true
    case BadFilter => false
    case Filter(prefix, source) =>
      && (prefix != "" ==> LowerCase(prefix) <= LowerCase(p.contentType))
      && (source != "" ==> source == p.sourceProcessor)
  }

  predicate Keyed(table: Triggers) {
    forall k | k in table :: table[k].id == k
  }

  /** ORDER BY id ASC. */
  function Listing(table: Triggers): (l: seq<Trigger>)
    ensures |l| == |Sorted(table.Keys)|
  {
    var ids := Sorted(table.Keys);
    SortedLists(table.Keys);
    assert forall i | 0 <= i < |ids| :: ids[i] in ids;
    seq(|ids|, i requires 0 <= i < |ids| => table[ids[i]])
  }

  /** The enabled triggers of one event among the first n. */
  function Select(l: seq<Trigger>, e: Event, n: nat): seq<Trigger>
    requires n <= |l|
  {
    if n == 0 then []
    else Select(l, e, n - 1) + if l[n - 1].enabled && l[n - 1].event == e then [l[n - 1]] else []
  }

  function ForEvent(table: Triggers, e: Event): seq<Trigger> {
    Select(Listing(table), e, |Listing(table)|)
  }

  /** One job per matching trigger among the first n. */
  function Jobs(ts: seq<Trigger>, p: Payload, n: nat): seq<Job>
    requires n <= |ts|
  {
    if n == 0 then []
    else Jobs(ts, p, n - 1) + if Matches(ts[n - 1], p) then [Job(p.lake, ts[n - 1].kind)] else []
  }

  /** What an uncached dispatcher would enqueue: one job per enabled, matching trigger of the table, in id order. */
  function Uncached(l: seq<Trigger>, e: Event, p: Payload, n: nat): seq<Job>
    requires n <= |l|
  {
    if n == 0 then []
    else
      var t := l[n - 1];
      Uncached(l, e, p, n - 1) + if t.enabled && t.event == e && Matches(t, p) then [Job(p.lake, t.kind)] else []
  }

  lemma JobsSnoc(ts: seq<Trigger>, t: Trigger, p: Payload)
    ensures Jobs(ts + [t], p, |ts| + 1) == Jobs(ts, p, |ts|) + if Matches(t, p) then [Job(p.lake, t.kind)] else []
  {
    JobsPrefix(ts, t, p, |ts|);
  }

  lemma {:induction false} JobsPrefix(ts: seq<Trigger>, t: Trigger, p: Payload, n: nat)
    requires n <= |ts|
    ensures Jobs(ts + [t], p, n) == Jobs(ts, p, n)
  {
    if n > 0 {
      JobsPrefix(ts, t, p, n - 1);
    }
  }

  /** Selecting for the cache first and filtering later is the one uncached filter. */
  lemma {:induction false} SelectThenMatch(l: seq<Trigger>, e: Event, p: Payload, n: nat)
    requires n <= |l|
    ensures Jobs(Select(l, e, n), p, |Select(l, e, n)|) == Uncached(l, e, p, n)
  {
    if n > 0 {
      SelectThenMatch(l, e, p, n - 1);
      if l[n - 1].enabled && l[n - 1].event == e {
        JobsSnoc(Select(l, e, n - 1), l[n - 1], p);
      } else {
        assert Select(l, e, n) == Select(l, e, n - 1);
      }
    }
  }

  // ----- the firing rule on the columns --------------------------------------

  /** Letters that strings.ToLower takes to the same one. */
  lemma SameLetterIff(c: char, d: char)
    ensures LowerChar(c) == LowerChar(d)
       <==> || c == d
            || ('A' <= c <= 'Z' && d as int == c as int + 32)
            || ('A' <= d <= 'Z' && c as int == d as int + 32)
  {
  }

  lemma PrefixIff(prefix: string, s: string)
    ensures LowerCase(prefix) <= LowerCase(s)
       <==> |prefix| <= |s| && forall i | 0 <= i < |prefix| :: LowerChar(prefix[i]) == LowerChar(s[i])
  {
    var a, b := LowerCase(prefix), LowerCase(s);
    assert |a| == |prefix| && |b| == |s|;
    if |a| <= |b| {
      assert a <= b <==> forall i | 0 <= i < |a| :: a[i] == b[i];
      assert forall i | 0 <= i < |a| :: a[i] == LowerChar(prefix[i]) && b[i] == LowerChar(s[i]);
    }
  }

  /**
   * A filter on its fields: an empty one admits everything and an unreadable one
   * nothing; else the content type begins with the prefix, letters compared without
   * case, and the source processor is the one asked for, where either is given.
   */
  lemma MatchesOnFields(t: Trigger, p: Payload)
    ensures t.filter == NoFilter ==> Matches(t, p)
    ensures t.filter == BadFilter ==> !Matches(t, p)
    ensures t.filter.Filter? ==>
              var prefix, source := t.filter.contentTypePrefix, t.filter.sourceProcessor;
              Matches(t, p)
              <==> && |prefix| <= |p.contentType|
                   && (forall i | 0 <= i < |prefix| ::
                         || prefix[i] == p.contentType[i]
                         || ('A' <= prefix[i] <= 'Z' && p.contentType[i] as int == prefix[i] as int + 32)
                         || ('A' <= p.contentType[i] <= 'Z' && prefix[i] as int == p.contentType[i] as int + 32))
                   && (source == "" || source == p.sourceProcessor)
  {
    if t.filter.Filter? {
      var prefix := t.filter.contentTypePrefix;
      PrefixIff(prefix, p.contentType);
      if |prefix| <= |p.contentType| {
        forall i | 0 <= i < |prefix|
          ensures LowerChar(prefix[i]) == LowerChar(p.contentType[i])
             <==> || prefix[i] == p.contentType[i]
                  || ('A' <= prefix[i] <= 'Z' && p.contentType[i] as int == prefix[i] as int + 32)
                  || ('A' <= p.contentType[i] <= 'Z' && prefix[i] as int == p.contentType[i] as int + 32)
        {
          SameLetterIff(prefix[i], p.contentType[i]);
        }
      }
    }
  }

  /** What the loop enqueues among the first n triggers; fails tells which enqueue errors. */
  function Sent(ts: seq<Trigger>, p: Payload, fails: nat -> bool, n: nat): seq<Job>
    requires n <= |ts|
  {
    if n == 0 then []
    else
      Sent(ts, p, fails, n - 1)
      + if Matches(ts[n - 1], p) && !fails(n - 1) then [Job(p.lake, ts[n - 1].kind)] else []
  }

  lemma OnePlaceMore(front: seq<nat>, n: nat)
    requires Ascending(front) && forall i: nat | i in front :: i < n
    ensures Ascending(front + [n]) && forall i: nat :: i in front + [n] <==> i in front || i == n
  {
    assert forall i | 0 <= i < |front| :: front[i] in front;
  }

  /** By position: a job for each matching trigger whose enqueue did not fail, in order. */
  lemma {:induction false} SentByPosition(ts: seq<Trigger>, p: Payload, fails: nat -> bool, n: nat)
      returns (at: seq<nat>)
    requires n <= |ts|
    ensures Ascending(at)
    ensures forall i: nat :: i in at <==> i < n && Matches(ts[i], p) && !fails(i)
    ensures |Sent(ts, p, fails, n)| == |at|
    ensures forall i | 0 <= i < |at| :: at[i] < |ts| && Sent(ts, p, fails, n)[i] == Job(p.lake, ts[at[i]].kind)
  {
    at := [];
    if n > 0 {
      var front := SentByPosition(ts, p, fails, n - 1);
      at := front;
      if Matches(ts[n - 1], p) && !fails(n - 1) {
        at := front + [n - 1];
        OnePlaceMore(front, n - 1);
      }
    }
  }

  /** The first n triggers of a listing: which of them fire, by position, and what they enqueue. */
  lemma {:induction false} UncachedByPosition(l: seq<Trigger>, e: Event, p: Payload, n: nat) returns (at: seq<nat>)
    requires n <= |l|
    ensures Ascending(at)
    ensures forall i: nat :: i in at <==> i < n && l[i].enabled && l[i].event == e && Matches(l[i], p)
    ensures |Uncached(l, e, p, n)| == |at|
    ensures forall i | 0 <= i < |at| :: at[i] < |l| && Uncached(l, e, p, n)[i] == Job(p.lake, l[at[i]].kind)
  {
    at := [];
    if n > 0 {
      var front := UncachedByPosition(l, e, p, n - 1);
      at := front;
      if l[n - 1].enabled && l[n - 1].event == e && Matches(l[n - 1], p) {
        at := front + [n - 1];
        OnePlaceMore(front, n - 1);
      }
    }
  }

  /**
   * What an uncached dispatcher enqueues, told from the table: one job for each enabled
   * trigger of the event whose filter admits the payload, by ascending id.
   */
  lemma FiresInIdOrder(table: Triggers, e: Event, p: Payload) returns (ids: seq<nat>)
    ensures Ascending(ids)
    ensures forall k :: k in ids <==> k in table && table[k].enabled && table[k].event == e && Matches(table[k], p)
    ensures var jobs := Uncached(Listing(table), e, p, |Listing(table)|);
      |jobs| == |ids| && forall i | 0 <= i < |ids| :: ids[i] in table && jobs[i] == Job(p.lake, table[ids[i]].kind)
  {
    var l, all := Listing(table), Sorted(table.Keys);
    ListingIs(table, l, all);
    var at := UncachedByPosition(l, e, p, |l|);
    ids := Chosen(all, at);
    forall k
      ensures k in ids <==> k in table && table[k].enabled && table[k].event == e && Matches(table[k], p)
    {
      if k in all {
        var n: nat :| n < |all| && all[n] == k;
        assert l[n] == table[k] && (k in ids <==> n in at);
      }
    }
  }

  lemma ListingIs(table: Triggers, l: seq<Trigger>, all: seq<nat>)
    requires l == Listing(table) && all == Sorted(table.Keys)
    ensures |l| == |all| && Ascending(all) && (forall k :: k in all <==> k in table)
    ensures forall i | 0 <= i < |l| :: all[i] in table && l[i] == table[all[i]]
  {
    SortedLists(table.Keys);
    assert forall i | 0 <= i < |all| :: all[i] in all;
  }

  /** The elements at the given places. */
  lemma Chosen(all: seq<nat>, at: seq<nat>) returns (ids: seq<nat>)
    requires Ascending(all) && Ascending(at) && forall i | 0 <= i < |at| :: at[i] < |all|
    ensures |ids| == |at| && Ascending(ids) && forall i | 0 <= i < |at| :: ids[i] == all[at[i]]
    ensures forall k | k in ids :: k in all
    ensures forall n: nat | n < |all| :: all[n] in ids <==> n in at
  {
    ids := seq(|at|, i requires 0 <= i < |at| => all[at[i]]);
    forall n: nat | n < |all|
      ensures all[n] in ids <==> n in at
    {
      if n in at {
        var i :| 0 <= i < |at| && at[i] == n;
        assert ids[i] == all[n];
      }
      if all[n] in ids {
        var i :| 0 <= i < |ids| && ids[i] == all[n];
        assert at[i] == n;
      }
    }
  }

  // ----- the cache -----------------------------------------------------------

  type Cache = map<Event, seq<Trigger>>

  function Entry(c: Cache, e: Event): seq<Trigger> {
    if e in c then c[e] else []
  }

  /** c groups the first n triggers by event; an event without triggers has no entry. */
  ghost predicate Groups(c: Cache, l: seq<Trigger>, n: nat)
    requires n <= |l|
  {
    forall e: Event :: Entry(c, e) == Select(l, e, n) && (e in c <==> Select(l, e, n) != [])
  }

  lemma GroupsOneMore(c: Cache, l: seq<Trigger>, i: nat)
    requires i < |l| && Groups(c, l, i)
    ensures var t := l[i]; Groups(if t.enabled then c[t.event := Entry(c, t.event) + [t]] else c, l, i + 1)
  {
    var t := l[i];
    var c' := if t.enabled then c[t.event := Entry(c, t.event) + [t]] else c;
    forall e: Event
      ensures Entry(c', e) == Select(l, e, i + 1) && (e in c' <==> Select(l, e, i + 1) != [])
    {
      assert Entry(c, e) == Select(l, e, i) && (e in c <==> Select(l, e, i) != []);
    }
  }

  ghost predicate Caches(c: Cache, table: Triggers) {
    Groups(c, Listing(table), |Listing(table)|)
  }
}

module TriggerDispatch {
  import opened Wrappers
  import opened Clock
  import opened TriggerModel

  const CACHE_TTL: Time := 5 * SECOND

  /** expires is None until the first refresh. */
  predicate Expired(expires: Option<Time>, now: Time) {
    expires.None? || now > expires.value
  }

  /**
   * What a lookup finds: a fresh entry, else what the cache holds if it is fresh by then,
   * else the listing's triggers.
   */
  function LookedUp(cache: Cache, expires: Option<Time>, e: Event, peekedAt: Time, checkedAt: Time,
      listed: Option<seq<Trigger>>)
    : seq<Trigger>
  {
    if !Expired(expires, peekedAt) && e in cache then cache[e]
    else if !Expired(expires, checkedAt) then Entry(cache, e)
    else if listed.Some? then Select(listed.value, e, |listed.value|)
    else []
  }

  class TriggerDispatcher {
    var cache: Cache
    var expires: Option<Time>
    var queue: seq<Job>

    constructor ()
      ensures cache == map[] && expires == None && queue == []
    {
      cache, expires, queue := map[], None, [];
    }

    /** The section under the read lock. */
    method Peek(e: Event, now: Time) returns (r: Option<seq<Trigger>>)
      ensures r == if !Expired(expires, now) && e in cache then Some(cache[e]) else None
    {
      if !Expired(expires, now) && e in cache {
        return Some(cache[e]);
      }
      r := None;
    }

    method Group(all: seq<Trigger>) returns (grouped: Cache)
      ensures Groups(grouped, all, |all|)
    {
      grouped := map[];
      for i := 0 to |all|
        invariant Groups(grouped, all, i)
      {
        GroupsOneMore(grouped, all, i);
        var t := all[i];
        if t.enabled {
          grouped := grouped[t.event := (if t.event in grouped then grouped[t.event] else []) + [t]];
        }
      }
    }

    /** The section under the write lock; listed is what List returned, or None when it failed. */
    method Refill(e: Event, checkedAt: Time, listed: Option<seq<Trigger>>, storedAt: Time)
        returns (r: Option<seq<Trigger>>)
      modifies this`cache, this`expires
      ensures !Expired(old(expires), checkedAt) ==>
                r == Some(Entry(old(cache), e)) && cache == old(cache) && expires == old(expires)
      ensures Expired(old(expires), checkedAt) && listed.None? ==>
                r == None && cache == old(cache) && expires == old(expires)
      ensures Expired(old(expires), checkedAt) && listed.Some? ==>
                && r == Some(Select(listed.value, e, |listed.value|))
                && Groups(cache, listed.value, |listed.value|) && expires == Some(storedAt + CACHE_TTL)
    {
      if Expired(expires, checkedAt) {
        if listed.None? {
          return None;
        }
        cache := Group(listed.value);
        expires := Some(storedAt + CACHE_TTL);
      }
      r := Some(if e in cache then cache[e] else []);
    }

    /** Peek, and on a miss the refill; the clock and the listing are given. */
    method Lookup(e: Event, peekedAt: Time, checkedAt: Time, listed: Option<seq<Trigger>>, storedAt: Time)
        returns (ts: seq<Trigger>)
      modifies this`cache, this`expires
      ensures ts == LookedUp(old(cache), old(expires), e, peekedAt, checkedAt, listed)
      ensures var hit := old(expires).Some? && peekedAt <= old(expires).value && e in old(cache);
        var refreshed := old(expires).Some? && checkedAt <= old(expires).value;
        && (hit || (refreshed && e in old(cache)) ==> e in old(cache) && ts == old(cache)[e])
        && (!hit && refreshed && e !in old(cache) ==> ts == [])
        && (!hit && !refreshed && listed.None? ==> ts == [] && cache == old(cache))
        && (!hit && !refreshed && listed.Some? ==>
              ts == Select(listed.value, e, |listed.value|) && expires == Some(storedAt + 5_000_000_000))
      ensures cache != old(cache) ==>
                listed.Some? && Groups(cache, listed.value, |listed.value|) && expires == Some(storedAt + CACHE_TTL)
    {
      var hit := Peek(e, peekedAt);
      if hit.Some? {
        return hit.value;
      }
      var refilled := Refill(e, checkedAt, listed, storedAt);
      ts := if refilled.Some? then refilled.value else [];
    }

    /**
     * The jobs of the triggers that the lookup finds, less those whose enqueue fails;
     * after a refresh that did not fail they are the uncached filter of the listing.
     */
    method Fire(e: Event, p: Payload, peekedAt: Time, checkedAt: Time, listed: Option<seq<Trigger>>, storedAt: Time,
        fails: nat -> bool)
      requires peekedAt <= checkedAt
      modifies this
      ensures var ts := LookedUp(old(cache), old(expires), e, peekedAt, checkedAt, listed);
        && (exists done :: queue == old(queue) + done && Thinned(done, Jobs(ts, p, |ts|)))
        && ((forall i: nat :: !fails(i)) ==> queue == old(queue) + Jobs(ts, p, |ts|))
      ensures var ts := LookedUp(old(cache), old(expires), e, peekedAt, checkedAt, listed);
        queue == old(queue) + Sent(ts, p, fails, |ts|)
      ensures Expired(old(expires), peekedAt) && listed.Some? && (forall i: nat :: !fails(i)) ==>
                queue == old(queue) + Uncached(listed.value, e, p, |listed.value|)
      ensures Expired(old(expires), peekedAt) && listed.None? ==> queue == old(queue)
    {
      var ts := Lookup(e, peekedAt, checkedAt, listed, storedAt);
      EnqueueAll(ts, p, fails);
      if listed.Some? {
        SelectThenMatch(listed.value, e, p, |listed.value|);
      }
    }

    /** The loop of Fire over the triggers that lookup returned; enqueue errors are swallowed. */
    method EnqueueAll(ts: seq<Trigger>, p: Payload, fails: nat -> bool)
      modifies this`queue
      ensures queue == old(queue) + Sent(ts, p, fails, |ts|)
      ensures exists done :: queue == old(queue) + done && Thinned(done, Jobs(ts, p, |ts|))
      ensures (forall i: nat :: !fails(i)) ==> queue == old(queue) + Jobs(ts, p, |ts|)
    {
      for i := 0 to |ts|
        invariant queue == old(queue) + Sent(ts, p, fails, i)
      {
        if Matches(ts[i], p) && !fails(i) {
          queue := queue + [Job(p.lake, ts[i].kind)];
        }
      }
      SentIsThinned(ts, p, fails, |ts|);
    }
  }

  lemma {:induction false} SentIsThinned(ts: seq<Trigger>, p: Payload, fails: nat -> bool, n: nat)
    requires n <= |ts|
    ensures Thinned(Sent(ts, p, fails, n), Jobs(ts, p, n))
    ensures (forall i: nat :: !fails(i)) ==> Sent(ts, p, fails, n) == Jobs(ts, p, n)
  {
    if n > 0 {
      SentIsThinned(ts, p, fails, n - 1);
      if Matches(ts[n - 1], p) {
        ThinnedGrows(Sent(ts, p, fails, n - 1), Jobs(ts, p, n - 1), Job(p.lake, ts[n - 1].kind), !fails(n - 1));
      }
      assert Sent(ts, p, fails, n - 1) + [] == Sent(ts, p, fails, n - 1);
      assert Jobs(ts, p, n - 1) + [] == Jobs(ts, p, n - 1);
    }
  }

  /** done is all with some jobs left out, in the same order. */
  ghost predicate Thinned(done: seq<Job>, all: seq<Job>) {
    if all == [] then done == []
    else
      || Thinned(done, all[..|all| - 1])
      || (done != [] && done[|done| - 1] == all[|all| - 1] && Thinned(done[..|done| - 1], all[..|all| - 1]))
  }

  lemma ThinnedGrows(done: seq<Job>, all: seq<Job>, job: Job, kept: bool)
    requires Thinned(done, all)
    ensures Thinned(if kept then done + [job] else done, all + [job])
  {
    assert (all + [job])[..|all|] == all;
    assert (done + [job])[..|done|] == done;
  }
}

/** Concurrent calls, the two locks, and edits of the table by others. */
module TriggerRuns {
  import opened Wrappers
  import opened Clock
  import opened Keyset
  import opened TriggerModel
  import opened TriggerDispatch

  /** Where one lookup stands. A listing remembers which version it read and when. */
  datatype Phase =
    | Called(event: Event)
    | Missed(event: Event)
    | Refreshing(event: Event)
    | Listed(event: Event, version: nat, at: Time)
    | Got(event: Event, triggers: seq<Trigger>, version: nat, at: Time, gotAt: Time)
    | Errored(event: Event)

  datatype Version = Version(since: Time, table: Triggers)

  /** The cache with its expiry, and the version and moment its listing came from. */
  datatype Fill = Fill(cache: Cache, expires: Time, version: nat, at: Time)

  datatype World = World(now: Time, versions: seq<Version>, fill: Option<Fill>, lock: Option<nat>,
      calls: map<nat, Phase>)

  datatype Step =
    | Edit(table: Triggers)
    | Call(id: nat, event: Event)
    | PeekStep(id: nat)
    | Enter(id: nat)
    | ListStep(id: nat)
    | ListFails(id: nat)
    | Store(id: nat, cache: Cache)

  datatype Run = Start(world: World) | Then(before: Run, step: Step, at: Time)

  function Expiry(w: World): Option<Time> {
    if w.fill.None? then None else Some(w.fill.value.expires)
  }

  /** A refresh stores at most lag after its listing was read. */
  ghost predicate Enabled(w: World, s: Step, at: Time, lag: Time) {
    && at >= w.now
    && match s
       case Edit(table) => Keyed(table)
       case Call(id, _) => id !in w.calls
       case PeekStep(id) => w.lock.None? && id in w.calls && w.calls[id].Called?
       case Enter(id) => w.lock.None? && id in w.calls && w.calls[id].Missed?
       case ListStep(id) => w.lock == Some(id) && id in w.calls && w.calls[id].Refreshing?
       case ListFails(id) => w.lock == Some(id) && id in w.calls && w.calls[id].Refreshing?
       case Store(id, cache) =>
         && w.lock == Some(id) && id in w.calls && w.calls[id].Listed? && w.calls[id].version < |w.versions|
         && Caches(cache, w.versions[w.calls[id].version].table)
         && at <= w.calls[id].at + lag
  }

  function Hit(w: World, e: Event, at: Time): Phase
    requires w.fill.Some?
  {
    Got(e, Entry(w.fill.value.cache, e), w.fill.value.version, w.fill.value.at, at)
  }

  function Next(w: World, s: Step, at: Time): World {
    var w := w.(now := at);
    match s
    case Edit(table) => w.(versions := w.versions + [Version(at, table)])
    case Call(id, e) => w.(calls := w.calls[id := Called(e)])
    case PeekStep(id) =>
      if id !in w.calls then w
      else
        var e := w.calls[id].event;
        var hit := !Expired(Expiry(w), at) && e in w.fill.value.cache;
        w.(calls := w.calls[id := if hit then Hit(w, e, at) else Missed(e)])
    case Enter(id) =>
      if id !in w.calls then w
      else
        var e := w.calls[id].event;
        if Expired(Expiry(w), at) then w.(lock := Some(id), calls := w.calls[id := Refreshing(e)])
        else w.(calls := w.calls[id := Hit(w, e, at)])
    case ListStep(id) =>
      if id !in w.calls || w.versions == [] then w
      else w.(calls := w.calls[id := Listed(w.calls[id].event, |w.versions| - 1, at)])
    case ListFails(id) =>
      if id !in w.calls then w else w.(lock := None, calls := w.calls[id := Errored(w.calls[id].event)])
    case Store(id, cache) =>
      if id !in w.calls || !w.calls[id].Listed? then w
      else
        var c := w.calls[id];
        w.(fill := Some(Fill(cache, at + CACHE_TTL, c.version, c.at)), lock := None,
           calls := w.calls[id := Got(c.event, Entry(cache, c.event), c.version, c.at, at)])
  }

  ghost function Last(run: Run): World {
    match run
    case Start(w) => w
    case Then(before, s, at) => Next(Last(before), s, at)
  }

  ghost predicate Legal(run: Run, lag: Time) {
    match run
    case Start(w) =>
      && |w.versions| == 1 && w.versions[0].since <= w.now && Keyed(w.versions[0].table)
      && w.fill.None? && w.lock.None? && w.calls == map[]
    case Then(before, s, at) => Legal(before, lag) && Enabled(Last(before), s, at, lag)
  }

  /** Version v was the table at the moment `at`. */
  predicate InForce(versions: seq<Version>, v: nat, at: Time) {
    && v < |versions| && versions[v].since <= at
    && (v + 1 < |versions| ==> at <= versions[v + 1].since)
  }

  ghost predicate GoodFill(w: World, f: Fill, lag: Time) {
    && InForce(w.versions, f.version, f.at) && f.at <= w.now
    && Caches(f.cache, w.versions[f.version].table)
    && f.expires <= f.at + lag + CACHE_TTL
  }

  ghost predicate GoodCall(w: World, c: Phase, lag: Time) {
    match c
    case Listed(_, v, at) => InForce(w.versions, v, at) && at <= w.now
    case Got(e, ts, v, at, gotAt) =>
      && InForce(w.versions, v, at) && at <= gotAt <= w.now
      && ts == ForEvent(w.versions[v].table, e)
      && gotAt - at <= CACHE_TTL + lag
    case _ => true
  }

  ghost predicate Inv(w: World, lag: Time) {
    && w.versions != []
    && (forall i, j | 0 <= i < j < |w.versions| :: w.versions[i].since <= w.versions[j].since)
    && w.versions[|w.versions| - 1].since <= w.now
    && (w.fill.Some? ==> GoodFill(w, w.fill.value, lag))
    && (forall id | id in w.calls :: GoodCall(w, w.calls[id], lag))
  }

  /** An edit only adds a version that starts now. */
  lemma EditKeeps(w: World, table: Triggers, at: Time, lag: Time)
    requires Inv(w, lag) && at >= w.now
    ensures Inv(Next(w, Edit(table), at), lag)
  {
    var w' := Next(w, Edit(table), at);
    forall id | id in w'.calls
      ensures GoodCall(w', w'.calls[id], lag)
    {
      assert GoodCall(w, w.calls[id], lag);
    }
  }

  lemma TimePasses(w: World, at: Time, lag: Time)
    requires Inv(w, lag) && at >= w.now
    ensures Inv(w.(now := at), lag)
  {
    var w' := w.(now := at);
    forall id | id in w'.calls
      ensures GoodCall(w', w'.calls[id], lag)
    {
      assert GoodCall(w, w.calls[id], lag);
    }
  }

  /** What a step does to its own call is good; no other call moves. */
  lemma OwnCallIsGood(w: World, s: Step, at: Time, lag: Time)
    requires Inv(w, lag) && Enabled(w, s, at, lag) && !s.Edit? && lag >= 0
    ensures var w' := Next(w, s, at);
      && s.id in w'.calls && w'.calls == w.calls[s.id := w'.calls[s.id]]
      && w'.versions == w.versions && w'.now == at
      && GoodCall(w', w'.calls[s.id], lag)
  {
    TimePasses(w, at, lag);
  }

  lemma StepKeepsInv(w: World, s: Step, at: Time, lag: Time)
    requires Inv(w, lag) && Enabled(w, s, at, lag) && lag >= 0
    ensures Inv(Next(w, s, at), lag)
  {
    if s.Edit? {
      EditKeeps(w, s.table, at, lag);
    } else {
      var w' := Next(w, s, at);
      TimePasses(w, at, lag);
      OwnCallIsGood(w, s, at, lag);
      forall id | id in w'.calls
        ensures GoodCall(w', w'.calls[id], lag)
      {
        assert id == s.id || GoodCall(w.(now := at), w.calls[id], lag);
      }
    }
  }

  lemma {:induction false} EveryRunIsFresh(run: Run, lag: Time)
    requires Legal(run, lag) && lag >= 0
    ensures Inv(Last(run), lag)
  {
    if run.Then? {
      EveryRunIsFresh(run.before, lag);
      StepKeepsInv(Last(run.before), run.step, run.at, lag);
    }
  }

  /**
   * Every call whose refresh did not fail sees the table of one moment, at most
   * cacheTTL plus the time a refresh takes before it returned, and enqueues what an
   * uncached pass over that table would.
   */
  lemma CallsSeeASnapshot(run: Run, w: World, lag: Time, id: nat, p: Payload)
    requires Legal(run, lag) && lag >= 0 && w == Last(run)
    requires id in w.calls && w.calls[id].Got?
    ensures var c := w.calls[id];
      && InForce(w.versions, c.version, c.at) && c.gotAt - (CACHE_TTL + lag) <= c.at <= c.gotAt
      && (var table := w.versions[c.version].table;
          Jobs(c.triggers, p, |c.triggers|) == Uncached(Listing(table), c.event, p, |Listing(table)|))
  {
    EveryRunIsFresh(run, lag);
    var c := w.calls[id];
    assert GoodCall(w, c, lag);
    SelectThenMatch(Listing(w.versions[c.version].table), c.event, p, |Listing(w.versions[c.version].table)|);
  }

  lemma OnlyTheLastIsInForce(versions: seq<Version>, v: nat, at: Time)
    requires forall i, j | 0 <= i < j < |versions| :: versions[i].since <= versions[j].since
    requires InForce(versions, v, at) && at > versions[|versions| - 1].since
    ensures v == |versions| - 1
  {
  }

  /** An edit is in effect for every call that returns later than cacheTTL, and a refresh, after it. */
  lemma EditsTakeEffect(run: Run, w: World, lag: Time, id: nat)
    requires Legal(run, lag) && lag >= 0 && w == Last(run)
    requires id in w.calls && w.calls[id].Got?
    requires w.versions != [] && w.calls[id].gotAt > w.versions[|w.versions| - 1].since + CACHE_TTL + lag
    ensures w.calls[id].triggers == ForEvent(w.versions[|w.versions| - 1].table, w.calls[id].event)
  {
    EveryRunIsFresh(run, lag);
    var c := w.calls[id];
    assert GoodCall(w, c, lag);
    OnlyTheLastIsInForce(w.versions, c.version, c.at);
  }

  lemma Extend(run: Run, w: World, s: Step, at: Time, lag: Time) returns (more: Run, w': World)
    requires Legal(run, lag) && w == Last(run) && Enabled(w, s, at, lag)
    ensures Legal(more, lag) && w' == Last(more) == Next(w, s, at)
  {
    more, w' := Then(run, s, at), Next(w, s, at);
  }

  /** A call that finds no cache and takes the lock. */
  lemma FirstCall(lag: Time) returns (run: Run, w: World)
    ensures Legal(run, lag) && w == Last(run)
    ensures w == World(0, [Version(0, map[])], None, Some(0), map[0 := Refreshing(LakeObjectInserted)])
  {
    var e := LakeObjectInserted;
    w := World(0, [Version(0, map[])], None, None, map[]);
    run := Start(w);
    run, w := Extend(run, w, Call(0, e), 0, lag);
    run, w := Extend(run, w, PeekStep(0), 0, lag);
    run, w := Extend(run, w, Enter(0), 0, lag);
  }

  /** The first refresh of all, of an empty table, read at 0 and stored at lag. */
  lemma FirstRefresh(lag: Time) returns (run: Run, w: World)
    requires lag >= 0
    ensures Legal(run, lag) && w == Last(run)
    ensures w.now == lag && w.lock.None? && w.calls.Keys == {0} && |w.versions| == 1
    ensures w.fill == Some(Fill(map[], lag + CACHE_TTL, 0, 0))
  {
    run, w := FirstListing(lag);
    EmptyCache();
    run, w := Extend(run, w, Store(0, map[]), lag, lag);
  }

  lemma FirstListing(lag: Time) returns (run: Run, w: World)
    ensures Legal(run, lag) && w == Last(run)
    ensures w == World(0, [Version(0, map[])], None, Some(0), map[0 := Listed(LakeObjectInserted, 0, 0)])
  {
    run, w := FirstCall(lag);
    run, w := Extend(run, w, ListStep(0), 0, lag);
  }

  lemma EmptyCache()
    ensures Caches(map[], map[])
  {
    var table: Triggers := map[];
    assert table.Keys == {};
    assert Sorted({}) == [];
  }

  /** cacheTTL alone bounds no snapshot's age: one that took lag to store is served until cacheTTL after that. */
  lemma SnapshotsOutliveTheTtl(lag: Time)
    requires lag >= 0
    ensures exists run, id :: Legal(run, lag) && id in Last(run).calls && Last(run).calls[id].Got?
              && Last(run).calls[id].gotAt - Last(run).calls[id].at == CACHE_TTL + lag
  {
    var run, w := FirstRefresh(lag);
    run, w := SecondCall(run, w, lag);
    assert w.calls[1].Got? && w.calls[1].gotAt - w.calls[1].at == CACHE_TTL + lag;
  }

  /** A second call at the last moment the first refresh is fresh. */
  lemma SecondCall(run: Run, w: World, lag: Time) returns (more: Run, w': World)
    requires Legal(run, lag) && w == Last(run) && w.now == lag && w.lock.None? && 1 !in w.calls
    requires w.fill == Some(Fill(map[], lag + CACHE_TTL, 0, 0))
    ensures Legal(more, lag) && w' == Last(more) && w'.versions == w.versions && 1 in w'.calls
    ensures w'.calls[1] == Got(LakeObjectInserted, [], 0, 0, lag + CACHE_TTL)
  {
    more, w' := SecondPeek(run, w, lag);
    more, w' := Extend(more, w', Enter(1), lag + CACHE_TTL, lag);
  }

  lemma SecondPeek(run: Run, w: World, lag: Time) returns (more: Run, w': World)
    requires Legal(run, lag) && w == Last(run) && w.now == lag && w.lock.None? && 1 !in w.calls
    requires w.fill == Some(Fill(map[], lag + CACHE_TTL, 0, 0))
    ensures Legal(more, lag) && w' == Last(more) && w'.versions == w.versions && w'.fill == w.fill && w'.lock.None?
    ensures w'.now == lag + CACHE_TTL && 1 in w'.calls && w'.calls[1] == Missed(LakeObjectInserted)
  {
    more, w' := Extend(run, w, Call(1, LakeObjectInserted), lag + CACHE_TTL, lag);
    more, w' := Extend(more, w', PeekStep(1), lag + CACHE_TTL, lag);
  }

  // ----- exactly when an edit is in effect -----------------------------------

  /** A call that returns more than bound after the last edit follows the table as edited. */
  ghost predicate FollowsEdits(w: World, id: nat, bound: Time)
    requires id in w.calls
  {
    var c := w.calls[id];
    c.Got? && w.versions != [] && c.gotAt > w.versions[|w.versions| - 1].since + bound ==>
      c.triggers == ForEvent(w.versions[|w.versions| - 1].table, c.event)
  }

  /** In every run, edits take effect within bound. */
  ghost predicate EditsWithin(bound: Time, lag: Time) {
    forall run, id | Legal(run, lag) && id in Last(run).calls :: FollowsEdits(Last(run), id, bound)
  }

  lemma BoundIsEnough(run: Run, w: World, id: nat, bound: Time, lag: Time)
    requires Legal(run, lag) && lag >= 0 && w == Last(run) && id in w.calls && bound >= CACHE_TTL + lag
    ensures FollowsEdits(w, id, bound)
  {
    if w.calls[id].Got? && w.versions != [] && w.calls[id].gotAt > w.versions[|w.versions| - 1].since + bound {
      EditsTakeEffect(run, w, lag, id);
    }
  }

  /** Edits take effect within cacheTTL plus the time a refresh takes, and within no less. */
  lemma EditsWithinIff(bound: Time, lag: Time)
    requires lag >= 0
    ensures EditsWithin(bound, lag) <==> bound >= CACHE_TTL + lag
  {
    if bound >= CACHE_TTL + lag {
      forall run, id | Legal(run, lag) && id in Last(run).calls
        ensures FollowsEdits(Last(run), id, bound)
      {
        BoundIsEnough(run, Last(run), id, bound, lag);
      }
    } else {
      var run := MissedEdit(bound, lag);
      assert Legal(run, lag) && 1 in Last(run).calls;
    }
  }

  /** So they take effect within cacheTTL exactly when a refresh takes no time at all. */
  lemma EditsWithinTtlIff(lag: Time)
    requires lag >= 0
    ensures EditsWithin(CACHE_TTL, lag) <==> lag == 0
    ensures CACHE_TTL == 5_000_000_000
  {
    EditsWithinIff(CACHE_TTL, lag);
  }

  /** A call served to the last from a refresh that an edit overtook between its listing and its store. */
  lemma MissedEdit(bound: Time, lag: Time) returns (run: Run)
    requires lag >= 0 && bound < CACHE_TTL + lag
    ensures Legal(run, lag) && 1 in Last(run).calls && !FollowsEdits(Last(run), 1, bound)
  {
    var t := Trigger(0, LakeObjectInserted, NoFilter, "", true);
    var w: World;
    run, w := OvertakenRefresh(t, lag);
    run, w := SecondCall(run, w, lag);
    OneTrigger(t);
  }

  lemma OvertakenRefresh(t: Trigger, lag: Time) returns (run: Run, w: World)
    requires lag >= 0 && t.id == 0
    ensures Legal(run, lag) && w == Last(run) && w.now == lag && w.lock.None? && 1 !in w.calls
    ensures w.versions == [Version(0, map[]), Version(0, map[0 := t])]
    ensures w.fill == Some(Fill(map[], lag + CACHE_TTL, 0, 0))
  {
    run, w := OvertakenListing(t, lag);
    EmptyCache();
    run, w := Extend(run, w, Store(0, map[]), lag, lag);
  }

  lemma OvertakenListing(t: Trigger, lag: Time) returns (run: Run, w: World)
    requires t.id == 0
    ensures Legal(run, lag) && w == Last(run)
    ensures w == World(0, [Version(0, map[]), Version(0, map[0 := t])], None, Some(0),
                  map[0 := Listed(LakeObjectInserted, 0, 0)])
  {
    run, w := FirstListing(lag);
    run, w := Extend(run, w, Edit(map[0 := t]), 0, lag);
  }

  lemma OneTrigger(t: Trigger)
    requires t.id == 0 && t.enabled
    ensures ForEvent(map[0 := t], t.event) == [t]
  {
    var table: Triggers := map[0 := t];
    assert table.Keys == {0};
    SortedLists({0});
    assert 0 in Sorted({0}) && |Sorted({0})| == 1;
    assert Listing(table) == [t];
    assert Select([t], t.event, 0) == [];
  }
}

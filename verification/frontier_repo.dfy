/** FrontierRepo: the queue operations as they update the two tables in place. */
module FrontierRepository {
  import opened Wrappers
  import opened Clock
  import opened LeaseTable
  import opened FrontierModel
  import opened Scheduler
  import opened Finite

  datatype LeasedJob = LeasedJob(hash: Hash, token: Token<Hash>, expires: Time, attempts: int)

  class FrontierRepo {
    var pages: Pages
    var domains: Domains

    constructor ()
      ensures pages == map[] && domains == map[]
    {
      pages, domains := map[], map[];
    }

    method Enqueue(j: Job, now: Time) returns (inserted: bool)
      modifies this
      ensures pages == Inserting(old(pages), j, now) && domains == old(domains)
      ensures inserted <==> j.hash !in old(pages)
      ensures inserted ==>
                var max := if j.maxAttempts == 0 then 5 else j.maxAttempts;
                pages == old(pages)[j.hash := Row(Core(Queued, None, None, None, 0),
                                                  Page(j.domain, j.priority, max, None, now))]
      ensures !inserted ==> pages == old(pages)
    {
      inserted := j.hash !in pages;
      if inserted {
        var max := j.maxAttempts;
        if max == 0 {
          max := 5;
        }
        pages := pages[j.hash := Row(Unleased(Queued, 0), Page(j.domain, j.priority, max, None, now))];
      }
    }

    /** One transaction; duplicates, also inside the batch, are skipped. */
    method EnqueueMany(jobs: seq<Job>, now: Time) returns (inserted: nat)
      modifies this
      ensures domains == old(domains)
      ensures pages == InsertingAll(old(pages), jobs, now)
      ensures inserted == |pages| - |old(pages)|
    {
      inserted := 0;
      for i := 0 to |jobs|
        invariant domains == old(domains)
        invariant pages == InsertingAll(old(pages), jobs[..i], now)
        invariant inserted == |pages| - |old(pages)|
      {
        assert jobs[..i + 1][..i] == jobs[..i];
        var created := Enqueue(jobs[i], now);
        if created {
          inserted := inserted + 1;
        }
      }
      assert jobs[..|jobs|] == jobs;
    }

    /**
     * One write transaction: the pick query, then a guarded UPDATE per pick and
     * one touch per domain. now is read before the transaction begins, dbNow is
     * the engine's own clock inside it.
     */
    method Reserve(worker: int, caps: seq<string>, batch: int, ttl: Time, now: Time, dbNow: Time)
      returns (leased: seq<LeasedJob>)
      modifies this
      ensures batch <= 0 ==> leased == [] && pages == old(pages) && domains == old(domains)
      ensures batch > 0 ==> exists picks ::
                && Picked(old(pages), old(domains), caps, batch, now, dbNow, picks)
                && Reserved(old(pages), old(domains), picks, worker, now + ttl, now, pages, domains, leased)
    {
      leased := [];
      if batch <= 0 {
        return;
      }
      var expires := now + ttl;
      var picks := PickQuery(pages, domains, caps, batch, now, dbNow);
      PicksAreLeasable(pages, domains, caps, batch, now, dbNow, picks);
      leased := LeaseEach(picks, worker, expires, now);
    }

    /** UPDATE crawl_frontier SET status = 'leased' ... WHERE url_hash = ? AND status = 'queued' */
    method LeaseOne(h: Hash, worker: int, expires: Time) returns (affected: bool)
      requires h in pages
      modifies this`pages
      ensures affected <==> old(pages)[h].core.status == Queued
      ensures pages == if affected then old(pages)[h := LeasedRow(old(pages)[h], h, worker, expires)] else old(pages)
    {
      affected := pages[h].core.status == Queued;
      if affected {
        var c := pages[h].core;
        var core := Core(Leased, Some(worker), Some(Token(h, worker, Unix(expires))), Some(expires), c.attempts + 1);
        pages := pages[h := Row(core, pages[h].info)];
      }
    }

    /** UPDATE domains SET last_request_at = ? WHERE id = ? */
    method Touch(id: nat, now: Time)
      requires id in domains
      modifies this`domains
      ensures domains == old(domains)[id := old(domains)[id].(lastRequest := Some(now))]
    {
      domains := domains[id := domains[id].(lastRequest := Some(now))];
    }

    /**
     * One turn of the loop over the picks: the guarded UPDATE, one touch per domain, and
     * the grant if the row was queued.
     */
    method LeasePick(h: Hash, worker: int, expires: Time, now: Time, touched: set<nat>)
      returns (seen: set<nat>, job: Option<LeasedJob>)
      requires h in pages && pages[h].info.domain in domains
      modifies this
      ensures old(pages)[h].core.status != Queued ==>
                pages == old(pages) && domains == old(domains) && seen == touched && job == None
      ensures old(pages)[h].core.status == Queued ==>
                var id := old(pages)[h].info.domain;
                && pages == old(pages)[h := LeasedRow(old(pages)[h], h, worker, expires)]
                && domains == (if id in touched then old(domains)
                               else old(domains)[id := old(domains)[id].(lastRequest := Some(now))])
                && seen == touched + {id} && job == Some(GrantOf(old(pages), h, worker, expires))
    {
      seen, job := touched, None;
      var id := pages[h].info.domain;
      var affected := LeaseOne(h, worker, expires);
      if affected {
        if id !in touched {
          Touch(id, now);
          seen := touched + {id};
        }
        job := Some(LeasedJob(h, TokenFor(h, worker, expires), expires, pages[h].core.attempts));
      }
    }

    /** The loop over the picks. */
    method LeaseEach(picks: seq<Hash>, worker: int, expires: Time, now: Time) returns (leased: seq<LeasedJob>)
      requires LeasableAll(pages, domains, picks)
      modifies this
      ensures Reserved(old(pages), old(domains), picks, worker, expires, now, pages, domains, leased)
    {
      ghost var rows, hosts := pages, domains;
      var touched: set<nat> := {};
      leased := [];
      for i := 0 to |picks|
        invariant pages == LeasingFirst(rows, picks, i, worker, expires)
        invariant domains == Touching(hosts, touched, now)
        invariant touched == DomainsOfFirst(rows, picks, i)
        invariant |leased| == i
        invariant forall n | 0 <= n < i :: leased[n] == GrantOf(rows, picks[n], worker, expires)
      {
        LeasingAt(rows, picks, i, worker, expires, picks[i]);
        TouchingOneMore(hosts, touched, rows[picks[i]].info.domain, now);
        var job;
        touched, job := LeasePick(picks[i], worker, expires, now, touched);
        if job.Some? {
          leased := leased + [job.value];
        }
      }
    }

    method Heartbeat(h: Hash, token: Token<Hash>, extend: Time, now: Time) returns (r: Result<Time, string>)
      modifies this`pages
      ensures pages == Beating(old(pages), h, token, now + extend)
      ensures r.Ok? <==>
                h in old(pages) && old(pages)[h].core.status == Leased && old(pages)[h].core.token == Some(token)
      ensures r.Ok? ==>
                && r.value == now + extend
                && pages == old(pages)[h := old(pages)[h].(core :=
                     old(pages)[h].core.(expiresAt := Some(now + extend)))]
      ensures r.Err? ==> pages == old(pages)
    {
      var newExpiry := now + extend;
      if h !in pages || !HeldWith(pages[h].core, token) {
        return Err("heartbeat: lease not held");
      }
      pages := pages[h := pages[h].(core := pages[h].core.(expiresAt := Some(newExpiry)))];
      r := Ok(newExpiry);
    }

    method Complete(h: Hash, token: Token<Hash>) returns (ok: bool)
      modifies this`pages
      ensures pages == Completing(old(pages), h, token)
      ensures ok <==>
                h in old(pages) && old(pages)[h].core.status == Leased && old(pages)[h].core.token == Some(token)
      ensures ok ==>
                pages == old(pages)[h := Row(Core(Done, None, None, None, old(pages)[h].core.attempts),
                                             old(pages)[h].info)]
      ensures !ok ==> pages == old(pages)
    {
      ok := h in pages && HeldWith(pages[h].core, token);
      if ok {
        pages := pages[h := pages[h].(core := Unleased(Done, pages[h].core.attempts))];
      }
    }

    method Fail(h: Hash, token: Token<Hash>, retryable: bool, backoff: Time, now: Time) returns (ok: bool)
      modifies this`pages
      ensures pages == Failing(old(pages), h, token, retryable, now + backoff)
      ensures ok <==> h in old(pages) && old(pages)[h].core.token == Some(token)
      ensures ok ==>
                var r := old(pages)[h];
                var again := retryable && r.core.attempts < r.info.maxAttempts;
                pages == old(pages)[h := Row(
                  Core(if again then Queued else Dead, None, None, None, r.core.attempts),
                  r.info.(nextRetry := if again then Some(now + backoff) else None))]
      ensures !ok ==> pages == old(pages)
    {
      if h !in pages {
        return false;
      }
      var m := pages[h];
      if m.core.token.None? || m.core.token.value != token {
        return false;
      }
      var status, nextRetry := Queued, None;
      if !retryable || m.core.attempts >= m.info.maxAttempts {
        status := Dead;
      } else {
        nextRetry := Some(now + backoff);
      }
      pages := pages[h := Row(Unleased(status, m.core.attempts), m.info.(nextRetry := nextRetry))];
      ok := true;
    }

    method SweepExpired(now: Time) returns (affected: nat)
      modifies this`pages
      ensures pages == Swept(old(pages), now)
      ensures forall k | k in pages :: !Overdue(pages[k].core, now)
      ensures affected == |Changed(old(pages), pages)|
      ensures affected == |OverdueIn(old(pages), now)|
      ensures pages.Keys == old(pages).Keys
      ensures forall k | k in pages ::
                var r := old(pages)[k];
                if r.core.status == Leased && r.core.expiresAt.Some? && r.core.expiresAt.value < now then
                  pages[k] == Row(Core(Queued, None, None, None, r.core.attempts), r.info)
                else pages[k] == r
    {
      SweepTakesTheOverdue(pages, now);
      affected := |OverdueIn(pages, now)|;
      pages := map h | h in pages ::
        if Overdue(pages[h].core, now) then Row(Unleased(Queued, pages[h].core.attempts), pages[h].info) else pages[h];
    }

    method RequeueByFilter(f: RequeueFilter) returns (affected: nat)
      modifies this`pages
      ensures pages == Requeueing(old(pages), f)
      ensures pages.Keys == old(pages).Keys
      ensures forall k | k in pages ::
                var r := old(pages)[k];
                if (f.status == None || f.status == Some(r.core.status))
                   && (f.worker <= 0 || r.core.worker == Some(f.worker))
                   && (f.domain <= 0 || r.info.domain == f.domain)
                then pages[k] == Row(Core(Queued, None, None, None, r.core.attempts), r.info.(nextRetry := None))
                else pages[k] == r
      ensures affected == |set h | h in old(pages) && Hits(f, old(pages)[h])|
    {
      affected := |set h | h in pages && Hits(f, pages[h])|;
      pages := map h | h in pages ::
        if Hits(f, pages[h])
        then Row(Unleased(Queued, pages[h].core.attempts), pages[h].info.(nextRetry := None))
        else pages[h];
    }
  }

  ghost predicate LeasableAll(rows: Pages, hosts: Domains, picks: seq<Hash>) {
    && NoDup(picks)
    && AllIn(picks, rows)
    && forall i | 0 <= i < |picks| :: rows[picks[i]].core.status == Queued && rows[picks[i]].info.domain in hosts
  }

  lemma PicksAreLeasable(rows: Pages, domains: Domains, caps: seq<string>, batch: int, now: Time, dbNow: Time,
      picks: seq<Hash>)
    requires Picked(rows, domains, caps, batch, now, dbNow, picks)
    ensures LeasableAll(rows, domains, picks)
  {
    PickedIsSchedule(rows, domains, caps, batch, now, dbNow, picks);
    var cand := Candidates(rows, domains, caps, now, dbNow);
    assert Schedule(rows, domains, cand, batch, picks);
    assert forall h | h in picks :: h in cand;
    assert forall i | 0 <= i < |picks| :: picks[i] in picks;
    forall i | 0 <= i < |picks|
      ensures picks[i] in cand
    {
      assert picks[i] in picks;
    }
  }

  /** What Reserve hands out for one pick; the attempt is already counted. */
  function GrantOf(rows: Pages, h: Hash, worker: int, expires: Time): LeasedJob
    requires h in rows
  {
    LeasedJob(h, TokenFor(h, worker, expires), expires, rows[h].core.attempts + 1)
  }

  /** The tables and the reply after a reserve that picked these rows. */
  ghost predicate Reserved(
    rows: Pages, hosts: Domains, picks: seq<Hash>, worker: int, expires: Time, now: Time,
    rows': Pages, hosts': Domains, leased: seq<LeasedJob>)
  {
    && LeasableAll(rows, hosts, picks)
    && rows' == Leasing(rows, picks, worker, expires)
    && hosts' == Touching(hosts, DomainsOfFirst(rows, picks, |picks|), now)
    && |leased| == |picks|
    && forall i | 0 <= i < |picks| :: leased[i] == GrantOf(rows, picks[i], worker, expires)
  }

  /**
   * The same on the columns: the picks, and no other row, are leased to the worker with
   * one attempt more, the domains that own one are stamped, and the reply says so.
   */
  lemma ReservedOnColumns(rows: Pages, hosts: Domains, picks: seq<Hash>, worker: int, expires: Time, now: Time,
      rows': Pages, hosts': Domains, leased: seq<LeasedJob>)
    requires Reserved(rows, hosts, picks, worker, expires, now, rows', hosts', leased)
    ensures rows'.Keys == rows.Keys && hosts'.Keys == hosts.Keys && |leased| == |picks|
    ensures forall h | h in rows ::
              rows'[h] == if h in picks then
                            Row(Core(Leased, Some(worker), Some(Token(h, worker, expires / SECOND)), Some(expires),
                                     rows[h].core.attempts + 1), rows[h].info)
                          else rows[h]
    ensures forall id | id in hosts ::
              hosts'[id] == if exists h :: h in picks && h in rows && rows[h].info.domain == id then
                              hosts[id].(lastRequest := Some(now))
                            else hosts[id]
    ensures forall i | 0 <= i < |picks| ::
              picks[i] in rows
              && leased[i] == LeasedJob(picks[i], Token(picks[i], worker, expires / SECOND), expires,
                                        rows[picks[i]].core.attempts + 1)
  {
    forall h | h in rows
      ensures rows'[h] == if h in picks then
                            Row(Core(Leased, Some(worker), Some(Token(h, worker, expires / SECOND)), Some(expires),
                                     rows[h].core.attempts + 1), rows[h].info)
                          else rows[h]
    {
      LeasingOnColumns(rows, picks, worker, expires, h);
    }
    forall id | id in hosts
      ensures id in DomainsOfFirst(rows, picks, |picks|)
         <==> exists h :: h in picks && h in rows && rows[h].info.domain == id
    {
      OwnsPick(rows, picks, id);
    }
  }

  lemma OwnsPick(rows: Pages, picks: seq<Hash>, id: nat)
    requires AllIn(picks, rows)
    ensures id in DomainsOfFirst(rows, picks, |picks|)
       <==> exists h :: h in picks && h in rows && rows[h].info.domain == id
  {
    if h :| h in picks && h in rows && rows[h].info.domain == id {
      var i :| 0 <= i < |picks| && picks[i] == h;
      assert rows[picks[i]].info.domain == id;
    }
    if id in DomainsOfFirst(rows, picks, |picks|) {
      var i :| 0 <= i < |picks| && rows[picks[i]].info.domain == id;
      assert picks[i] in picks;
    }
  }
}

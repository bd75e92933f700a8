/** crawl_frontier and domains: the rows, and each SQL statement as a function on them. */
module FrontierModel {
  import opened Wrappers
  import opened Clock
  import opened LeaseTable

  /** The 32 bytes of a url_hash, read as a number. */
  type Hash = nat

  datatype Page = Page(
    domain: nat, priority: int, maxAttempts: int, nextRetry: Option<Time>, scheduledFor: Time)

  type PageRow = Row<Hash, Page>

  type Pages = Table<Hash, Page>

  /** required == "" stands for a NULL or empty required_capability. */
  datatype Domain = Domain(
    active: bool, delayMs: int, parallel: int, lastRequest: Option<Time>, required: string)

  type Domains = map<nat, Domain>

  datatype Job = Job(hash: Hash, domain: nat, priority: int, maxAttempts: int)

  /** Zero worker or domain and no status mean "no constraint". */
  datatype RequeueFilter = RequeueFilter(status: Option<Status>, worker: int, domain: int)

  // ----- the reserve predicate of one row ------------------------------------

  /** The SQLite form: whole seconds since the last reserve, times 1000, against the delay. */
  predicate Polite(d: Domain, dbNow: Time) {
    d.lastRequest.None? || (Unix(dbNow) - Unix(d.lastRequest.value)) * 1000 >= d.delayMs
  }

  predicate Allowed(d: Domain, caps: seq<string>) {
    caps == [] || d.required == "" || d.required in caps
  }

  predicate Due(p: Page, now: Time) {
    p.scheduledFor <= now && (p.nextRetry.None? || p.nextRetry.value <= now)
  }

  predicate Eligible(r: PageRow, domains: Domains, caps: seq<string>, now: Time, dbNow: Time) {
    && r.core.status == Queued
    && Due(r.info, now)
    && r.info.domain in domains
    && var d := domains[r.info.domain];
    && d.active
    && Polite(d, dbNow)
    && Allowed(d, caps)
  }

  // ----- statements ----------------------------------------------------------

  /** The domains that own one of the first n picks. */
  function DomainsOfFirst(rows: Pages, picks: seq<Hash>, n: nat): set<nat>
    requires n <= |picks| && AllIn(picks, rows)
  {
    set i | 0 <= i < n :: rows[picks[i]].info.domain
  }

  function Touching(domains: Domains, touched: set<nat>, now: Time): (r: Domains)
    ensures r.Keys == domains.Keys
  {
    map id | id in domains ::
      if id in touched then domains[id].(lastRequest := Some(now)) else domains[id]
  }

  lemma TouchingOneMore(domains: Domains, touched: set<nat>, id: nat, now: Time)
    requires id in domains
    ensures Touching(domains, touched + {id}, now)
         == if id in touched then Touching(domains, touched, now)
            else Touching(domains, touched, now)[id := domains[id].(lastRequest := Some(now))]
  {
    assert id in touched ==> touched + {id} == touched;
  }

  predicate Retries(r: PageRow, retryable: bool) {
    retryable && r.core.attempts < r.info.maxAttempts
  }

  function Failing(rows: Pages, h: Hash, token: Token<Hash>, retryable: bool, retryAt: Time): Pages {
    if !Stores(rows, h, token) then
      rows
    else if Retries(rows[h], retryable) then
      rows[h := Row(Cleared(rows[h].core, Queued), rows[h].info.(nextRetry := Some(retryAt)))]
    else
      rows[h := Row(Cleared(rows[h].core, Dead), rows[h].info.(nextRetry := None))]
  }

  predicate Hits(f: RequeueFilter, r: PageRow) {
    && (f.status.Some? ==> r.core.status == f.status.value)
    && (f.worker > 0 ==> r.core.worker == Some(f.worker))
    && (f.domain > 0 ==> r.info.domain == f.domain)
  }

  function RequeuedRow(r: PageRow): PageRow {
    Row(Cleared(r.core, Queued), r.info.(nextRetry := None))
  }

  function Requeueing(rows: Pages, f: RequeueFilter): (r: Pages)
    ensures r.Keys == rows.Keys
  {
    map h | h in rows :: if Hits(f, rows[h]) then RequeuedRow(rows[h]) else rows[h]
  }

  function NewPage(j: Job, now: Time): PageRow {
    Row(Unleased(Queued, 0),
        Page(j.domain, j.priority, if j.maxAttempts == 0 then 5 else j.maxAttempts, None, now))
  }

  /** FirstOrCreate: an existing url_hash is left alone. */
  function Inserting(rows: Pages, j: Job, now: Time): Pages {
    if j.hash in rows then rows else rows[j.hash := NewPage(j, now)]
  }

  function InsertingAll(rows: Pages, jobs: seq<Job>, now: Time): Pages {
    if jobs == [] then rows
    else Inserting(InsertingAll(rows, jobs[..|jobs| - 1], now), jobs[|jobs| - 1], now)
  }

  ghost predicate FirstOf(jobs: seq<Job>, i: int) {
    0 <= i < |jobs| && forall k | 0 <= k < i :: jobs[k].hash != jobs[i].hash
  }

  /** A batch insert is idempotent per url_hash: old rows stay and the first job of each new hash wins. */
  lemma {:induction false} FirstJobWins(rows: Pages, jobs: seq<Job>, now: Time, h: Hash)
    ensures h in rows ==> h in InsertingAll(rows, jobs, now) && InsertingAll(rows, jobs, now)[h] == rows[h]
    ensures h in InsertingAll(rows, jobs, now) && h !in rows ==>
              exists i :: FirstOf(jobs, i) && jobs[i].hash == h
                          && InsertingAll(rows, jobs, now)[h] == NewPage(jobs[i], now)
    ensures h !in InsertingAll(rows, jobs, now) ==> forall i | 0 <= i < |jobs| :: jobs[i].hash != h
  {
    if jobs != [] {
      var front, j := jobs[..|jobs| - 1], jobs[|jobs| - 1];
      FirstJobWins(rows, front, now, h);
      var inner, r := InsertingAll(rows, front, now), InsertingAll(rows, jobs, now);
      if h in r && h !in rows {
        if h in inner {
          var i :| FirstOf(front, i) && front[i].hash == h && inner[h] == NewPage(front[i], now);
          assert FirstOf(jobs, i) && jobs[i] == front[i];
        } else {
          assert FirstOf(jobs, |front|);
        }
      }
    }
  }
}

/**
 * The pick query of Reserve: ROW_NUMBER per domain, rn <= parallel_fetches and
 * LIMIT without an ORDER BY. Ties in the window and the choice made by LIMIT
 * are the engine's, so the query is a relation and every claim below is about
 * all of its answers.
 */
module Scheduler {
  import opened Clock
  import opened LeaseTable
  import opened FrontierModel
  import opened Finite

  function Candidates(rows: Pages, domains: Domains, caps: seq<string>, now: Time, dbNow: Time): set<Hash> {
    set h | h in rows && Eligible(rows[h], domains, caps, now, dbNow)
  }

  /** ORDER BY priority DESC, scheduled_for ASC: strictly ahead. */
  predicate Before(a: Page, b: Page) {
    a.priority > b.priority || (a.priority == b.priority && a.scheduledFor < b.scheduledFor)
  }

  /** One PARTITION BY domain_id. */
  function Part(rows: Pages, cand: set<Hash>, domain: nat): set<Hash> {
    set h | h in cand && h in rows && rows[h].info.domain == domain
  }

  /** rank is a legal result of ROW_NUMBER: per domain a numbering 1..size that respects the order. */
  ghost predicate RowNumbered(rows: Pages, cand: set<Hash>, rank: map<Hash, int>) {
    rank.Keys == cand <= rows.Keys && InRange(rows, cand, rank) && RespectsOrder(rows, cand, rank)
  }

  ghost predicate InRange(rows: Pages, cand: set<Hash>, rank: map<Hash, int>)
    requires rank.Keys == cand <= rows.Keys
  {
    forall h | h in cand :: 1 <= rank[h] <= |Part(rows, cand, rows[h].info.domain)|
  }

  ghost predicate RespectsOrder(rows: Pages, cand: set<Hash>, rank: map<Hash, int>)
    requires rank.Keys == cand <= rows.Keys
  {
    forall h, k | h in cand && k in cand && h != k && rows[h].info.domain == rows[k].info.domain ::
      && rank[h] != rank[k]
      && (Before(rows[h].info, rows[k].info) ==> rank[h] < rank[k])
  }

  /** The subset that survives WHERE rn <= pf. */
  function Within(rows: Pages, domains: Domains, cand: set<Hash>, rank: map<Hash, int>): set<Hash>
    requires rank.Keys == cand
  {
    set h | h in cand && h in rows && rows[h].info.domain in domains
            && rank[h] <= domains[rows[h].info.domain].parallel
  }

  /** A legal answer of the whole query for this ranking. */
  ghost predicate Answer(rows: Pages, domains: Domains, cand: set<Hash>, batch: int, rank: map<Hash, int>,
      picks: seq<Hash>)
  {
    && RowNumbered(rows, cand, rank)
    && NoDup(picks)
    && (forall h | h in picks :: h in Within(rows, domains, cand, rank))
    && |picks| <= batch
    && (|picks| < batch ==> |picks| == |Within(rows, domains, cand, rank)|)
  }

  /** picks is what the pick query may return. */
  ghost predicate Picked(rows: Pages, domains: Domains, caps: seq<string>, batch: int, now: Time, dbNow: Time,
      picks: seq<Hash>)
  {
    var cand := Candidates(rows, domains, caps, now, dbNow);
    exists rank :: Answer(rows, domains, cand, batch, rank, picks)
  }

  // ----- the query, executed --------------------------------------------------

  /** The order of a partition made total by the row key; one of the orders an engine may use. */
  predicate NotAfter(rows: Pages, k: Hash, h: Hash)
    requires k in rows && h in rows
  {
    Before(rows[k].info, rows[h].info) || (!Before(rows[h].info, rows[k].info) && k <= h)
  }

  function UpTo(rows: Pages, part: set<Hash>, h: Hash): set<Hash>
    requires h in rows && part <= rows.Keys
  {
    set k | k in part && NotAfter(rows, k, h)
  }

  function Numbering(rows: Pages, cand: set<Hash>): map<Hash, int>
    requires cand <= rows.Keys
  {
    map h | h in cand :: |UpTo(rows, Part(rows, cand, rows[h].info.domain), h)|
  }

  lemma UpToGrows(rows: Pages, part: set<Hash>, k: Hash, h: Hash)
    requires part <= rows.Keys && k in part && h in part && k != h && NotAfter(rows, k, h)
    ensures |UpTo(rows, part, k)| < |UpTo(rows, part, h)| <= |part|
  {
    var small, big := UpTo(rows, part, k), UpTo(rows, part, h);
    assert h in big && h !in small;
    SubsetSize(small, big - {h});
    SubsetSize(big, part);
  }

  lemma NumberingInRange(rows: Pages, cand: set<Hash>)
    requires cand <= rows.Keys
    ensures InRange(rows, cand, Numbering(rows, cand))
  {
    var rank := Numbering(rows, cand);
    forall h | h in cand
      ensures 1 <= rank[h] <= |Part(rows, cand, rows[h].info.domain)|
    {
      var part := Part(rows, cand, rows[h].info.domain);
      SubsetSize({h}, UpTo(rows, part, h));
      SubsetSize(UpTo(rows, part, h), part);
    }
  }

  lemma NumberingRespectsOrder(rows: Pages, cand: set<Hash>)
    requires cand <= rows.Keys
    ensures RespectsOrder(rows, cand, Numbering(rows, cand))
  {
    var rank := Numbering(rows, cand);
    forall h, k | h in cand && k in cand && h != k && rows[h].info.domain == rows[k].info.domain
      ensures rank[h] != rank[k] && (Before(rows[h].info, rows[k].info) ==> rank[h] < rank[k])
    {
      var part := Part(rows, cand, rows[h].info.domain);
      if NotAfter(rows, h, k) {
        UpToGrows(rows, part, h, k);
      } else {
        UpToGrows(rows, part, k, h);
      }
    }
  }

  /** Every candidate set has a numbering that ROW_NUMBER may return. */
  lemma NumberingIsLegal(rows: Pages, cand: set<Hash>)
    requires cand <= rows.Keys
    ensures RowNumbered(rows, cand, Numbering(rows, cand))
  {
    NumberingInRange(rows, cand);
    NumberingRespectsOrder(rows, cand);
  }

  /** The pick query as an engine may run it; callers rely only on Picked. */
  method PickQuery(rows: Pages, domains: Domains, caps: seq<string>, batch: nat, now: Time, dbNow: Time)
    returns (picks: seq<Hash>)
    ensures Picked(rows, domains, caps, batch, now, dbNow, picks)
  {
    var cand := Candidates(rows, domains, caps, now, dbNow);
    var rank := Numbering(rows, cand);
    NumberingIsLegal(rows, cand);
    var within := Within(rows, domains, cand, rank);
    picks := Listing(within, if batch < |within| then batch else |within|);
    assert Answer(rows, domains, cand, batch, rank, picks);
  }

  // ----- the declarative meaning ----------------------------------------------

  function Max0(n: int): int { if n < 0 then 0 else n }

  function PickedOf(rows: Pages, picks: seq<Hash>, d: nat): set<Hash> {
    set h | h in picks && h in rows && rows[h].info.domain == d
  }

  /** A domain's picks together with every candidate strictly ahead of one of them. */
  ghost function Front(rows: Pages, cand: set<Hash>, picks: seq<Hash>, d: nat): set<Hash> {
    set k | k in Part(rows, cand, d)
        && (k in picks || exists p :: p in PickedOf(rows, picks, d) && Before(rows[k].info, rows[p].info))
  }

  /**
   * What a reserve may hand out, without mention of ranks: distinct candidates,
   * at most batch of them; no domain's picks reach past its first
   * parallel_fetches rows; and when the batch is not full, a candidate is left
   * out only by a domain that already gave all it may.
   */
  ghost predicate Schedule(rows: Pages, domains: Domains, cand: set<Hash>, batch: int, picks: seq<Hash>) {
    && NoDup(picks)
    && |picks| <= batch
    && (forall h | h in picks :: h in cand)
    && (forall d | d in domains :: |Front(rows, cand, picks, d)| <= Max0(domains[d].parallel))
    && (|picks| < batch ==> LeftOutOnlyByQuota(rows, domains, cand, picks))
  }

  ghost predicate LeftOutOnlyByQuota(rows: Pages, domains: Domains, cand: set<Hash>, picks: seq<Hash>) {
    forall h | h in cand && h in rows && rows[h].info.domain in domains && h !in picks ::
      |PickedOf(rows, picks, rows[h].info.domain)| >= domains[rows[h].info.domain].parallel
  }

  ghost predicate Placed(rows: Pages, domains: Domains, cand: set<Hash>) {
    forall h | h in cand :: h in rows && rows[h].info.domain in domains
  }

  lemma RanksAhead(rows: Pages, cand: set<Hash>, rank: map<Hash, int>, h: Hash, pf: int) returns (front: set<Hash>)
    requires RowNumbered(rows, cand, rank)
    requires h in cand && rank[h] > pf >= 0
    ensures front <= Part(rows, cand, rows[h].info.domain)
    ensures forall k | k in front :: rank[k] <= pf
    ensures |front| >= pf
  {
    var part := Part(rows, cand, rows[h].info.domain);
    front := set k | k in part && rank[k] <= pf;
    var back := part - front;
    assert part == front + back;
    InjectionBound(back, rank, pf + 1, |part|);
  }

  lemma FrontIsWithin(rows: Pages, domains: Domains, cand: set<Hash>, batch: int, rank: map<Hash, int>,
      picks: seq<Hash>, d: nat)
    requires Answer(rows, domains, cand, batch, rank, picks) && d in domains
    ensures |Front(rows, cand, picks, d)| <= Max0(domains[d].parallel)
  {
    var front := Front(rows, cand, picks, d);
    forall k | k in front
      ensures k in rank && 1 <= rank[k] <= domains[d].parallel
    {
      if k in picks {
        assert k in Within(rows, domains, cand, rank);
      } else {
        var p :| p in PickedOf(rows, picks, d) && Before(rows[k].info, rows[p].info);
        assert p in Within(rows, domains, cand, rank);
      }
    }
    forall x, y | x in front && y in front && x != y
      ensures rank[x] != rank[y]
    {
      assert x in cand && y in cand && rows[x].info.domain == d == rows[y].info.domain;
    }
    if front != {} {
      var k :| k in front;
      assert 1 <= rank[k] <= domains[d].parallel;
      InjectionBound(front, rank, 1, domains[d].parallel);
    }
  }

  lemma ShortAnswerFillsQuotas(rows: Pages, domains: Domains, cand: set<Hash>, batch: int, rank: map<Hash, int>,
      picks: seq<Hash>)
    requires Answer(rows, domains, cand, batch, rank, picks) && |picks| < batch
    ensures LeftOutOnlyByQuota(rows, domains, cand, picks)
  {
    var within := Within(rows, domains, cand, rank);
    var all := set x | x in picks;
    NoDupSize(picks);
    SubsetSize(all, within);
    forall h | h in cand && h in rows && rows[h].info.domain in domains && h !in picks
      ensures |PickedOf(rows, picks, rows[h].info.domain)| >= domains[rows[h].info.domain].parallel
    {
      var d := rows[h].info.domain;
      assert h !in all;
      if domains[d].parallel >= 0 {
        var front := RanksAhead(rows, cand, rank, h, domains[d].parallel);
        forall k | k in front
          ensures k in PickedOf(rows, picks, d)
        {
          assert k in within;
          assert k in all;
        }
        SubsetSize(front, PickedOf(rows, picks, d));
      }
    }
  }

  /** The rows of back numbered after those of front, domain by domain. */
  function Stacked(rows: Pages, front: set<Hash>, back: set<Hash>, rf: map<Hash, int>, rb: map<Hash, int>)
    : map<Hash, int>
    requires front + back <= rows.Keys && rf.Keys == front && rb.Keys == back
  {
    map h | h in front + back ::
      if h in front then rf[h] else |Part(rows, front, rows[h].info.domain)| + rb[h]
  }

  lemma StackedSizes(rows: Pages, front: set<Hash>, back: set<Hash>, d: nat)
    requires front !! back
    ensures |Part(rows, front + back, d)| == |Part(rows, front, d)| + |Part(rows, back, d)|
  {
    assert Part(rows, front + back, d) == Part(rows, front, d) + Part(rows, back, d);
  }

  lemma StackedBounds(rows: Pages, front: set<Hash>, back: set<Hash>, rf: map<Hash, int>, rb: map<Hash, int>, h: Hash)
    requires front !! back && RowNumbered(rows, front, rf) && RowNumbered(rows, back, rb) && h in front + back
    ensures var rank, ahead := Stacked(rows, front, back, rf, rb), |Part(rows, front, rows[h].info.domain)|;
      && (h in front ==> 1 <= rank[h] == rf[h] <= ahead)
      && (h in back ==> ahead < rank[h] == ahead + rb[h])
      && rank[h] <= |Part(rows, front + back, rows[h].info.domain)|
  {
    StackedSizes(rows, front, back, rows[h].info.domain);
  }

  lemma StackedOrder(rows: Pages, front: set<Hash>, back: set<Hash>, rf: map<Hash, int>, rb: map<Hash, int>, h: Hash,
      k: Hash)
    requires front !! back && RowNumbered(rows, front, rf) && RowNumbered(rows, back, rb)
    requires h in front + back && k in front + back && h != k && rows[h].info.domain == rows[k].info.domain
    requires h in back && k in front ==> !Before(rows[h].info, rows[k].info)
    ensures var rank := Stacked(rows, front, back, rf, rb);
      rank[h] != rank[k] && (Before(rows[h].info, rows[k].info) ==> rank[h] < rank[k])
  {
    StackedBounds(rows, front, back, rf, rb, h);
    StackedBounds(rows, front, back, rf, rb, k);
  }

  lemma StackedInRange(rows: Pages, front: set<Hash>, back: set<Hash>, rf: map<Hash, int>, rb: map<Hash, int>)
    requires front !! back && RowNumbered(rows, front, rf) && RowNumbered(rows, back, rb)
    ensures InRange(rows, front + back, Stacked(rows, front, back, rf, rb))
  {
    forall h | h in front + back
      ensures 1 <= Stacked(rows, front, back, rf, rb)[h] <= |Part(rows, front + back, rows[h].info.domain)|
    {
      StackedBounds(rows, front, back, rf, rb, h);
    }
  }

  lemma StackedRespectsOrder(rows: Pages, front: set<Hash>, back: set<Hash>, rf: map<Hash, int>, rb: map<Hash, int>)
    requires front !! back && RowNumbered(rows, front, rf) && RowNumbered(rows, back, rb)
    requires forall h, k | h in back && k in front && rows[h].info.domain == rows[k].info.domain ::
               !Before(rows[h].info, rows[k].info)
    ensures RespectsOrder(rows, front + back, Stacked(rows, front, back, rf, rb))
  {
    var rank, cand := Stacked(rows, front, back, rf, rb), front + back;
    forall h, k | h in cand && k in cand && h != k && rows[h].info.domain == rows[k].info.domain
      ensures rank[h] != rank[k] && (Before(rows[h].info, rows[k].info) ==> rank[h] < rank[k])
    {
      StackedOrder(rows, front, back, rf, rb, h, k);
    }
  }

  lemma StackedIsLegal(rows: Pages, front: set<Hash>, back: set<Hash>, rf: map<Hash, int>, rb: map<Hash, int>)
    requires front !! back && RowNumbered(rows, front, rf) && RowNumbered(rows, back, rb)
    requires forall h, k | h in back && k in front && rows[h].info.domain == rows[k].info.domain ::
               !Before(rows[h].info, rows[k].info)
    ensures RowNumbered(rows, front + back, Stacked(rows, front, back, rf, rb))
  {
    StackedInRange(rows, front, back, rf, rb);
    StackedRespectsOrder(rows, front, back, rf, rb);
  }

  ghost function AllFronts(rows: Pages, cand: set<Hash>, picks: seq<Hash>): (front: set<Hash>)
    requires cand <= rows.Keys
    ensures front <= cand
  {
    set k | k in cand && k in Front(rows, cand, picks, rows[k].info.domain)
  }

  lemma AheadIsInFront(rows: Pages, cand: set<Hash>, picks: seq<Hash>, h: Hash, k: Hash)
    requires cand <= rows.Keys && h in cand && k in cand && rows[h].info.domain == rows[k].info.domain
    requires k in Front(rows, cand, picks, rows[k].info.domain) && Before(rows[h].info, rows[k].info)
    ensures h in Front(rows, cand, picks, rows[h].info.domain)
  {
    var d := rows[h].info.domain;
    assert h in Part(rows, cand, d);
    if k in picks {
      assert k in PickedOf(rows, picks, d);
    } else {
      var p :| p in PickedOf(rows, picks, d) && Before(rows[k].info, rows[p].info);
      assert Before(rows[h].info, rows[p].info);
    }
  }

  lemma FrontIsClosed(rows: Pages, domains: Domains, cand: set<Hash>, picks: seq<Hash>, front: set<Hash>)
    requires cand <= rows.Keys
    requires front == AllFronts(rows, cand, picks)
    ensures forall h, k | h in cand && h !in front && k in front && rows[h].info.domain == rows[k].info.domain ::
              !Before(rows[h].info, rows[k].info)
    ensures forall d :: Part(rows, front, d) == Front(rows, cand, picks, d)
  {
    forall h, k | h in cand && h !in front && k in front && rows[h].info.domain == rows[k].info.domain
      ensures !Before(rows[h].info, rows[k].info)
    {
      if Before(rows[h].info, rows[k].info) {
        AheadIsInFront(rows, cand, picks, h, k);
      }
    }
  }

  lemma ScheduleHasRanking(rows: Pages, domains: Domains, cand: set<Hash>, batch: int, picks: seq<Hash>)
      returns (rank: map<Hash, int>)
    requires cand <= rows.Keys && Placed(rows, domains, cand)
    requires Schedule(rows, domains, cand, batch, picks)
    ensures Answer(rows, domains, cand, batch, rank, picks)
  {
    var front := AllFronts(rows, cand, picks);
    var back := cand - front;
    Complement(front, cand);
    var rf, rb := Numbering(rows, front), Numbering(rows, back);
    NumberingIsLegal(rows, front);
    NumberingIsLegal(rows, back);
    FrontIsClosed(rows, domains, cand, picks, front);
    rank := Stacked(rows, front, back, rf, rb);
    StackedIsLegal(rows, front, back, rf, rb);
    forall h | h in cand
      ensures h in picks ==> rank[h] <= domains[rows[h].info.domain].parallel
      ensures h !in picks && |picks| < batch ==> rank[h] > domains[rows[h].info.domain].parallel
    {
      StackedRank(rows, domains, cand, batch, picks, front, back, rf, rb, h);
    }
    SplitByQuota(rows, domains, cand, batch, rank, picks);
  }

  /** A pick ranks within its domain's quota, and a row left out of a short batch beyond it. */
  lemma StackedRank(
    rows: Pages, domains: Domains, cand: set<Hash>, batch: int, picks: seq<Hash>,
    front: set<Hash>, back: set<Hash>, rf: map<Hash, int>, rb: map<Hash, int>, h: Hash)
    requires front !! back && front + back == cand <= rows.Keys && Placed(rows, domains, cand)
    requires Schedule(rows, domains, cand, batch, picks)
    requires RowNumbered(rows, front, rf) && RowNumbered(rows, back, rb)
    requires h in cand
    requires Part(rows, front, rows[h].info.domain) == Front(rows, cand, picks, rows[h].info.domain)
    ensures var rank, pf := Stacked(rows, front, back, rf, rb), domains[rows[h].info.domain].parallel;
      && (h in picks ==> rank[h] <= pf)
      && (h !in picks && |picks| < batch ==> rank[h] > pf)
  {
    var d := rows[h].info.domain;
    StackedBounds(rows, front, back, rf, rb, h);
    if h in picks {
      PickIsInFront(rows, domains, cand, batch, picks, h);
      assert h in front by {
        assert h in Part(rows, front, d);
      }
    } else if |picks| < batch {
      QuotaIsFull(rows, domains, cand, batch, picks, h);
      assert h in back by {
        assert h in front ==> h in Part(rows, front, d);
      }
    }
  }

  lemma PickIsInFront(rows: Pages, domains: Domains, cand: set<Hash>, batch: int, picks: seq<Hash>, h: Hash)
    requires cand <= rows.Keys && Placed(rows, domains, cand)
    requires Schedule(rows, domains, cand, batch, picks) && h in cand && h in picks
    ensures h in Front(rows, cand, picks, rows[h].info.domain)
    ensures |Front(rows, cand, picks, rows[h].info.domain)| <= domains[rows[h].info.domain].parallel
  {
    var front := Front(rows, cand, picks, rows[h].info.domain);
    assert h in front;
    SubsetSize({h}, front);
  }

  /** A ranking that puts the picks, and only them when the batch is short, within the quotas is an answer. */
  lemma SplitByQuota(rows: Pages, domains: Domains, cand: set<Hash>, batch: int, rank: map<Hash, int>, picks: seq<Hash>)
    requires RowNumbered(rows, cand, rank) && Placed(rows, domains, cand)
    requires NoDup(picks) && |picks| <= batch && forall h | h in picks :: h in cand
    requires forall h | h in cand :: h in picks ==> rank[h] <= domains[rows[h].info.domain].parallel
    requires forall h | h in cand :: h !in picks && |picks| < batch ==> rank[h] > domains[rows[h].info.domain].parallel
    ensures Answer(rows, domains, cand, batch, rank, picks)
  {
    var within, all := Within(rows, domains, cand, rank), set x | x in picks;
    NoDupSize(picks);
    forall h | h in picks
      ensures h in within
    {
      assert h in cand;
    }
    if |picks| < batch {
      forall h | h in within
        ensures h in all
      {
        assert h in cand && rank[h] <= domains[rows[h].info.domain].parallel;
      }
      SubsetSize(within, all);
    }
    SubsetSize(all, within);
  }

  lemma QuotaIsFull(rows: Pages, domains: Domains, cand: set<Hash>, batch: int, picks: seq<Hash>, h: Hash)
    requires cand <= rows.Keys && Placed(rows, domains, cand)
    requires Schedule(rows, domains, cand, batch, picks) && |picks| < batch
    requires h in cand && h !in picks
    ensures |Front(rows, cand, picks, rows[h].info.domain)| >= domains[rows[h].info.domain].parallel
    ensures h !in Front(rows, cand, picks, rows[h].info.domain)
  {
    var d := rows[h].info.domain;
    var mine, front := PickedOf(rows, picks, d), Front(rows, cand, picks, d);
    assert mine <= front;
    SubsetSize(mine, front);
  }

  lemma AnswerIsSchedule(rows: Pages, domains: Domains, cand: set<Hash>, batch: int, rank: map<Hash, int>,
      picks: seq<Hash>)
    requires Answer(rows, domains, cand, batch, rank, picks)
    ensures Schedule(rows, domains, cand, batch, picks)
  {
    forall d | d in domains
      ensures |Front(rows, cand, picks, d)| <= Max0(domains[d].parallel)
    {
      FrontIsWithin(rows, domains, cand, batch, rank, picks, d);
    }
    if |picks| < batch {
      ShortAnswerFillsQuotas(rows, domains, cand, batch, rank, picks);
    }
  }

  /** The ranked, limited query returns exactly the schedules: every answer is one, and every schedule is an answer. */
  lemma PickedIsSchedule(rows: Pages, domains: Domains, caps: seq<string>, batch: int, now: Time, dbNow: Time,
      picks: seq<Hash>)
    ensures Picked(rows, domains, caps, batch, now, dbNow, picks)
       <==> Schedule(rows, domains, Candidates(rows, domains, caps, now, dbNow), batch, picks)
  {
    var cand := Candidates(rows, domains, caps, now, dbNow);
    if Picked(rows, domains, caps, batch, now, dbNow, picks) {
      var rank :| Answer(rows, domains, cand, batch, rank, picks);
      AnswerIsSchedule(rows, domains, cand, batch, rank, picks);
    }
    if Schedule(rows, domains, cand, batch, picks) {
      var rank := ScheduleHasRanking(rows, domains, cand, batch, picks);
    }
  }

  /** The other candidates of h's domain that the order puts at or ahead of h. */
  function AtOrAhead(rows: Pages, cand: set<Hash>, h: Hash): set<Hash>
    requires h in rows
  {
    set k | k in Part(rows, cand, rows[h].info.domain) && k != h && !Before(rows[h].info, rows[k].info)
  }

  /**
   * At most parallel_fetches rows of each domain; and a row left out of a batch that
   * is not full has at least that many of its domain's candidates at or ahead of it.
   */
  lemma ScheduleIsFair(rows: Pages, domains: Domains, cand: set<Hash>, batch: int, picks: seq<Hash>)
    requires Placed(rows, domains, cand) && Schedule(rows, domains, cand, batch, picks)
    ensures forall d | d in domains :: |PickedOf(rows, picks, d)| <= Max0(domains[d].parallel)
    ensures |picks| < batch ==>
              forall h | h in cand && h !in picks :: |AtOrAhead(rows, cand, h)| >= domains[rows[h].info.domain].parallel
  {
    forall d | d in domains
      ensures |PickedOf(rows, picks, d)| <= Max0(domains[d].parallel)
    {
      SubsetSize(PickedOf(rows, picks, d), Front(rows, cand, picks, d));
    }
    if |picks| < batch {
      forall h | h in cand && h !in picks
        ensures |AtOrAhead(rows, cand, h)| >= domains[rows[h].info.domain].parallel
      {
        PicksAreAhead(rows, domains, cand, batch, picks, h);
        SubsetSize(PickedOf(rows, picks, rows[h].info.domain), AtOrAhead(rows, cand, h));
      }
    }
  }

  lemma PicksAreAhead(rows: Pages, domains: Domains, cand: set<Hash>, batch: int, picks: seq<Hash>, h: Hash)
    requires Placed(rows, domains, cand) && Schedule(rows, domains, cand, batch, picks)
    requires |picks| < batch && h in cand && h !in picks
    ensures PickedOf(rows, picks, rows[h].info.domain) <= AtOrAhead(rows, cand, h)
  {
    var d := rows[h].info.domain;
    forall p | p in PickedOf(rows, picks, d)
      ensures p in AtOrAhead(rows, cand, h)
    {
      SubsetSize(PickedOf(rows, picks, d), Front(rows, cand, picks, d));
      assert h in Part(rows, cand, d) && h !in PickedOf(rows, picks, d);
      assert p in cand;
    }
  }

  // ----- the query on the columns --------------------------------------------

  lemma EligibleOnColumns(r: PageRow, domains: Domains, caps: seq<string>, now: Time, dbNow: Time)
    ensures Eligible(r, domains, caps, now, dbNow)
       <==> && r.core.status == Queued && r.info.scheduledFor <= now
            && (r.info.nextRetry.None? || r.info.nextRetry.value <= now)
            && r.info.domain in domains && domains[r.info.domain].active
            && (var d := domains[r.info.domain];
                && (caps == [] || d.required == "" || d.required in caps)
                && (d.lastRequest.None? || (dbNow / SECOND - d.lastRequest.value / SECOND) * 1000 >= d.delayMs))
  {
  }

  lemma PickIsCandidate(rows: Pages, domains: Domains, caps: seq<string>, batch: int, now: Time, dbNow: Time,
      picks: seq<Hash>, h: Hash)
    requires Picked(rows, domains, caps, batch, now, dbNow, picks) && h in picks
    ensures h in rows && Eligible(rows[h], domains, caps, now, dbNow)
  {
    PickedIsSchedule(rows, domains, caps, batch, now, dbNow, picks);
    assert h in Candidates(rows, domains, caps, now, dbNow);
  }

  /** Candidates strictly ahead of a pick leave it a place within its domain's quota. */
  lemma FewAhead(rows: Pages, domains: Domains, cand: set<Hash>, batch: int, picks: seq<Hash>, h: Hash,
      ahead: set<Hash>)
    requires Schedule(rows, domains, cand, batch, picks) && h in picks && h in rows && rows[h].info.domain in domains
    requires forall k | k in ahead ::
               && k in cand && k in rows && rows[k].info.domain == rows[h].info.domain
               && Before(rows[k].info, rows[h].info)
    ensures |ahead| < domains[rows[h].info.domain].parallel
  {
    var front := Front(rows, cand, picks, rows[h].info.domain);
    assert h in PickedOf(rows, picks, rows[h].info.domain);
    forall k | k in ahead
      ensures k in front && k != h
    {
      assert k in Part(rows, cand, rows[h].info.domain);
    }
    assert h in front;
    SubsetSize(ahead + {h}, front);
  }

  /**
   * The columns of a pick: queued and due, its domain active, polite and within the
   * capabilities, and fewer than parallel_fetches due rows of the domain with a
   * higher priority, or the same one and an earlier schedule.
   */
  lemma PickOnColumns(rows: Pages, domains: Domains, caps: seq<string>, batch: int, now: Time, dbNow: Time,
      picks: seq<Hash>, h: Hash, ahead: set<Hash>)
    requires Picked(rows, domains, caps, batch, now, dbNow, picks) && h in picks
    requires h in rows ==> forall k | k in ahead ::
               && k in rows && rows[k].info.domain == rows[h].info.domain
               && rows[k].core.status == Queued && rows[k].info.scheduledFor <= now
               && (rows[k].info.nextRetry.None? || rows[k].info.nextRetry.value <= now)
               && (|| rows[k].info.priority > rows[h].info.priority
                   || (rows[k].info.priority == rows[h].info.priority
                       && rows[k].info.scheduledFor < rows[h].info.scheduledFor))
    ensures h in rows && rows[h].core.status == Queued && rows[h].info.scheduledFor <= now
    ensures rows[h].info.nextRetry.None? || rows[h].info.nextRetry.value <= now
    ensures rows[h].info.domain in domains
    ensures var d := domains[rows[h].info.domain];
      && d.active && (caps == [] || d.required == "" || d.required in caps)
      && (d.lastRequest.None? || (dbNow / SECOND - d.lastRequest.value / SECOND) * 1000 >= d.delayMs)
      && |ahead| < d.parallel
  {
    PickIsCandidate(rows, domains, caps, batch, now, dbNow, picks, h);
    EligibleOnColumns(rows[h], domains, caps, now, dbNow);
    PickedIsSchedule(rows, domains, caps, batch, now, dbNow, picks);
    var cand := Candidates(rows, domains, caps, now, dbNow);
    forall k | k in ahead
      ensures k in cand && Before(rows[k].info, rows[h].info)
    {
      EligibleOnColumns(rows[k], domains, caps, now, dbNow);
    }
    FewAhead(rows, domains, cand, batch, picks, h, ahead);
  }

  lemma CandidatesArePlaced(rows: Pages, domains: Domains, caps: seq<string>, now: Time, dbNow: Time)
    ensures Placed(rows, domains, Candidates(rows, domains, caps, now, dbNow))
  {
  }

  lemma ChosenAreAhead(rows: Pages, domains: Domains, cand: set<Hash>, batch: int, picks: seq<Hash>, h: Hash,
      chosen: set<Hash>)
    requires Placed(rows, domains, cand) && Schedule(rows, domains, cand, batch, picks)
    requires |picks| < batch && h in cand && h !in picks
    requires chosen == PickedOf(rows, picks, rows[h].info.domain)
    ensures |chosen| >= domains[rows[h].info.domain].parallel
    ensures forall k | k in chosen :: k in rows && !Before(rows[h].info, rows[k].info)
  {
    PicksAreAhead(rows, domains, cand, batch, picks, h);
  }

  /**
   * A row that the columns admit and a batch that is not full leaves out: its domain
   * gave all it may, and to rows that are neither of lower priority nor of the same
   * one and scheduled later.
   */
  lemma LeftOutOnColumns(rows: Pages, domains: Domains, caps: seq<string>, batch: int, now: Time, dbNow: Time,
      picks: seq<Hash>, h: Hash, chosen: set<Hash>)
    requires Picked(rows, domains, caps, batch, now, dbNow, picks) && |picks| < batch && h in rows && h !in picks
    requires rows[h].core.status == Queued && rows[h].info.scheduledFor <= now
    requires rows[h].info.nextRetry.None? || rows[h].info.nextRetry.value <= now
    requires rows[h].info.domain in domains
    requires var d := domains[rows[h].info.domain];
      && d.active && (caps == [] || d.required == "" || d.required in caps)
      && (d.lastRequest.None? || (dbNow / SECOND - d.lastRequest.value / SECOND) * 1000 >= d.delayMs)
    requires forall k :: k in chosen <==> k in picks && k in rows && rows[k].info.domain == rows[h].info.domain
    ensures |chosen| >= domains[rows[h].info.domain].parallel
    ensures forall k | k in chosen ::
              || rows[k].info.priority > rows[h].info.priority
              || (rows[k].info.priority == rows[h].info.priority
                  && rows[k].info.scheduledFor <= rows[h].info.scheduledFor)
  {
    PickedIsSchedule(rows, domains, caps, batch, now, dbNow, picks);
    EligibleOnColumns(rows[h], domains, caps, now, dbNow);
    var cand := Candidates(rows, domains, caps, now, dbNow);
    CandidatesArePlaced(rows, domains, caps, now, dbNow);
    assert chosen == PickedOf(rows, picks, rows[h].info.domain);
    ChosenAreAhead(rows, domains, cand, batch, picks, h, chosen);
  }
}

/**
 * What crawl_delay_ms and parallel_fetches guarantee over whole runs, in the
 * SQLite form that compares truncated seconds.
 */
module Politeness {
  import opened Arithmetic
  import opened Wrappers
  import opened Clock
  import opened LeaseTable
  import opened FrontierModel
  import opened Scheduler
  import opened FrontierRuns

  /** Rounding up; b is positive. */
  function Ceil(a: int, b: int): int
    requires b > 0
  {
    (a + b - 1) / b
  }

  const MILLI: int := 1_000_000

  /** The delay in the whole seconds the expression can see. */
  function DelaySecs(delayMs: int): int {
    Ceil(delayMs, 1000)
  }

  function LagSecs(cfg: Config): int {
    Ceil(cfg.lag, SECOND)
  }

  /** The expression, read as a bound on seconds, and what it means in real time. */
  lemma PoliteMeans(d: Domain, dbNow: Time)
    requires d.lastRequest.Some?
    ensures Polite(d, dbNow) <==> Unix(dbNow) >= Unix(d.lastRequest.value) + DelaySecs(d.delayMs)
    ensures Polite(d, dbNow) ==> dbNow - d.lastRequest.value > (DelaySecs(d.delayMs) - 1) * SECOND
    ensures dbNow >= d.lastRequest.value + DelaySecs(d.delayMs) * SECOND ==> Polite(d, dbNow)
  {
    UnixGap(d.lastRequest.value, dbNow, DelaySecs(d.delayMs));
  }

  /**
   * When the delay is a minimum gap in milliseconds: exactly when the last request
   * came early enough in its second for rounding the delay up to make good what
   * truncating that request's time took away.
   */
  lemma DelayIsGapIff(d: Domain)
    requires d.lastRequest.Some?
    ensures (forall dbNow | Polite(d, dbNow) :: dbNow - d.lastRequest.value >= d.delayMs * MILLI)
       <==> d.lastRequest.value % SECOND <= DelaySecs(d.delayMs) * SECOND - d.delayMs * MILLI
  {
    var last := d.lastRequest.value;
    var first := (Unix(last) + DelaySecs(d.delayMs)) * SECOND;
    assert Unix(first) == Unix(last) + DelaySecs(d.delayMs);
    PoliteMeans(d, first);
    forall dbNow | Polite(d, dbNow)
      ensures dbNow >= first
    {
      PoliteMeans(d, dbNow);
    }
  }

  /** So it is not always: with a delay of 1000 ms a second reserve may follow after 1 ms. */
  lemma TruncationEatsTheGap()
    ensures var d := Domain(true, 1000, 1, Some(999_000_000), "");
      && Polite(d, 1_000_000_000) && 1_000_000_000 - d.lastRequest.value == MILLI
      && !(d.lastRequest.value % SECOND <= DelaySecs(d.delayMs) * SECOND - d.delayMs * MILLI)
  {
    assert Unix(999_000_000) == 0 && Unix(1_000_000_000) == 1;
  }

  // ----- grants of one domain over a run -------------------------------------

  /** The step leases at least one row of domain d. */
  ghost predicate GrantsFrom(w: World, s: Step, d: nat) {
    s.Reserve? && PickedOf(w.rows, s.picks, d) != {}
  }

  // Counts and hypotheses look at the part of a run after `since`, one of its
  // prefixes, or at all of it when `since` is its start.

  /** The seconds in which domain d was granted, in commit order. */
  ghost function GrantSecs(cfg: Config, since: Run, run: Run, d: nat): seq<int> {
    if run == since then []
    else
      match run
      case Start(_) => []
      case Then(before, s, _) =>
        GrantSecs(cfg, since, before, d) + if GrantsFrom(Last(cfg, before), s, d) then [Unix(s.dbNow)] else []
  }

  ghost predicate GrantsIn(w: World, s: Step, d: nat, lo: int, hi: int) {
    GrantsFrom(w, s, d) && lo <= Unix(s.dbNow) < hi
  }

  /** How many URLs of domain d were leased in the seconds lo..hi-1. */
  ghost function UrlsWithin(cfg: Config, since: Run, run: Run, d: nat, lo: int, hi: int): nat {
    if run == since then 0
    else
      match run
      case Start(_) => 0
      case Then(before, s, _) =>
        UrlsWithin(cfg, since, before, d, lo, hi)
        + if GrantsIn(Last(cfg, before), s, d, lo, hi) then |PickedOf(Last(cfg, before).rows, s.picks, d)| else 0
  }

  /** How many reserves granted from domain d in those seconds. */
  ghost function GrantsWithin(cfg: Config, since: Run, run: Run, d: nat, lo: int, hi: int): nat {
    if run == since then 0
    else
      match run
      case Start(_) => 0
      case Then(before, s, _) =>
        GrantsWithin(cfg, since, before, d, lo, hi) + if GrantsIn(Last(cfg, before), s, d, lo, hi) then 1 else 0
  }

  /** From `since` on, whenever domain d exists its two knobs have these values; it may be inserted on the way. */
  ghost predicate Steady(cfg: Config, since: Run, run: Run, d: nat, delayMs: int, parallel: int) {
    && HasKnobs(Last(cfg, run), d, delayMs, parallel)
    && (run != since && run.Then? ==> Steady(cfg, since, run.before, d, delayMs, parallel))
  }

  predicate HasKnobs(w: World, d: nat, delayMs: int, parallel: int) {
    d in w.domains ==> w.domains[d].delayMs == delayMs && w.domains[d].parallel == parallel
  }

  ghost predicate Spaced(gs: seq<int>, gap: int) {
    forall i, j | 0 <= i < j < |gs| :: gs[j] >= gs[i] + gap
  }

  /** Some pick of domain d means d was polite, and its last_request_at becomes the reserve's reading. */
  lemma GrantIsPolite(cfg: Config, w: World, s: Step, at: Time, d: nat)
    requires Enabled(cfg, w, s, at) && GrantsFrom(w, s, d)
    ensures d in w.domains && d in NextDomains(w, s)
    ensures Polite(w.domains[d], s.dbNow) && s.dbNow - cfg.lag <= s.readAt
    ensures NextDomains(w, s)[d] == w.domains[d].(lastRequest := Some(s.readAt))
    ensures |PickedOf(w.rows, s.picks, d)| <= Max0(w.domains[d].parallel)
  {
    PickedIsSchedule(w.rows, w.domains, s.caps, s.batch, s.readAt, s.dbNow, s.picks);
    ScheduleIsFair(w.rows, w.domains, Candidates(w.rows, w.domains, s.caps, s.readAt, s.dbNow), s.batch, s.picks);
    var h :| h in PickedOf(w.rows, s.picks, d);
    assert h in Candidates(w.rows, w.domains, s.caps, s.readAt, s.dbNow);
    var i :| 0 <= i < |s.picks| && s.picks[i] == h;
    assert d in DomainsOfFirst(w.rows, s.picks, |s.picks|);
  }

  lemma OnlyOwnersAreTouched(rows: Pages, picks: seq<Hash>, d: nat)
    requires AllIn(picks, rows)
    ensures d in DomainsOfFirst(rows, picks, |picks|) <==> PickedOf(rows, picks, d) != {}
  {
    forall i | 0 <= i < |picks| && rows[picks[i]].info.domain == d
      ensures picks[i] in PickedOf(rows, picks, d)
    {
    }
    forall h | h in PickedOf(rows, picks, d)
      ensures d in DomainsOfFirst(rows, picks, |picks|)
    {
      var i :| 0 <= i < |picks| && picks[i] == h;
    }
  }

  lemma OtherStepsKeepLastRequest(cfg: Config, w: World, s: Step, at: Time, d: nat)
    requires Enabled(cfg, w, s, at) && !GrantsFrom(w, s, d) && d in w.domains
    ensures d in NextDomains(w, s) && NextDomains(w, s)[d].lastRequest == w.domains[d].lastRequest
  {
    if s.Reserve? {
      OnlyOwnersAreTouched(w.rows, s.picks, d);
    }
  }

  lemma SpacedOneMore(gs: seq<int>, x: int, gap: int)
    requires gap >= 0 && Spaced(gs, gap) && (gs != [] ==> x - gs[|gs| - 1] >= gap)
    ensures Spaced(gs + [x], gap)
  {
    var all := gs + [x];
    forall i, j | 0 <= i < j < |all|
      ensures all[j] >= all[i] + gap
    {
      if j == |gs| {
        assert i < |gs| - 1 ==> gs[|gs| - 1] >= gs[i] + gap;
      } else {
        assert all[j] == gs[j] && all[i] == gs[i];
      }
    }
  }

  /** Grants lie a gap apart, and last_request_at is not older than the last of them. */
  ghost predicate Apart(cfg: Config, gs: seq<int>, domains: Domains, d: nat, gap: int) {
    && Spaced(gs, gap)
    && (gs != [] ==>
          && d in domains && domains[d].lastRequest.Some?
          && Unix(domains[d].lastRequest.value) >= gs[|gs| - 1] - LagSecs(cfg))
  }

  ghost predicate KeepsApart(cfg: Config, since: Run, run: Run, d: nat, gap: int) {
    Apart(cfg, GrantSecs(cfg, since, run, d), Last(cfg, run).domains, d, gap)
  }

  lemma GrantFollows(cfg: Config, dom: Domain, gs: seq<int>, readAt: Time, dbNow: Time)
    requires cfg.lag >= 0 && DelaySecs(dom.delayMs) >= LagSecs(cfg)
    requires Polite(dom, dbNow) && dbNow - cfg.lag <= readAt
    requires Spaced(gs, DelaySecs(dom.delayMs) - LagSecs(cfg))
    requires gs != [] ==> dom.lastRequest.Some? && Unix(dom.lastRequest.value) >= gs[|gs| - 1] - LagSecs(cfg)
    ensures Spaced(gs + [Unix(dbNow)], DelaySecs(dom.delayMs) - LagSecs(cfg))
    ensures Unix(readAt) >= Unix(dbNow) - LagSecs(cfg)
  {
    UnixGap(readAt, dbNow, LagSecs(cfg));
    if dom.lastRequest.Some? {
      PoliteMeans(dom, dbNow);
    }
    SpacedOneMore(gs, Unix(dbNow), DelaySecs(dom.delayMs) - LagSecs(cfg));
  }

  /** What one step means for one domain: a polite grant that stamps it, or an unchanged stamp. */
  ghost predicate PoliteStep(cfg: Config, w: World, s: Step, d: nat, delayMs: int) {
    if GrantsFrom(w, s, d) then
      && d in w.domains && w.domains[d].delayMs == delayMs && Polite(w.domains[d], s.dbNow)
      && s.dbNow - cfg.lag <= s.readAt
      && d in NextDomains(w, s) && NextDomains(w, s)[d].lastRequest == Some(s.readAt)
    else
      d in w.domains ==> d in NextDomains(w, s) && NextDomains(w, s)[d].lastRequest == w.domains[d].lastRequest
  }

  ghost predicate PoliteRun(cfg: Config, since: Run, run: Run, d: nat, delayMs: int) {
    run != since && run.Then? ==>
      PoliteRun(cfg, since, run.before, d, delayMs) && PoliteStep(cfg, Last(cfg, run.before), run.step, d, delayMs)
  }

  lemma StepIsPolite(cfg: Config, w: World, s: Step, at: Time, d: nat, delayMs: int, parallel: int)
    requires Enabled(cfg, w, s, at) && HasKnobs(w, d, delayMs, parallel)
    ensures PoliteStep(cfg, w, s, d, delayMs)
  {
    if GrantsFrom(w, s, d) {
      GrantIsPolite(cfg, w, s, at, d);
    } else if d in w.domains {
      OtherStepsKeepLastRequest(cfg, w, s, at, d);
    }
  }

  lemma {:induction false} RunsArePolite(cfg: Config, since: Run, run: Run, d: nat, delayMs: int, parallel: int)
    requires Legal(cfg, run) && Steady(cfg, since, run, d, delayMs, parallel)
    ensures PoliteRun(cfg, since, run, d, delayMs)
  {
    if run != since && run.Then? {
      RunsArePolite(cfg, since, run.before, d, delayMs, parallel);
      StepIsPolite(cfg, Last(cfg, run.before), run.step, run.at, d, delayMs, parallel);
    }
  }

  lemma GrantKeepsApart(
    cfg: Config, gs: seq<int>, domains: Domains, domains': Domains, d: nat, readAt: Time, dbNow: Time)
    requires d in domains && d in domains' && domains'[d].lastRequest == Some(readAt)
    requires cfg.lag >= 0 && DelaySecs(domains[d].delayMs) >= LagSecs(cfg)
    requires Polite(domains[d], dbNow) && dbNow - cfg.lag <= readAt
    requires Apart(cfg, gs, domains, d, DelaySecs(domains[d].delayMs) - LagSecs(cfg))
    ensures Apart(cfg, gs + [Unix(dbNow)], domains', d, DelaySecs(domains[d].delayMs) - LagSecs(cfg))
  {
    GrantFollows(cfg, domains[d], gs, readAt, dbNow);
  }

  lemma OtherKeepsApart(cfg: Config, gs: seq<int>, domains: Domains, domains': Domains, d: nat, gap: int)
    requires d in domains ==> d in domains' && domains'[d].lastRequest == domains[d].lastRequest
    requires Apart(cfg, gs, domains, d, gap)
    ensures Apart(cfg, gs + [], domains', d, gap)
  {
    assert gs + [] == gs;
  }

  lemma {:induction false} PoliteRunsKeepApart(cfg: Config, since: Run, run: Run, d: nat, delayMs: int)
    requires cfg.lag >= 0 && DelaySecs(delayMs) >= LagSecs(cfg) && PoliteRun(cfg, since, run, d, delayMs)
    ensures KeepsApart(cfg, since, run, d, DelaySecs(delayMs) - LagSecs(cfg))
  {
    if run != since && run.Then? {
      var w, s, gs := Last(cfg, run.before), run.step, GrantSecs(cfg, since, run.before, d);
      PoliteRunsKeepApart(cfg, since, run.before, d, delayMs);
      if GrantsFrom(w, s, d) {
        GrantKeepsApart(cfg, gs, w.domains, NextDomains(w, s), d, s.readAt, s.dbNow);
      } else {
        OtherKeepsApart(cfg, gs, w.domains, NextDomains(w, s), d, DelaySecs(delayMs) - LagSecs(cfg));
      }
    }
  }

  /** Two grants of a domain are at least the delay, less the clock lag, apart. */
  lemma GrantsAreSpaced(cfg: Config, since: Run, run: Run, d: nat, delayMs: int, parallel: int)
    requires cfg.lag >= 0 && Legal(cfg, run) && Steady(cfg, since, run, d, delayMs, parallel)
    requires DelaySecs(delayMs) >= LagSecs(cfg)
    ensures KeepsApart(cfg, since, run, d, DelaySecs(delayMs) - LagSecs(cfg))
  {
    RunsArePolite(cfg, since, run, d, delayMs, parallel);
    PoliteRunsKeepApart(cfg, since, run, d, delayMs);
  }

  // ----- counting in windows -------------------------------------------------

  ghost function CountIn(gs: seq<int>, lo: int, hi: int): nat {
    if gs == [] then 0
    else CountIn(gs[..|gs| - 1], lo, hi) + if lo <= gs[|gs| - 1] < hi then 1 else 0
  }

  lemma {:induction false} CapDoesNotMatter(gs: seq<int>, lo: int, hi: int, hi': int)
    requires forall i | 0 <= i < |gs| :: gs[i] < hi && gs[i] < hi'
    ensures CountIn(gs, lo, hi) == CountIn(gs, lo, hi')
  {
    if gs != [] {
      CapDoesNotMatter(gs[..|gs| - 1], lo, hi, hi');
    }
  }

  lemma OneMoreGap(c: nat, gap: int, from: int, to: int)
    requires c > 0 ==> (c - 1) * gap <= to - gap - from
    requires from <= to
    ensures c * gap <= to - from
  {
    assert c * gap == (c - 1) * gap + gap;
  }

  lemma {:induction false} SpacedCount(gs: seq<int>, gap: int, lo: int, hi: int)
    requires gap >= 1 && Spaced(gs, gap)
    ensures CountIn(gs, lo, hi) > 0 ==> (CountIn(gs, lo, hi) - 1) * gap <= hi - 1 - lo
  {
    if gs != [] {
      var front, x := gs[..|gs| - 1], gs[|gs| - 1];
      if lo <= x < hi {
        CapDoesNotMatter(front, lo, hi, x - gap + 1);
        SpacedCount(front, gap, lo, x - gap + 1);
        OneMoreGap(CountIn(front, lo, hi), gap, lo, x);
      } else {
        SpacedCount(front, gap, lo, hi);
      }
    }
  }

  lemma WholeSteps(c: int, gap: int, span: int)
    requires gap >= 1 && span >= 1 && (c - 1) * gap <= span - 1
    ensures c <= Ceil(span, gap)
  {
    var q := (span + gap - 1) / gap;
    assert q * gap > span - 1;
    if c - 1 >= q {
      Times(q, c - 1, gap);
    }
  }

  lemma CountInOneMore(gs: seq<int>, x: int, lo: int, hi: int)
    ensures CountIn(gs + [x], lo, hi) == CountIn(gs, lo, hi) + if lo <= x < hi then 1 else 0
  {
    assert (gs + [x])[..|gs|] == gs;
  }

  lemma {:induction false} GrantsAreCounted(cfg: Config, since: Run, run: Run, d: nat, lo: int, hi: int)
    ensures GrantsWithin(cfg, since, run, d, lo, hi) == CountIn(GrantSecs(cfg, since, run, d), lo, hi)
  {
    if run != since && run.Then? {
      GrantsAreCounted(cfg, since, run.before, d, lo, hi);
      var gs := GrantSecs(cfg, since, run.before, d);
      if GrantsFrom(Last(cfg, run.before), run.step, d) {
        CountInOneMore(gs, Unix(run.step.dbNow), lo, hi);
      } else {
        assert gs + [] == gs;
      }
    }
  }

  lemma OneMoreGrant(urls: int, c: int, parallel: int, mine: int)
    requires urls <= parallel * c && mine <= parallel
    ensures urls + mine <= parallel * (c + 1)
  {
    assert parallel * (c + 1) == parallel * c + parallel;
  }

  /** No reserve after `since` takes more than `quota` rows of domain d. */
  ghost predicate WithinQuota(cfg: Config, since: Run, run: Run, d: nat, quota: int) {
    run != since && run.Then? ==>
      && WithinQuota(cfg, since, run.before, d, quota)
      && (GrantsFrom(Last(cfg, run.before), run.step, d) ==>
            |PickedOf(Last(cfg, run.before).rows, run.step.picks, d)| <= quota)
  }

  lemma {:induction false} RunsKeepQuotas(cfg: Config, since: Run, run: Run, d: nat, delayMs: int, parallel: int)
    requires Legal(cfg, run) && Steady(cfg, since, run, d, delayMs, parallel)
    ensures WithinQuota(cfg, since, run, d, Max0(parallel))
  {
    if run != since && run.Then? {
      RunsKeepQuotas(cfg, since, run.before, d, delayMs, parallel);
      if GrantsFrom(Last(cfg, run.before), run.step, d) {
        GrantIsPolite(cfg, Last(cfg, run.before), run.step, run.at, d);
      }
    }
  }

  lemma {:induction false} UrlsPerGrant(cfg: Config, since: Run, run: Run, d: nat, quota: int, lo: int, hi: int)
    requires WithinQuota(cfg, since, run, d, quota)
    ensures UrlsWithin(cfg, since, run, d, lo, hi) <= quota * GrantsWithin(cfg, since, run, d, lo, hi)
  {
    if run != since && run.Then? {
      var before, s := run.before, run.step;
      UrlsPerGrant(cfg, since, before, d, quota, lo, hi);
      if GrantsIn(Last(cfg, before), s, d, lo, hi) {
        OneMoreGrant(UrlsWithin(cfg, since, before, d, lo, hi), GrantsWithin(cfg, since, before, d, lo, hi), quota,
                     |PickedOf(Last(cfg, before).rows, s.picks, d)|);
      }
    }
  }

  /**
   * The rate bound. As long as crawl_delay_ms and parallel_fetches of a domain stay
   * put, from any point of a run on and wherever the domain is inserted, `secs`
   * consecutive clock seconds see at most ceil(secs / gap) reserves granting from
   * it, hence at most parallel_fetches times that many of its URLs, where gap is the
   * delay in whole seconds less the clock lag.
   */
  lemma RateIsBounded(cfg: Config, since: Run, run: Run, d: nat, delayMs: int, parallel: int, lo: int, secs: int)
    requires cfg.lag >= 0 && Legal(cfg, run) && Steady(cfg, since, run, d, delayMs, parallel)
    requires DelaySecs(delayMs) > LagSecs(cfg) && secs >= 1
    ensures var bound := Ceil(secs, DelaySecs(delayMs) - LagSecs(cfg));
      && GrantsWithin(cfg, since, run, d, lo, lo + secs) <= bound
      && UrlsWithin(cfg, since, run, d, lo, lo + secs) <= Max0(parallel) * bound
  {
    GrantsAreSpaced(cfg, since, run, d, delayMs, parallel);
    RunsKeepQuotas(cfg, since, run, d, delayMs, parallel);
    SpacedRunsAreBounded(cfg, since, run, d, DelaySecs(delayMs) - LagSecs(cfg), Max0(parallel), lo, secs);
  }

  lemma SpacedRunsAreBounded(cfg: Config, since: Run, run: Run, d: nat, gap: int, quota: int, lo: int, secs: int)
    requires gap >= 1 && quota >= 0 && secs >= 1
    requires KeepsApart(cfg, since, run, d, gap) && WithinQuota(cfg, since, run, d, quota)
    ensures GrantsWithin(cfg, since, run, d, lo, lo + secs) <= Ceil(secs, gap)
    ensures UrlsWithin(cfg, since, run, d, lo, lo + secs) <= quota * Ceil(secs, gap)
  {
    var gs := GrantSecs(cfg, since, run, d);
    var c := CountIn(gs, lo, lo + secs);
    GrantsAreCounted(cfg, since, run, d, lo, lo + secs);
    SpacedCount(gs, gap, lo, lo + secs);
    if c > 0 {
      WholeSteps(c, gap, secs);
    }
    UrlsPerGrant(cfg, since, run, d, quota, lo, lo + secs);
    Scaled(c, Ceil(secs, gap), quota);
  }

  lemma Scaled(a: int, b: int, k: int)
    requires a <= b && k >= 0
    ensures k * a <= k * b
  {
  }
}

/**
 * Every run of the crawl queue: workers, sweeper, operator and enqueuers
 * interleave in any order, one committed statement or transaction at a time.
 *
 * A step commits at `at`. Clock readings used inside it may have been taken up
 * to `lag` earlier, because Reserve reads the clock before its transaction
 * starts and the token is verified before the UPDATE runs.
 */
module FrontierRuns {
  import opened Wrappers
  import opened Clock
  import opened LeaseTable
  import opened FrontierModel
  import opened Scheduler
  import opened FrontierRepository

  datatype Config = Config(ttl: Time, extend: Time, backoff: Time, lag: Time)

  datatype Step =
    | Reserve(worker: int, caps: seq<string>, batch: int, picks: seq<Hash>, readAt: Time, dbNow: Time)
    | Heartbeat(token: Token<Hash>, verifiedAt: Time, readAt: Time)
    | Complete(token: Token<Hash>, verifiedAt: Time)
    | Fail(token: Token<Hash>, retryable: bool, verifiedAt: Time, readAt: Time)
    | Sweep(readAt: Time)
    | Requeue(filter: RequeueFilter)
    | Enqueue(jobs: seq<Job>, readAt: Time)
    | EditDomain(id: nat, active: bool, delayMs: int, parallel: int, required: string)

  datatype World = World(rows: Pages, domains: Domains, clock: Time, hist: map<Hash, History<Hash>>)

  /** Runs are built forward, one timed step at a time. */
  datatype Run = Start(world: World) | Then(before: Run, step: Step, at: Time)

  predicate InWindow(cfg: Config, reading: Time, at: Time) {
    at - cfg.lag <= reading <= at
  }

  /** The clock readings a step may have taken. */
  predicate Windows(cfg: Config, s: Step, at: Time) {
    match s
    case Reserve(_, _, _, _, readAt, dbNow) => InWindow(cfg, readAt, at) && readAt <= dbNow <= at
    case Heartbeat(_, verifiedAt, readAt) => InWindow(cfg, verifiedAt, at) && verifiedAt <= readAt <= at
    case Complete(_, verifiedAt) => verifiedAt <= at
    case Fail(_, _, verifiedAt, readAt) => verifiedAt <= readAt && InWindow(cfg, readAt, at)
    case Sweep(readAt) => InWindow(cfg, readAt, at)
    case Requeue(_) => true
    case Enqueue(_, readAt) => InWindow(cfg, readAt, at)
    case EditDomain(_, _, _, _, _) => true
  }

  ghost predicate Enabled(cfg: Config, w: World, s: Step, at: Time) {
    && w.clock <= at
    && Windows(cfg, s, at)
    && (s.Reserve? ==>
          && s.batch > 0
          && LeasableAll(w.rows, w.domains, s.picks)
          && Picked(w.rows, w.domains, s.caps, s.batch, s.readAt, s.dbNow, s.picks))
  }

  function NextRows(cfg: Config, w: World, s: Step): Pages
  {
    match s
    case Reserve(worker, _, _, picks, readAt, _) =>
      if AllIn(picks, w.rows) then Leasing(w.rows, picks, worker, readAt + cfg.ttl) else w.rows
    case Heartbeat(token, verifiedAt, readAt) =>
      if Verified(token, verifiedAt) then Beating(w.rows, token.item, token, readAt + cfg.extend) else w.rows
    case Complete(token, verifiedAt) =>
      if Verified(token, verifiedAt) then Completing(w.rows, token.item, token) else w.rows
    case Fail(token, retryable, verifiedAt, readAt) =>
      if Verified(token, verifiedAt) then Failing(w.rows, token.item, token, retryable, readAt + cfg.backoff)
      else w.rows
    case Sweep(readAt) => Swept(w.rows, readAt)
    case Requeue(f) => Requeueing(w.rows, f)
    case Enqueue(jobs, readAt) => InsertingAll(w.rows, jobs, readAt)
    case EditDomain(_, _, _, _, _) => w.rows
  }

  function NextDomains(w: World, s: Step): Domains
  {
    match s
    case Reserve(_, _, _, picks, readAt, _) =>
      if AllIn(picks, w.rows) then Touching(w.domains, DomainsOfFirst(w.rows, picks, |picks|), readAt) else w.domains
    case EditDomain(id, active, delayMs, parallel, required) =>
      var last := if id in w.domains then w.domains[id].lastRequest else None;
      w.domains[id := Domain(active, delayMs, parallel, last, required)]
    case _ => w.domains
  }

  /** The act a step performs on one row. */
  function ActOn(cfg: Config, w: World, s: Step, h: Hash): Act<Hash>
    requires h in w.rows
  {
    var r := w.rows[h];
    match s
    case Reserve(worker, _, _, picks, readAt, _) =>
      if Among(h, picks, |picks|) then
        Grant(TokenFor(h, worker, readAt + cfg.ttl), readAt + cfg.ttl, readAt)
      else Idle
    case Heartbeat(token, verifiedAt, readAt) =>
      if token.item == h && Verified(token, verifiedAt) && HeldWith(r.core, token) then Beat(readAt + cfg.extend)
      else Idle
    case Complete(token, verifiedAt) =>
      if token.item == h && Verified(token, verifiedAt) && HeldWith(r.core, token) then End(Completed, Done) else Idle
    case Fail(token, retryable, verifiedAt, _) =>
      if token.item == h && Verified(token, verifiedAt) && Stores(w.rows, h, token) then
        End(GaveUp, if Retries(r, retryable) then Queued else Dead)
      else Idle
    case Sweep(readAt) => if Overdue(r.core, readAt) then End(Expired, Queued) else Idle
    case Requeue(f) => if Hits(f, r) then End(Requeued, Queued) else Idle
    case _ => Idle
  }

  function Next(cfg: Config, w: World, s: Step, at: Time): World
  {
    var rows := NextRows(cfg, w, s);
    World(rows, NextDomains(w, s), at,
          map h | h in rows ::
            if h in w.rows && h in w.hist then Track(w.hist[h], w.rows[h].core, ActOn(cfg, w, s, h)) else NewHistory())
  }

  /** A world with no lease ever granted. */
  ghost predicate Initial(w: World) {
    && w.hist.Keys == w.rows.Keys
    && forall h | h in w.rows ::
         w.rows[h].core == Unleased(Queued, 0) && w.hist[h] == NewHistory()
  }

  // ----- what every run keeps ------------------------------------------------

  ghost predicate Inv(w: World) {
    && w.hist.Keys == w.rows.Keys
    && forall h | h in w.rows :: Sound(w.rows[h].core, w.hist[h], w.rows[h].info.maxAttempts)
  }

  /** Rows move by their acts alone, and no step changes a row's domain or limit. */
  lemma StepIsActs(cfg: Config, w: World, s: Step, h: Hash)
    requires s.Reserve? ==> LeasableAll(w.rows, w.domains, s.picks)
    requires h in w.rows && Shape(w.rows[h].core)
    ensures h in NextRows(cfg, w, s)
    ensures NextRows(cfg, w, s)[h].core == Do(w.rows[h].core, ActOn(cfg, w, s, h))
    ensures Can(w.rows[h].core, ActOn(cfg, w, s, h), w.rows[h].info.maxAttempts)
    ensures NextRows(cfg, w, s)[h].info.maxAttempts == w.rows[h].info.maxAttempts
    ensures NextRows(cfg, w, s)[h].info.domain == w.rows[h].info.domain
  {
    match s
    case Reserve(worker, _, _, picks, readAt, _) =>
      LeasingAt(w.rows, picks, |picks|, worker, readAt + cfg.ttl, h);
    case Enqueue(jobs, readAt) =>
      FirstJobWins(w.rows, jobs, readAt, h);
    case _ =>
  }

  lemma NewRowsAreFresh(cfg: Config, w: World, s: Step, at: Time, h: Hash)
    requires Enabled(cfg, w, s, at) && h !in w.rows && h in NextRows(cfg, w, s)
    ensures NextRows(cfg, w, s)[h].core == Unleased(Queued, 0)
  {
    if s.Enqueue? {
      FirstJobWins(w.rows, s.jobs, s.readAt, h);
    }
  }

  lemma StepKeepsInv(cfg: Config, w: World, s: Step, at: Time)
    requires Inv(w) && Enabled(cfg, w, s, at)
    ensures Inv(Next(cfg, w, s, at))
  {
    var w' := Next(cfg, w, s, at);
    forall h | h in w'.rows
      ensures Sound(w'.rows[h].core, w'.hist[h], w'.rows[h].info.maxAttempts)
    {
      if h in w.rows {
        StepIsActs(cfg, w, s, h);
        ActKeepsSound(w.rows[h].core, w.hist[h], ActOn(cfg, w, s, h), w.rows[h].info.maxAttempts);
      } else {
        NewRowsAreFresh(cfg, w, s, at, h);
      }
    }
  }

  lemma BatchBoundsPicks(cfg: Config, w: World, s: Step, at: Time)
    requires s.Reserve? && Enabled(cfg, w, s, at)
    ensures |s.picks| <= s.batch
  {
  }

  // ----- timing --------------------------------------------------------------

  /** Every delay leaves a second, plus the clock lag, between two grants of one row. */
  predicate Paced(cfg: Config) {
    && cfg.lag >= 0
    && cfg.ttl >= SECOND + 2 * cfg.lag
    && cfg.extend >= SECOND + 2 * cfg.lag
    && cfg.backoff >= SECOND + cfg.lag
  }

  /** When the row may next be granted, and what its tokens say. */
  ghost predicate Timely(cfg: Config, clock: Time, h: Hash, c: Core<Hash>, nextRetry: Option<Time>, hi: History<Hash>) {
    && (forall i | 0 <= i < |hi.issued| :: hi.issued[i].item == h)
    && (forall i, j | 0 <= i < j < |hi.issued| :: hi.issued[i].expSec < hi.issued[j].expSec)
    && (hi.issued != [] ==> hi.grantedAt <= clock && hi.issued[|hi.issued| - 1].expSec == Unix(hi.grantedAt + cfg.ttl))
    && (c.expiresAt.Some? ==> c.expiresAt.value >= hi.grantedAt + SECOND + cfg.lag)
    && (c.status == Queued && hi.issued != [] ==>
          || (nextRetry.Some? && nextRetry.value >= hi.grantedAt + SECOND)
          || clock >= hi.grantedAt + SECOND + cfg.lag)
  }

  /** A lease is over, at the latest, one heartbeat extension and one lag after its signed expiry. */
  ghost predicate Brief(cfg: Config, c: Core<Hash>, hi: History<Hash>) {
    c.token.Some? && c.expiresAt.Some? ==>
      && c.token.value.expSec == Unix(hi.grantedAt + cfg.ttl)
      && c.expiresAt.value <= hi.grantedAt + cfg.ttl + cfg.extend + cfg.lag
  }

  /** What the clock readings of a step say about its act on one row. */
  ghost predicate WellTimed(
    cfg: Config, h: Hash, r: PageRow, nextRetry': Option<Time>, a: Act<Hash>, at: Time)
  {
    match a
    case Idle => nextRetry' == r.info.nextRetry
    case Grant(token, expires, readAt) =>
      && token.item == h && expires == readAt + cfg.ttl && token.expSec == Unix(expires)
      && InWindow(cfg, readAt, at) && Due(r.info, readAt)
    case Beat(expires) =>
      && expires >= at - cfg.lag + cfg.extend
      && r.core.token.Some? && expires <= r.core.token.value.expSec * SECOND + cfg.lag + cfg.extend
    case End(GaveUp, next) => next == Queued ==> nextRetry'.Some? && nextRetry'.value >= at - cfg.lag + cfg.backoff
    case End(Expired, _) => r.core.expiresAt.Some? && r.core.expiresAt.value < at
    case End(_, _) => true
  }

  /** An operator who requeues a row waits out the second after its last grant. */
  ghost predicate Patient(cfg: Config, w: World, s: Step, at: Time)
  {
    s.Requeue? ==>
      forall h | h in w.rows && h in w.hist && Hits(s.filter, w.rows[h]) && w.hist[h].issued != [] ::
        at >= w.hist[h].grantedAt + SECOND + cfg.lag
  }

  lemma ReserveIsWellTimed(cfg: Config, w: World, s: Step, at: Time, h: Hash)
    requires s.Reserve? && Windows(cfg, s, at) && h in w.rows
    requires LeasableAll(w.rows, w.domains, s.picks)
    requires Among(h, s.picks, |s.picks|) ==> Due(w.rows[h].info, s.readAt)
    ensures WellTimed(cfg, h, w.rows[h], NextRows(cfg, w, s)[h].info.nextRetry, ActOn(cfg, w, s, h), at)
  {
    LeasingAt(w.rows, s.picks, |s.picks|, s.worker, s.readAt + cfg.ttl, h);
  }

  lemma OtherIsWellTimed(cfg: Config, w: World, s: Step, at: Time, h: Hash)
    requires !s.Reserve? && Windows(cfg, s, at) && h in w.rows
    requires Shape(w.rows[h].core)
    ensures h in NextRows(cfg, w, s)
    ensures WellTimed(cfg, h, w.rows[h], NextRows(cfg, w, s)[h].info.nextRetry, ActOn(cfg, w, s, h), at)
  {
    if s.Enqueue? {
      FirstJobWins(w.rows, s.jobs, s.readAt, h);
    }
  }

  lemma StepIsWellTimed(cfg: Config, w: World, s: Step, at: Time, h: Hash)
    requires Inv(w) && Enabled(cfg, w, s, at) && h in w.rows
    ensures h in NextRows(cfg, w, s)
    ensures WellTimed(cfg, h, w.rows[h], NextRows(cfg, w, s)[h].info.nextRetry, ActOn(cfg, w, s, h), at)
  {
    assert Shape(w.rows[h].core);
    if s.Reserve? {
      PickIsDue(w.rows, w.domains, s.caps, s.batch, s.readAt, s.dbNow, s.picks, h);
      ReserveIsWellTimed(cfg, w, s, at, h);
    } else {
      OtherIsWellTimed(cfg, w, s, at, h);
    }
  }

  lemma PickIsDue(rows: Pages, domains: Domains, caps: seq<string>, batch: int, now: Time, dbNow: Time,
      picks: seq<Hash>, h: Hash)
    requires Picked(rows, domains, caps, batch, now, dbNow, picks)
    ensures Among(h, picks, |picks|) ==> h in rows && Eligible(rows[h], domains, caps, now, dbNow)
  {
    PickedIsSchedule(rows, domains, caps, batch, now, dbNow, picks);
    if Among(h, picks, |picks|) {
      var i :| 0 <= i < |picks| && picks[i] == h;
      assert h in picks;
      assert h in Candidates(rows, domains, caps, now, dbNow);
    }
  }

  lemma GrantKeepsTimely(
    cfg: Config, h: Hash, r: PageRow, nextRetry': Option<Time>, hi: History<Hash>, a: Act<Hash>, cap: int,
    clock: Time, at: Time)
    requires Paced(cfg) && clock <= at && a.Grant?
    requires Sound(r.core, hi, cap) && Can(r.core, a, cap)
    requires Timely(cfg, clock, h, r.core, r.info.nextRetry, hi)
    requires WellTimed(cfg, h, r, nextRetry', a, at)
    ensures Timely(cfg, at, h, Do(r.core, a), nextRetry', Track(hi, r.core, a))
  {
    if hi.issued != [] {
      UnixGap(hi.grantedAt + cfg.ttl, a.expires, 1);
    }
  }

  lemma ActKeepsTimely(
    cfg: Config, h: Hash, r: PageRow, nextRetry': Option<Time>, hi: History<Hash>, a: Act<Hash>, cap: int,
    clock: Time, at: Time)
    requires Paced(cfg) && clock <= at
    requires Sound(r.core, hi, cap) && Can(r.core, a, cap)
    requires Timely(cfg, clock, h, r.core, r.info.nextRetry, hi)
    requires WellTimed(cfg, h, r, nextRetry', a, at)
    requires a.End? && a.why == Requeued && hi.issued != [] ==> at >= hi.grantedAt + SECOND + cfg.lag
    ensures Timely(cfg, at, h, Do(r.core, a), nextRetry', Track(hi, r.core, a))
  {
    if a.Grant? {
      GrantKeepsTimely(cfg, h, r, nextRetry', hi, a, cap, clock, at);
    }
  }

  lemma ActKeepsBrief(cfg: Config, h: Hash, r: PageRow, nextRetry': Option<Time>, hi: History<Hash>, a: Act<Hash>,
      cap: int, at: Time)
    requires cfg.lag >= 0 && cfg.extend >= 0
    requires Sound(r.core, hi, cap) && Can(r.core, a, cap)
    requires Brief(cfg, r.core, hi)
    requires WellTimed(cfg, h, r, nextRetry', a, at)
    ensures Brief(cfg, Do(r.core, a), Track(hi, r.core, a))
  {
  }

  ghost predicate AllTimely(cfg: Config, w: World) {
    && w.hist.Keys == w.rows.Keys
    && forall h | h in w.rows :: Timely(cfg, w.clock, h, w.rows[h].core, w.rows[h].info.nextRetry, w.hist[h])
  }

  ghost predicate AllBrief(cfg: Config, w: World) {
    && w.hist.Keys == w.rows.Keys
    && forall h | h in w.rows :: Brief(cfg, w.rows[h].core, w.hist[h])
  }

  /** The history of a row that was there before moves by the row's act. */
  lemma NextHist(cfg: Config, w: World, s: Step, at: Time, h: Hash)
    requires h in w.rows && h in w.hist && h in NextRows(cfg, w, s)
    ensures h in Next(cfg, w, s, at).hist
    ensures Next(cfg, w, s, at).hist[h] == Track(w.hist[h], w.rows[h].core, ActOn(cfg, w, s, h))
  {
  }

  lemma RequeuedIsPatient(cfg: Config, w: World, s: Step, at: Time, h: Hash)
    requires Patient(cfg, w, s, at) && h in w.rows && h in w.hist && w.hist[h].issued != []
    requires var a := ActOn(cfg, w, s, h); a.End? && a.why == Requeued
    ensures at >= w.hist[h].grantedAt + SECOND + cfg.lag
  {
    assert s.Requeue? && Hits(s.filter, w.rows[h]);
  }

  lemma RowStaysTimely(cfg: Config, w: World, s: Step, at: Time, h: Hash)
    requires Paced(cfg) && Inv(w) && AllTimely(cfg, w) && h in w.rows
    requires Enabled(cfg, w, s, at) && Patient(cfg, w, s, at)
    ensures h in NextRows(cfg, w, s) && h in Next(cfg, w, s, at).hist
    ensures Timely(cfg, at, h, NextRows(cfg, w, s)[h].core, NextRows(cfg, w, s)[h].info.nextRetry,
              Next(cfg, w, s, at).hist[h])
  {
    StepIsActs(cfg, w, s, h);
    StepIsWellTimed(cfg, w, s, at, h);
    NextHist(cfg, w, s, at, h);
    var r, hi, a := w.rows[h], w.hist[h], ActOn(cfg, w, s, h);
    assert Sound(r.core, hi, r.info.maxAttempts);
    assert Timely(cfg, w.clock, h, r.core, r.info.nextRetry, hi);
    if a.End? && a.why == Requeued && hi.issued != [] {
      RequeuedIsPatient(cfg, w, s, at, h);
    }
    ActKeepsTimely(cfg, h, r, NextRows(cfg, w, s)[h].info.nextRetry, hi, a, r.info.maxAttempts, w.clock, at);
  }

  lemma StepKeepsTimely(cfg: Config, w: World, s: Step, at: Time)
    requires Paced(cfg) && Inv(w) && AllTimely(cfg, w)
    requires Enabled(cfg, w, s, at) && Patient(cfg, w, s, at)
    ensures AllTimely(cfg, Next(cfg, w, s, at))
  {
    var w' := Next(cfg, w, s, at);
    forall h | h in w'.rows
      ensures Timely(cfg, at, h, w'.rows[h].core, w'.rows[h].info.nextRetry, w'.hist[h])
    {
      if h in w.rows {
        RowStaysTimely(cfg, w, s, at, h);
      } else {
        NewRowsAreFresh(cfg, w, s, at, h);
      }
    }
  }

  lemma StepKeepsBrief(cfg: Config, w: World, s: Step, at: Time)
    requires cfg.lag >= 0 && cfg.extend >= 0 && Inv(w) && AllBrief(cfg, w)
    requires Enabled(cfg, w, s, at)
    ensures AllBrief(cfg, Next(cfg, w, s, at))
  {
    var w' := Next(cfg, w, s, at);
    forall h | h in w'.rows
      ensures Brief(cfg, w'.rows[h].core, w'.hist[h])
    {
      if h in w.rows {
        StepIsActs(cfg, w, s, h);
        StepIsWellTimed(cfg, w, s, at, h);
        var r, a := w.rows[h], ActOn(cfg, w, s, h);
        ActKeepsBrief(cfg, h, r, w'.rows[h].info.nextRetry, w.hist[h], a, r.info.maxAttempts, at);
      } else {
        NewRowsAreFresh(cfg, w, s, at, h);
      }
    }
  }

  // ----- whole runs ----------------------------------------------------------

  ghost function Last(cfg: Config, run: Run): World {
    match run
    case Start(w) => w
    case Then(before, s, at) => Next(cfg, Last(cfg, before), s, at)
  }

  /** A run from a world without leases in which every step was enabled. */
  ghost predicate Legal(cfg: Config, run: Run) {
    match run
    case Start(w) => Initial(w)
    case Then(before, s, at) => Legal(cfg, before) && Enabled(cfg, Last(cfg, before), s, at)
  }

  /** Every requeue in the run is patient. */
  ghost predicate PatientRun(cfg: Config, run: Run) {
    match run
    case Start(_) => true
    case Then(before, s, at) => PatientRun(cfg, before) && Patient(cfg, Last(cfg, before), s, at)
  }

  /** Lease shape, conservation and the attempt budget, for every run, operator requeues included. */
  lemma {:induction false} EveryRunIsSound(cfg: Config, run: Run)
    requires Legal(cfg, run)
    ensures Inv(Last(cfg, run))
  {
    if run.Then? {
      EveryRunIsSound(cfg, run.before);
      StepKeepsInv(cfg, Last(cfg, run.before), run.step, run.at);
    }
  }

  lemma {:induction false} EveryRunIsTimely(cfg: Config, run: Run)
    requires Paced(cfg) && Legal(cfg, run) && PatientRun(cfg, run)
    ensures AllTimely(cfg, Last(cfg, run))
  {
    if run.Then? {
      EveryRunIsTimely(cfg, run.before);
      EveryRunIsSound(cfg, run.before);
      StepKeepsTimely(cfg, Last(cfg, run.before), run.step, run.at);
    }
  }

  lemma {:induction false} EveryRunIsBrief(cfg: Config, run: Run)
    requires cfg.lag >= 0 && cfg.extend >= 0 && Legal(cfg, run)
    ensures AllBrief(cfg, Last(cfg, run))
  {
    if run.Then? {
      EveryRunIsBrief(cfg, run.before);
      EveryRunIsSound(cfg, run.before);
      StepKeepsBrief(cfg, Last(cfg, run.before), run.step, run.at);
    }
  }

  // ----- main results --------------------------------------------------------

  predicate Presents(s: Step, token: Token<Hash>) {
    || (s.Heartbeat? && s.token == token)
    || (s.Complete? && s.token == token)
    || (s.Fail? && s.token == token)
  }

  /** The clock reading at which the token's expiry was checked. */
  function VerifiedAt(s: Step): Time
    requires s.Heartbeat? || s.Complete? || s.Fail?
  {
    s.verifiedAt
  }

  /** Presenting a token that the named row does not store changes no row. */
  lemma StrayTokenIsInert(cfg: Config, w: World, s: Step, token: Token<Hash>)
    requires Presents(s, token)
    requires token.item in w.rows ==> w.rows[token.item].core.token != Some(token)
    ensures NextRows(cfg, w, s) == w.rows
  {
  }

  /** The same rows, and at most row h differs. */
  ghost predicate OnlyMoves(rows: Pages, rows': Pages, h: Hash) {
    rows'.Keys == rows.Keys && forall k | k in rows && k != h :: rows'[k] == rows[k]
  }

  /** A step that presents a token touches no row but the one the token names. */
  lemma TokenStepFrames(cfg: Config, w: World, s: Step, token: Token<Hash>)
    requires Presents(s, token)
    ensures OnlyMoves(w.rows, NextRows(cfg, w, s), token.item)
  {
  }

  /**
   * Stale leases are dead. In any paced run the tokens issued for one URL carry
   * strictly increasing expiry seconds, and presenting any token but the last
   * issued one changes nothing, whatever the clocks say.
   */
  lemma SupersededTokenIsDead(cfg: Config, run: Run, w: World, h: Hash, i: nat, s: Step)
    requires Paced(cfg) && Legal(cfg, run) && PatientRun(cfg, run) && w == Last(cfg, run)
    requires h in w.hist && i + 1 < |w.hist[h].issued|
    requires Presents(s, w.hist[h].issued[i])
    ensures forall j | i < j < |w.hist[h].issued| :: w.hist[h].issued[i].expSec < w.hist[h].issued[j].expSec
    ensures NextRows(cfg, w, s) == w.rows
  {
    EveryRunIsTimely(cfg, run);
    EveryRunIsSound(cfg, run);
    var r, hi := w.rows[h], w.hist[h];
    assert Timely(cfg, w.clock, h, r.core, r.info.nextRetry, hi);
    assert Sound(r.core, hi, r.info.maxAttempts);
    StrayTokenIsInert(cfg, w, s, hi.issued[i]);
  }

  /** Issued tokens are never forgotten, so a superseded token stays superseded in every continuation. */
  lemma {:induction false} IssuedOnlyGrows(cfg: Config, run: Run, more: Run, h: Hash)
    requires Legal(cfg, more) && Continues(run, more)
    requires h in Last(cfg, run).hist
    ensures h in Last(cfg, more).hist && Last(cfg, run).hist[h].issued <= Last(cfg, more).hist[h].issued
  {
    if run != more {
      IssuedOnlyGrows(cfg, run, more.before, h);
      EveryRunIsSound(cfg, more.before);
      StepIsActs(cfg, Last(cfg, more.before), more.step, h);
    }
  }

  ghost predicate Continues(run: Run, more: Run) {
    run == more || (more.Then? && Continues(run, more.before))
  }

  /**
   * A token that changes anything is the one now stored, the last one issued, inside its
   * signed expiry; no other row moves.
   */
  lemma OnlyTheHolderActs(cfg: Config, run: Run, w: World, s: Step, token: Token<Hash>)
    requires Legal(cfg, run) && w == Last(cfg, run)
    requires Presents(s, token) && NextRows(cfg, w, s) != w.rows
    ensures var h := token.item;
      && h in w.rows && h in w.hist && HeldWith(w.rows[h].core, token) && Verified(token, VerifiedAt(s))
      && w.hist[h].issued != [] && w.hist[h].issued[|w.hist[h].issued| - 1] == token
    ensures OnlyMoves(w.rows, NextRows(cfg, w, s), token.item)
  {
    EveryRunIsSound(cfg, run);
    HolderOnly(cfg, w, s, token);
  }

  /** Completing acts exactly when the row is leased under the token and its signed second has not passed. */
  lemma CompleteActsIff(cfg: Config, w: World, token: Token<Hash>, verifiedAt: Time)
    ensures NextRows(cfg, w, Complete(token, verifiedAt)) != w.rows
       <==> && token.item in w.rows && w.rows[token.item].core.status == Leased
            && w.rows[token.item].core.token == Some(token) && verifiedAt <= token.expSec * SECOND
  {
    var rows' := NextRows(cfg, w, Complete(token, verifiedAt));
    if token.item in w.rows && HeldWith(w.rows[token.item].core, token) && Verified(token, verifiedAt) {
      assert rows'[token.item].core.status == Done;
    }
  }

  lemma HolderOnly(cfg: Config, w: World, s: Step, token: Token<Hash>)
    requires Inv(w) && Presents(s, token) && NextRows(cfg, w, s) != w.rows
    ensures var h := token.item;
      && h in w.rows && h in w.hist && HeldWith(w.rows[h].core, token) && Verified(token, VerifiedAt(s))
      && w.hist[h].issued != [] && w.hist[h].issued[|w.hist[h].issued| - 1] == token
    ensures OnlyMoves(w.rows, NextRows(cfg, w, s), token.item)
  {
    TokenStepFrames(cfg, w, s, token);
    if token.item !in w.rows || w.rows[token.item].core.token != Some(token) {
      StrayTokenIsInert(cfg, w, s, token);
    } else {
      assert Sound(w.rows[token.item].core, w.hist[token.item], w.rows[token.item].info.maxAttempts);
    }
  }

  /**
   * Lease lifetime. However often the holder heartbeats, the stored expiry never
   * passes grant + TTL + extension + lag, so a sweep reading later requeues the row.
   */
  lemma LeaseLifetimeIsBounded(cfg: Config, run: Run, w: World, h: Hash, readAt: Time)
    requires cfg.lag >= 0 && cfg.extend >= 0 && Legal(cfg, run) && w == Last(cfg, run)
    requires h in w.rows && h in w.hist && w.rows[h].core.status == Leased
    ensures var c := w.rows[h].core;
      var limit := w.hist[h].grantedAt + cfg.ttl + cfg.extend + cfg.lag;
      && c.expiresAt.Some? && c.expiresAt.value <= limit
      && (readAt > limit ==> Swept(w.rows, readAt)[h].core == Unleased(Queued, c.attempts))
  {
    EveryRunIsBrief(cfg, run);
    EveryRunIsSound(cfg, run);
    assert Brief(cfg, w.rows[h].core, w.hist[h]) && Sound(w.rows[h].core, w.hist[h], w.rows[h].info.maxAttempts);
  }

  /** A URL is leased at most max(1, max_attempts) times, plus once per sweep and per requeue it suffered. */
  lemma AttemptsAreBudgeted(cfg: Config, run: Run, w: World, h: Hash)
    requires Legal(cfg, run) && w == Last(cfg, run) && h in w.rows && h in w.hist
    ensures var t := w.hist[h].tally; var max := w.rows[h].info.maxAttempts;
      && |w.hist[h].issued| == t.granted == w.rows[h].core.attempts
      && t.granted <= (if max < 1 then 1 else max) + t.expired + t.requeued
      && (t.expired == 0 && t.requeued == 0 ==> t.granted + t.completed + t.gaveUp <= 2 * if max < 1 then 1 else max)
      && t.granted == t.completed + t.gaveUp + t.expired + t.requeuedHeld
                      + if w.rows[h].core.status == Leased then 1 else 0
  {
    EveryRunIsSound(cfg, run);
    assert Sound(w.rows[h].core, w.hist[h], w.rows[h].info.maxAttempts);
  }

  predicate OverdrawnBy(cfg: Config, w: World, s: Step, h: Hash) {
    h in w.rows && Overdraws(w.rows[h].core, ActOn(cfg, w, s, h), w.rows[h].info.maxAttempts)
  }

  /** No step of the run requeues row h, by a sweep or by the operator, when its attempts are used up. */
  ghost predicate NeverOverdrawn(cfg: Config, run: Run, h: Hash) {
    match run
    case Start(_) => true
    case Then(before, s, _) => NeverOverdrawn(cfg, before, h) && !OverdrawnBy(cfg, Last(cfg, before), s, h)
  }

  /** In every world of the run row h is within its limit, and queued only below it. */
  ghost predicate AlwaysUnderLimit(cfg: Config, run: Run, h: Hash) {
    && (h in Last(cfg, run).rows ==> UnderLimit(Last(cfg, run).rows[h].core, Last(cfg, run).rows[h].info.maxAttempts))
    && (run.Then? ==> AlwaysUnderLimit(cfg, run.before, h))
  }

  /** The attempt limit holds throughout a run exactly when no sweep or requeue hit the row at its limit. */
  lemma {:induction false} AttemptLimitIff(cfg: Config, run: Run, h: Hash)
    requires Legal(cfg, run)
    ensures AlwaysUnderLimit(cfg, run, h) <==> NeverOverdrawn(cfg, run, h)
  {
    match run
    case Start(_) =>
    case Then(before, s, at) =>
      AttemptLimitIff(cfg, before, h);
      EveryRunIsSound(cfg, before);
      if AlwaysUnderLimit(cfg, before, h) {
        StepUnderLimitIff(cfg, Last(cfg, before), s, at, h);
      }
  }

  lemma StepUnderLimitIff(cfg: Config, w: World, s: Step, at: Time, h: Hash)
    requires Inv(w) && Enabled(cfg, w, s, at)
    requires h in w.rows ==> UnderLimit(w.rows[h].core, w.rows[h].info.maxAttempts)
    ensures var rows := NextRows(cfg, w, s);
      (h in rows ==> UnderLimit(rows[h].core, rows[h].info.maxAttempts)) <==> !OverdrawnBy(cfg, w, s, h)
  {
    if h in w.rows {
      assert Sound(w.rows[h].core, w.hist[h], w.rows[h].info.maxAttempts);
      StepIsActs(cfg, w, s, h);
      UnderLimitIff(w.rows[h].core, ActOn(cfg, w, s, h), w.rows[h].info.maxAttempts);
    } else if h in NextRows(cfg, w, s) {
      NewRowsAreFresh(cfg, w, s, at, h);
    }
  }

  /** A row overdrawn is queued with no attempt left, and whichever reserve picks it next passes the limit. */
  lemma NextGrantPassesLimit(cfg: Config, w: World, s: Step, at: Time, h: Hash, w': World, again: Step, at': Time)
    requires Inv(w) && Enabled(cfg, w, s, at) && OverdrawnBy(cfg, w, s, h)
    requires Inv(w') && h in w'.rows && h in NextRows(cfg, w, s) && w'.rows[h] == NextRows(cfg, w, s)[h]
    requires Enabled(cfg, w', again, at') && again.Reserve? && Among(h, again.picks, |again.picks|)
    ensures NextRows(cfg, w, s)[h].core.status == Queued
    ensures h in NextRows(cfg, w', again)
              && NextRows(cfg, w', again)[h].core.attempts > Limit(w.rows[h].info.maxAttempts)
  {
    assert Sound(w.rows[h].core, w.hist[h], w.rows[h].info.maxAttempts);
    assert Sound(w'.rows[h].core, w'.hist[h], w'.rows[h].info.maxAttempts);
    StepIsActs(cfg, w, s, h);
    StepIsActs(cfg, w', again, h);
  }

  function Max(a: int, b: int): int { if a < b then b else a }

  /** So attempt_count <= max_attempts is no invariant, whatever the configuration: one sweep is enough. */
  lemma SweepsOutrunMaxAttempts(cfg: Config)
    requires cfg.lag >= 0
    ensures exists run :: Legal(cfg, run) && 0 in Last(cfg, run).rows
              && Last(cfg, run).rows[0].core.attempts > Last(cfg, run).rows[0].info.maxAttempts == 1
  {
    var page := Row(Unleased(Queued, 0), Page(1, 0, 1, None, 0));
    var w0 := World(map[0 := page], map[1 := Domain(true, 0, 1, None, "")], 0, map[0 := NewHistory()]);
    var late := Max(cfg.ttl, 0) + 1;
    var grant, again := Reserve(7, [], 1, [0], 0, 0), Reserve(7, [], 1, [0], late, late);
    var r0 := Start(w0);
    ReserveOnlyRow(cfg, w0, 7, 0);
    var r1 := Extend(cfg, r0, grant, 0);
    var w1 := Next(cfg, w0, grant, 0);
    SweepOnlyRow(cfg, w1, late);
    var r2 := Extend(cfg, r1, Sweep(late), late);
    var w2 := Next(cfg, w1, Sweep(late), late);
    ReserveOnlyRow(cfg, w2, 7, late);
    var r3 := Extend(cfg, r2, again, late);
  }

  lemma Extend(cfg: Config, run: Run, s: Step, at: Time) returns (more: Run)
    requires Legal(cfg, run) && Enabled(cfg, Last(cfg, run), s, at)
    ensures more == Then(run, s, at) && Legal(cfg, more)
    ensures Last(cfg, more) == Next(cfg, Last(cfg, run), s, at)
  {
    more := Then(run, s, at);
  }

  lemma SweepOnlyRow(cfg: Config, w: World, t: Time)
    requires w.rows.Keys == {0} && Overdue(w.rows[0].core, t)
    ensures Next(cfg, w, Sweep(t), t).rows == map[0 := w.rows[0].(core := Cleared(w.rows[0].core, Queued))]
    ensures Next(cfg, w, Sweep(t), t).domains == w.domains && Next(cfg, w, Sweep(t), t).clock == t
  {
  }

  lemma ReserveOnlyRow(cfg: Config, w: World, worker: int, t: Time)
    requires cfg.lag >= 0 && w.clock <= t
    requires w.rows.Keys == {0} && w.rows[0].core.status == Queued && Due(w.rows[0].info, t)
    requires w.rows[0].info.domain == 1 && w.domains.Keys == {1}
    requires var d := w.domains[1];
      && d.active && d.delayMs == 0 && d.parallel == 1
      && (d.lastRequest.Some? ==> d.lastRequest.value <= t)
    ensures Enabled(cfg, w, Reserve(worker, [], 1, [0], t, t), t)
    ensures NextRows(cfg, w, Reserve(worker, [], 1, [0], t, t))
              == map[0 := LeasedRow(w.rows[0], 0, worker, t + cfg.ttl)]
    ensures NextDomains(w, Reserve(worker, [], 1, [0], t, t)) == map[1 := w.domains[1].(lastRequest := Some(t))]
  {
    if w.domains[1].lastRequest.Some? {
      UnixGap(w.domains[1].lastRequest.value, t, 0);
    }
    OnlyRowIsPicked(w, t, t);
    NextOfOnlyRow(cfg, w, worker, t);
  }

  lemma NextOfOnlyRow(cfg: Config, w: World, worker: int, t: Time)
    requires w.rows.Keys == {0} && w.rows[0].info.domain == 1 && w.domains.Keys == {1}
    ensures NextRows(cfg, w, Reserve(worker, [], 1, [0], t, t))
              == map[0 := LeasedRow(w.rows[0], 0, worker, t + cfg.ttl)]
    ensures NextDomains(w, Reserve(worker, [], 1, [0], t, t)) == map[1 := w.domains[1].(lastRequest := Some(t))]
  {
    OnlyRowIsLeased(w.rows, w.domains, worker, t + cfg.ttl, t);
  }

  lemma OnlyRowIsLeased(rows: Pages, domains: Domains, worker: int, expires: Time, now: Time)
    requires rows.Keys == {0} && rows[0].info.domain == 1 && domains.Keys == {1}
    ensures AllIn([0], rows)
    ensures Leasing(rows, [0], worker, expires) == map[0 := LeasedRow(rows[0], 0, worker, expires)]
    ensures Touching(domains, DomainsOfFirst(rows, [0], 1), now) == map[1 := domains[1].(lastRequest := Some(now))]
  {
    LeasingAt(rows, [0], 1, worker, expires, 0);
    assert [0][0] == 0;
    assert Among(0, [0], 1);
    assert DomainsOfFirst(rows, [0], 1) == {1};
  }

  lemma OnlyRowIsPicked(w: World, now: Time, dbNow: Time)
    requires w.rows.Keys == {0} && w.rows[0].core.status == Queued && Due(w.rows[0].info, now)
    requires w.rows[0].info.domain in w.domains
    requires var d := w.domains[w.rows[0].info.domain]; d.active && Polite(d, dbNow) && d.parallel == 1
    ensures LeasableAll(w.rows, w.domains, [0])
    ensures Picked(w.rows, w.domains, [], 1, now, dbNow, [0])
  {
    var cand := Candidates(w.rows, w.domains, [], now, dbNow);
    assert cand == {0};
    assert Part(w.rows, cand, w.rows[0].info.domain) == {0};
    assert Answer(w.rows, w.domains, cand, 1, map[0 := 1], [0]);
  }
}

/**
 * The concurrency cap. A reserve request first counts the worker's leases over
 * the three queues and only then leases, so requests of one worker can race;
 * the registry below runs the three queues side by side with the requests in
 * flight between their count and their lease.
 */
module Headroom {
  import opened Wrappers
  import opened Clock
  import opened LeaseTable
  import opened Arithmetic
  import opened Finite
  import F = FrontierRuns
  import FrontierModel
  import C = ChunkRuns
  import ChunkModel
  import T = TaskRuns
  import TaskModel

  /** effectiveBatch: the requested batch cut down to the worker's remaining headroom. */
  function Effective(max: int, held: nat, requested: int): (batch: int)
    ensures max > 0 ==> 0 <= batch <= max && (batch > 0 ==> held + batch <= max)
  {
    var wanted := if requested <= 0 then 1 else requested;
    if max <= 0 then wanted
    else
      var rem := if max - held < 0 then 0 else max - held;
      if rem > wanted then wanted else rem
  }

  /**
   * The batch a worker may still lease, given the leases it holds: none at the cap, else
   * its request cut to what remains.
   */
  method EffectiveBatch(max: int, held: nat, requested: int) returns (batch: int)
    ensures batch == Effective(max, held, requested)
    ensures max <= 0 ==> batch == if requested <= 0 then 1 else requested
    ensures max > 0 && held >= max ==> batch == 0
    ensures max > 0 && held < max ==>
              1 <= batch <= max - held && (batch == requested || batch == max - held || (requested <= 0 && batch == 1))
  {
    var wanted := requested;
    if wanted <= 0 {
      wanted := 1;
    }
    if max <= 0 {
      return wanted;
    }
    var rem := max - held;
    if rem < 0 {
      rem := 0;
    }
    if rem > wanted {
      rem := wanted;
    }
    batch := rem;
  }

  /** A request that has counted and not yet leased. */
  datatype Ticket = Ticket(worker: int, batch: int)

  datatype Config = Config(crawl: F.Config, embedTtl: Time)

  datatype World = World(crawl: F.World, embed: C.World, tasks: T.World, tickets: seq<Ticket>)

  /** Crawl, Embed and Task carry a step of their queue; a reserve step uses up the ticket at index i. */
  datatype Step =
    | Count(worker: int, max: int, requested: int)
    | Drop(i: nat)
    | Crawl(crawl: F.Step, at: Time, i: nat)
    | Embed(embed: C.Step, i: nat)
    | Work(work: T.Step, i: nat)

  datatype Run = Start(world: World) | Then(before: Run, step: Step)

  /** CountHeldLeases. */
  function Held(w: World, worker: int): nat {
    |HeldBy(w.crawl.rows, worker)| + |HeldBy(w.tasks.rows, worker)| + |HeldBy(w.embed.rows, worker)|
  }

  function Outstanding(tickets: seq<Ticket>, worker: int): int {
    if tickets == [] then 0
    else Outstanding(tickets[..|tickets| - 1], worker)
         + if tickets[|tickets| - 1].worker == worker then tickets[|tickets| - 1].batch else 0
  }

  function InFlight(tickets: seq<Ticket>, worker: int): nat {
    if tickets == [] then 0
    else InFlight(tickets[..|tickets| - 1], worker) + if tickets[|tickets| - 1].worker == worker then 1 else 0
  }

  function Without(tickets: seq<Ticket>, i: nat): seq<Ticket>
    requires i < |tickets|
  {
    tickets[..i] + tickets[i + 1..]
  }

  /** The worker and batch of a queue step that reserves. */
  function Asks(s: Step): Option<Ticket> {
    match s
    case Crawl(r, _, _) => if r.Reserve? then Some(Ticket(r.worker, r.batch)) else None
    case Embed(r, _) => if r.Reserve? then Some(Ticket(r.worker, r.batch)) else None
    case Work(r, _) => if r.Reserve? then Some(Ticket(r.worker, r.batch)) else None
    case _ => None
  }

  function TicketIndex(s: Step): nat
    requires !s.Count?
  {
    s.i
  }

  ghost predicate Enabled(cfg: Config, w: World, s: Step) {
    && (Asks(s).Some? ==>
          && TicketIndex(s) < |w.tickets| && w.tickets[TicketIndex(s)] == Asks(s).value
          && Asks(s).value.batch > 0)
    && match s
       case Count(_, _, _) => true
       case Drop(i) => i < |w.tickets|
       case Crawl(f, at, _) => F.Enabled(cfg.crawl, w.crawl, f, at)
       case Embed(c, _) => C.Enabled(w.embed, c)
       case Work(t, _) =>
         && T.Enabled(w.tasks, t)
         && (t.Requeue? ==>
               forall k | k in w.tasks.hands && k in w.tasks.rows :: !TaskModel.HitsTask(t.filter, w.tasks.rows[k]))
  }

  function Spent(w: World, s: Step): seq<Ticket> {
    if (s.Drop? || Asks(s).Some?) && TicketIndex(s) < |w.tickets| then Without(w.tickets, TicketIndex(s)) else w.tickets
  }

  function Next(cfg: Config, w: World, s: Step): World {
    match s
    case Count(worker, max, requested) =>
      var batch := Effective(max, Held(w, worker), requested);
      if batch == 0 then w else w.(tickets := w.tickets + [Ticket(worker, batch)])
    case Drop(_) => w.(tickets := Spent(w, s))
    case Crawl(f, at, _) => w.(crawl := F.Next(cfg.crawl, w.crawl, f, at), tickets := Spent(w, s))
    case Embed(c, _) => w.(embed := C.Next(cfg.embedTtl, w.embed, c), tickets := Spent(w, s))
    case Work(t, _) => w.(tasks := T.Next(w.tasks, t), tickets := Spent(w, s))
  }

  ghost function Last(cfg: Config, run: Run): World {
    match run
    case Start(w) => w
    case Then(before, s) => Next(cfg, Last(cfg, before), s)
  }

  ghost predicate Initial(w: World) {
    F.Initial(w.crawl) && C.Initial(w.embed) && T.Initial(w.tasks) && w.tickets == []
  }

  /** The worker's cap is max at every count, and at most k of its requests are in flight. */
  ghost predicate Capped(w: World, s: Step, w': World, worker: int, max: int, k: int) {
    && (s.Count? && s.worker == worker ==> s.max == max)
    && InFlight(w'.tickets, worker) <= k
  }

  ghost predicate Legal(cfg: Config, run: Run, worker: int, max: int, k: int) {
    match run
    case Start(w) => Initial(w)
    case Then(before, s) =>
      && Legal(cfg, before, worker, max, k)
      && Enabled(cfg, Last(cfg, before), s)
      && Capped(Last(cfg, before), s, Next(cfg, Last(cfg, before), s), worker, max, k)
  }

  // ----- one queue step moves the count of held leases by its picks at most ---

  lemma HeldGrowsBy<K, I>(rows: Table<K, I>, rows': Table<K, I>, worker: int, extra: set<K>)
    requires HeldBy(rows', worker) <= HeldBy(rows, worker) + extra
    ensures |HeldBy(rows', worker)| <= |HeldBy(rows, worker)| + |extra|
  {
    var before, after := HeldBy(rows, worker), HeldBy(rows', worker);
    SubsetSize(after, before + (extra - before));
    SubsetSize(extra - before, extra);
    assert before + (extra - before) == before + extra;
  }

  function PickSet<K>(picks: seq<K>): set<K> {
    set i | 0 <= i < |picks| :: picks[i]
  }

  lemma {:induction false} PickSetSize<K>(picks: seq<K>)
    ensures |PickSet(picks)| <= |picks|
  {
    if picks != [] {
      var front := picks[..|picks| - 1];
      PickSetSize(front);
      assert PickSet(picks) == PickSet(front) + {picks[|picks| - 1]};
    }
  }

  lemma CrawlHeldRow(cfg: F.Config, w: F.World, s: F.Step, at: Time, worker: int, h: FrontierModel.Hash)
    requires F.Inv(w) && F.Enabled(cfg, w, s, at) && h in HeldBy(F.NextRows(cfg, w, s), worker)
    ensures h in HeldBy(w.rows, worker) || (s.Reserve? && s.worker == worker && h in PickSet(s.picks))
  {
    if h in w.rows {
      assert Sound(w.rows[h].core, w.hist[h], w.rows[h].info.maxAttempts);
      F.StepIsActs(cfg, w, s, h);
    } else {
      F.NewRowsAreFresh(cfg, w, s, at, h);
    }
  }

  lemma CrawlHeld(cfg: F.Config, w: F.World, s: F.Step, at: Time, worker: int)
    requires F.Inv(w) && F.Enabled(cfg, w, s, at)
    ensures |HeldBy(F.NextRows(cfg, w, s), worker)|
         <= |HeldBy(w.rows, worker)| + if s.Reserve? && s.worker == worker then s.batch else 0
  {
    var rows' := F.NextRows(cfg, w, s);
    var extra := if s.Reserve? && s.worker == worker then PickSet(s.picks) else {};
    forall h | h in HeldBy(rows', worker)
      ensures h in HeldBy(w.rows, worker) + extra
    {
      CrawlHeldRow(cfg, w, s, at, worker, h);
    }
    HeldGrowsBy(w.rows, rows', worker, extra);
    if s.Reserve? {
      PickSetSize(s.picks);
      F.BatchBoundsPicks(cfg, w, s, at);
    }
  }

  lemma EmbedHeldRow(ttl: Time, w: C.World, s: C.Step, worker: int, k: ChunkModel.ChunkId)
    requires C.Inv(ttl, w) && C.Enabled(w, s) && k in HeldBy(C.NextRows(ttl, w, s), worker)
    ensures k in HeldBy(w.rows, worker) || (s.Reserve? && s.worker == worker && k in PickSet(s.picks))
  {
    if k in w.rows && !C.Deletes(w, s, k) {
      assert C.SoundPiece(ttl, k, w.rows[k].core, w.hist[k]);
      C.StepIsActs(ttl, w, s, k);
    } else {
      C.NewRowsAreFresh(ttl, w, s, k);
    }
  }

  lemma EmbedHeld(ttl: Time, w: C.World, s: C.Step, worker: int)
    requires C.Inv(ttl, w) && C.Enabled(w, s)
    ensures |HeldBy(C.NextRows(ttl, w, s), worker)|
         <= |HeldBy(w.rows, worker)| + if s.Reserve? && s.worker == worker then s.batch else 0
  {
    var rows' := C.NextRows(ttl, w, s);
    var extra := if s.Reserve? && s.worker == worker then PickSet(s.picks) else {};
    forall k | k in HeldBy(rows', worker)
      ensures k in HeldBy(w.rows, worker) + extra
    {
      EmbedHeldRow(ttl, w, s, worker, k);
    }
    HeldGrowsBy(w.rows, rows', worker, extra);
    if s.Reserve? {
      PickSetSize(s.picks);
    }
  }

  lemma WorkReserveHeld(w: T.World, s: T.Step, worker: int)
    requires s.Reserve? && s.batch > 0
    ensures |HeldBy(T.NextRows(w, s), worker)| <= |HeldBy(w.rows, worker)| + if s.worker == worker then s.batch else 0
  {
    var rows' := T.NextRows(w, s);
    var picks := TaskModel.Picks(w.rows, s.kinds, s.batch);
    var extra := if s.worker == worker then PickSet(picks) else {};
    TaskModel.PicksAreQueued(w.rows, s.kinds, s.batch);
    forall k | k in HeldBy(rows', worker)
      ensures k in HeldBy(w.rows, worker) + extra
    {
      LeasingAt(w.rows, picks, |picks|, s.worker, s.expires, k);
    }
    HeldGrowsBy(w.rows, rows', worker, extra);
    PickSetSize(picks);
  }

  lemma WorkHeld(w: T.World, s: T.Step, worker: int)
    requires T.Inv(w) && T.Enabled(w, s)
    requires s.Reserve? ==> s.batch > 0
    ensures |HeldBy(T.NextRows(w, s), worker)|
         <= |HeldBy(w.rows, worker)| + if s.Reserve? && s.worker == worker then s.batch else 0
  {
    if s.Reserve? {
      WorkReserveHeld(w, s, worker);
    } else {
      var rows' := T.NextRows(w, s);
      assert HeldBy(rows', worker) <= HeldBy(w.rows, worker) + {};
      HeldGrowsBy(w.rows, rows', worker, {});
    }
  }

  // ----- tickets -------------------------------------------------------------

  lemma TicketAdded(tickets: seq<Ticket>, t: Ticket, worker: int)
    ensures Outstanding(tickets + [t], worker)
         == Outstanding(tickets, worker) + if t.worker == worker then t.batch else 0
    ensures InFlight(tickets + [t], worker) == InFlight(tickets, worker) + if t.worker == worker then 1 else 0
  {
    assert (tickets + [t])[..|tickets|] == tickets;
  }

  lemma {:induction false} TicketSpent(tickets: seq<Ticket>, i: nat, worker: int)
    requires i < |tickets|
    ensures Outstanding(Without(tickets, i), worker)
         == Outstanding(tickets, worker) - if tickets[i].worker == worker then tickets[i].batch else 0
    ensures InFlight(Without(tickets, i), worker)
         == InFlight(tickets, worker) - if tickets[i].worker == worker then 1 else 0
  {
    var front, last := tickets[..|tickets| - 1], tickets[|tickets| - 1];
    if i == |tickets| - 1 {
      assert Without(tickets, i) == front;
    } else {
      TicketSpent(front, i, worker);
      assert Without(tickets, i) == Without(front, i) + [last];
      TicketAdded(Without(front, i), last, worker);
    }
  }

  /** Every outstanding grant of the worker is at most its cap. */
  ghost predicate Modest(tickets: seq<Ticket>, worker: int, max: int) {
    forall i | 0 <= i < |tickets| && tickets[i].worker == worker :: 0 <= tickets[i].batch <= max
  }

  lemma {:induction false} ModestSum(tickets: seq<Ticket>, worker: int, max: int)
    requires Modest(tickets, worker, max) && max >= 0
    ensures 0 <= Outstanding(tickets, worker) <= InFlight(tickets, worker) * max
  {
    if tickets != [] {
      var front := tickets[..|tickets| - 1];
      ModestSum(front, worker, max);
      assert (InFlight(front, worker) + 1) * max == InFlight(front, worker) * max + max;
    }
  }

  // ----- the invariant -------------------------------------------------------

  ghost predicate Inv(cfg: Config, w: World, worker: int, max: int, k: int) {
    && F.Inv(w.crawl) && C.Inv(cfg.embedTtl, w.embed) && T.Inv(w.tasks)
    && Modest(w.tickets, worker, max)
    && Held(w, worker) + Outstanding(w.tickets, worker) <= k * max
  }

  lemma CountKeepsInv(cfg: Config, w: World, s: Step, worker: int, max: int, k: int)
    requires max > 0 && Inv(cfg, w, worker, max, k) && s.Count?
    requires Capped(w, s, Next(cfg, w, s), worker, max, k)
    ensures Inv(cfg, Next(cfg, w, s), worker, max, k)
  {
    var batch := Effective(s.max, Held(w, s.worker), s.requested);
    if batch != 0 {
      var t := Ticket(s.worker, batch);
      TicketAdded(w.tickets, t, worker);
      if s.worker == worker {
        ModestSum(w.tickets, worker, max);
        CountFits(Held(w, worker), Outstanding(w.tickets, worker), InFlight(w.tickets, worker), batch, max, k);
      }
      ModestOneMore(w.tickets, t, worker, max);
    }
  }

  lemma ModestOneMore(tickets: seq<Ticket>, t: Ticket, worker: int, max: int)
    requires Modest(tickets, worker, max) && (t.worker == worker ==> 0 <= t.batch <= max)
    ensures Modest(tickets + [t], worker, max)
  {
  }

  lemma CountFits(held: int, outstanding: int, inFlight: int, batch: int, max: int, k: int)
    requires max > 0 && inFlight + 1 <= k && outstanding <= inFlight * max && held + batch <= max
    ensures held + outstanding + batch <= k * max
  {
    FitsUnder(inFlight, k - 1, max);
  }

  lemma FitsUnder(n: int, m: int, max: int)
    requires n <= m && max >= 0
    ensures n * max <= m * max
    ensures m * max + max == (m + 1) * max
  {
  }

  lemma SpendKeepsModest(tickets: seq<Ticket>, i: nat, worker: int, max: int)
    requires i < |tickets| && Modest(tickets, worker, max)
    ensures Modest(Without(tickets, i), worker, max)
  {
    var rest := Without(tickets, i);
    forall j | 0 <= j < |rest| && rest[j].worker == worker
      ensures 0 <= rest[j].batch <= max
    {
      assert rest[j] == tickets[if j < i then j else j + 1];
    }
  }

  /** What one step gives up in tickets covers what it may take in leases. */
  lemma SpentCovers(cfg: Config, w: World, s: Step, worker: int, max: int)
    requires !s.Count? && Enabled(cfg, w, s) && Modest(w.tickets, worker, max)
    ensures Modest(Spent(w, s), worker, max)
    ensures Outstanding(Spent(w, s), worker)
         <= Outstanding(w.tickets, worker)
            - if Asks(s).Some? && Asks(s).value.worker == worker then Asks(s).value.batch else 0
  {
    if s.Drop? || Asks(s).Some? {
      var i := TicketIndex(s);
      SpendKeepsModest(w.tickets, i, worker, max);
      TicketSpent(w.tickets, i, worker);
    }
  }

  lemma CrawlKeepsInv(cfg: Config, w: World, s: Step, worker: int, max: int, k: int)
    requires Inv(cfg, w, worker, max, k) && s.Crawl? && Enabled(cfg, w, s)
    ensures Inv(cfg, Next(cfg, w, s), worker, max, k)
  {
    SpentCovers(cfg, w, s, worker, max);
    CrawlHeld(cfg.crawl, w.crawl, s.crawl, s.at, worker);
    F.StepKeepsInv(cfg.crawl, w.crawl, s.crawl, s.at);
  }

  lemma EmbedKeepsInv(cfg: Config, w: World, s: Step, worker: int, max: int, k: int)
    requires Inv(cfg, w, worker, max, k) && s.Embed? && Enabled(cfg, w, s)
    ensures Inv(cfg, Next(cfg, w, s), worker, max, k)
  {
    SpentCovers(cfg, w, s, worker, max);
    EmbedHeld(cfg.embedTtl, w.embed, s.embed, worker);
    C.StepKeepsInv(cfg.embedTtl, w.embed, s.embed);
  }

  lemma WorkKeepsInv(cfg: Config, w: World, s: Step, worker: int, max: int, k: int)
    requires Inv(cfg, w, worker, max, k) && s.Work? && Enabled(cfg, w, s)
    ensures Inv(cfg, Next(cfg, w, s), worker, max, k)
  {
    SpentCovers(cfg, w, s, worker, max);
    WorkHeld(w.tasks, s.work, worker);
    if s.work.Requeue? {
      T.RequeueKeepsInvIff(w.tasks, s.work.filter);
    } else {
      T.StepKeepsInv(w.tasks, s.work);
    }
  }

  lemma {:induction false} EveryRunIsCapped(cfg: Config, run: Run, worker: int, max: int, k: int)
    requires max > 0 && k >= 0 && Legal(cfg, run, worker, max, k)
    ensures Inv(cfg, Last(cfg, run), worker, max, k)
  {
    if run.Then? {
      var w, s := Last(cfg, run.before), run.step;
      EveryRunIsCapped(cfg, run.before, worker, max, k);
      match s
      case Count(_, _, _) => CountKeepsInv(cfg, w, s, worker, max, k);
      case Drop(_) => SpentCovers(cfg, w, s, worker, max);
      case Crawl(_, _, _) => CrawlKeepsInv(cfg, w, s, worker, max, k);
      case Embed(_, _) => EmbedKeepsInv(cfg, w, s, worker, max, k);
      case Work(_, _) => WorkKeepsInv(cfg, w, s, worker, max, k);
    } else {
      StartIsCapped(cfg, run.world, worker, max, k);
    }
  }

  lemma StartIsCapped(cfg: Config, w: World, worker: int, max: int, k: int)
    requires max > 0 && k >= 0 && Initial(w)
    ensures Inv(cfg, w, worker, max, k)
  {
    forall h | h in w.crawl.rows
      ensures h !in HeldBy(w.crawl.rows, worker)
    {
      assert w.crawl.rows[h].core == Unleased(Queued, 0);
    }
    forall h | h in w.embed.rows
      ensures h !in HeldBy(w.embed.rows, worker)
    {
      assert w.embed.rows[h].core == Unleased(Queued, 0);
    }
    forall h | h in w.tasks.rows
      ensures h !in HeldBy(w.tasks.rows, worker)
    {
      assert w.tasks.rows[h].core == Unleased(Queued, 0);
    }
    assert HeldBy(w.crawl.rows, worker) == {} && HeldBy(w.embed.rows, worker) == {}
        && HeldBy(w.tasks.rows, worker) == {};
    assert 0 <= k * max;
  }

  /**
   * The cap under races: with at most k of a worker's reserve requests in flight,
   * its leases and outstanding grants together never exceed k times its cap, in
   * any interleaving of the three queues; sequential requests never pass the cap.
   */
  lemma CapUnderRaces(cfg: Config, run: Run, w: World, worker: int, max: int, k: int)
    requires max > 0 && k >= 0 && Legal(cfg, run, worker, max, k) && w == Last(cfg, run)
    ensures Held(w, worker) + Outstanding(w.tickets, worker) <= k * max
    ensures k <= 1 ==> Held(w, worker) <= max
  {
    EveryRunIsCapped(cfg, run, worker, max, k);
    InvCaps(cfg, w, worker, max, k);
  }

  lemma InvCaps(cfg: Config, w: World, worker: int, max: int, k: int)
    requires max > 0 && Inv(cfg, w, worker, max, k)
    ensures Held(w, worker) + Outstanding(w.tickets, worker) <= k * max
    ensures k <= 1 ==> Held(w, worker) <= max
  {
    ModestSum(w.tickets, worker, max);
    if k <= 1 {
      Times(k, 1, max);
    }
  }

  // ----- the bound is reached ------------------------------------------------

  /** Only the embed queue holds rows: n pieces of one age, the first m of them leased by the worker. */
  ghost predicate Stage(w: World, worker: int, n: nat, m: nat) {
    && w.crawl.rows == map[] && w.tasks.rows == map[]
    && (forall i: nat :: i in w.embed.rows <==> i < n)
    && (forall i: nat | i < n :: w.embed.rows[i].info.createdAt == 0)
    && (forall i: nat | i < n :: w.embed.rows[i].core.status == if i < m then Leased else Queued)
    && (forall i: nat | i < m && i < n :: w.embed.rows[i].core.worker == Some(worker))
  }

  /** 0, 1, ..., n - 1. */
  function Below(n: nat): (s: set<nat>)
    ensures |s| == n && forall i: nat :: i in s <==> i < n
  {
    if n == 0 then {} else Below(n - 1) + {n - 1}
  }

  lemma StageHolds(w: World, worker: int, n: nat, m: nat)
    requires m <= n && Stage(w, worker, n, m)
    ensures Held(w, worker) == m
  {
    assert HeldBy(w.embed.rows, worker) == Below(m);
    assert HeldBy(w.crawl.rows, worker) == {} && HeldBy(w.tasks.rows, worker) == {};
  }

  function Copies(t: Ticket, j: nat): (s: seq<Ticket>)
    ensures |s| == j
  {
    seq(j, _ => t)
  }

  lemma {:induction false} CopiesInFlight(t: Ticket, j: nat)
    ensures InFlight(Copies(t, j), t.worker) == j
  {
    if j > 0 {
      CopiesInFlight(t, j - 1);
      assert Copies(t, j) == Copies(t, j - 1) + [t];
      TicketAdded(Copies(t, j - 1), t, t.worker);
    }
  }

  lemma CountNext(cfg: Config, w: World, worker: int, max: nat, n: nat, j: nat)
    requires max > 0 && Stage(w, worker, n, 0) && w.tickets == Copies(Ticket(worker, max), j)
    ensures Next(cfg, w, Count(worker, max, max)) == w.(tickets := Copies(Ticket(worker, max), j + 1))
  {
    StageHolds(w, worker, n, 0);
    assert Copies(Ticket(worker, max), j + 1) == Copies(Ticket(worker, max), j) + [Ticket(worker, max)];
  }

  /** j counts before any lease each find the whole cap free. */
  lemma {:induction false} CountAll(cfg: Config, w: World, worker: int, max: nat, k: int, n: nat, j: nat)
      returns (run: Run)
    requires max > 0 && j <= k && Initial(w) && Stage(w, worker, n, 0)
    ensures Legal(cfg, run, worker, max, k) && Last(cfg, run) == w.(tickets := Copies(Ticket(worker, max), j))
  {
    if j == 0 {
      run := Start(w);
      assert Copies(Ticket(worker, max), 0) == [];
    } else {
      var before := CountAll(cfg, w, worker, max, k, n, j - 1);
      CountNext(cfg, w.(tickets := Copies(Ticket(worker, max), j - 1)), worker, max, n, j - 1);
      CopiesInFlight(Ticket(worker, max), j);
      run := Extend(cfg, before, Count(worker, max, max), worker, max, k);
    }
  }

  function Following(m: nat, max: nat): (picks: seq<nat>)
    ensures |picks| == max && forall i | 0 <= i < max :: picks[i] == m + i
  {
    seq(max, i requires 0 <= i => m + i)
  }

  /** The oldest pending pieces are any max of them, as all are of one age. */
  lemma FollowingAreOldest(w: World, worker: int, n: nat, m: nat, max: nat)
    requires Stage(w, worker, n, m) && m + max <= n
    ensures ChunkModel.Oldest(w.embed.rows, max, Following(m, max))
  {
    var picks := Following(m, max);
    assert forall i | 0 <= i < |picks| :: w.embed.rows[picks[i]].info.createdAt == 0;
    assert AllIn(picks, w.embed.rows);
  }

  lemma FollowingIsLeased(ttl: Time, w: World, worker: int, n: nat, m: nat, max: nat, i: nat)
    requires Stage(w, worker, n, m) && m + max <= n && i < n
    ensures AllIn(Following(m, max), w.embed.rows)
    ensures Leasing(w.embed.rows, Following(m, max), worker, ttl)[i]
         == if m <= i < m + max then LeasedRow(w.embed.rows[i], i, worker, ttl) else w.embed.rows[i]
  {
    var picks := Following(m, max);
    LeasingAt(w.embed.rows, picks, max, worker, ttl, i);
    if m <= i < m + max {
      assert picks[i - m] == i;
    }
  }

  lemma NextStage(cfg: Config, w: World, worker: int, n: nat, m: nat, max: nat, w': World)
    requires Stage(w, worker, n, m) && m + max <= n && AllIn(Following(m, max), w.embed.rows)
    requires w'.crawl == w.crawl && w'.tasks == w.tasks
    requires w'.embed.rows == Leasing(w.embed.rows, Following(m, max), worker, cfg.embedTtl)
    ensures Stage(w', worker, n, m + max)
  {
    forall i: nat | i < n
      ensures w'.embed.rows[i] == if m <= i < m + max then LeasedRow(w.embed.rows[i], i, worker, cfg.embedTtl)
                                  else w.embed.rows[i]
    {
      FollowingIsLeased(cfg.embedTtl, w, worker, n, m, max, i);
    }
  }

  /** One of the outstanding grants becomes max leases. */
  lemma LeaseBatch(cfg: Config, run: Run, w: World, worker: int, max: nat, k: int, n: nat, m: nat, j: nat)
      returns (more: Run, w': World)
    requires max > 0 && Legal(cfg, run, worker, max, k) && w == Last(cfg, run) && 0 < j <= k
    requires Stage(w, worker, n, m) && m + max <= n && w.tickets == Copies(Ticket(worker, max), j)
    ensures Legal(cfg, more, worker, max, k) && w' == Last(cfg, more)
    ensures Stage(w', worker, n, m + max) && w'.tickets == Copies(Ticket(worker, max), j - 1)
  {
    var t, s := Ticket(worker, max), Embed(C.Reserve(worker, max, Following(m, max), 0), 0);
    FollowingAreOldest(w, worker, n, m, max);
    assert Without(w.tickets, 0) == Copies(t, j - 1);
    CopiesInFlight(t, j - 1);
    more := Extend(cfg, run, s, worker, max, k);
    w' := Next(cfg, w, s);
    NextStage(cfg, w, worker, n, m, max, w');
  }

  /** j batches, by repeated addition. */
  function Batches(j: nat, max: nat): nat {
    if j == 0 then 0 else Batches(j - 1, max) + max
  }

  lemma {:induction false} BatchesAre(j: nat, max: nat)
    ensures Batches(j, max) == j * max
  {
    if j > 0 {
      BatchesAre(j - 1, max);
      assert j * max == (j - 1) * max + max;
    }
  }

  lemma {:induction false} LeaseAll(cfg: Config, run: Run, w: World, worker: int, max: nat, k: int, n: nat, m: nat,
      j: nat)
      returns (more: Run)
    requires max > 0 && Legal(cfg, run, worker, max, k) && w == Last(cfg, run) && j <= k
    requires Stage(w, worker, n, m) && m + Batches(j, max) == n && w.tickets == Copies(Ticket(worker, max), j)
    ensures Legal(cfg, more, worker, max, k) && Stage(Last(cfg, more), worker, n, n)
    decreases j
  {
    if j == 0 {
      assert m == n;
      more := run;
    } else {
      var one, w' := LeaseBatch(cfg, run, w, worker, max, k, n, m, j);
      more := LeaseAll(cfg, one, w', worker, max, k, n, m + max, j - 1);
    }
  }

  function Pending(n: nat): World {
    World(F.World(map[], map[], 0, map[]),
          C.World(map i | i in Below(n) :: Row(Unleased(Queued, 0), ChunkModel.Piece(1, i, "", 1, 0)),
                  map i | i in Below(n) :: NewHistory()),
          T.World(map[], {}), [])
  }

  /** The bound of CapUnderRaces is exact: k requests in flight together can leave a worker with k times its cap. */
  lemma CapIsReached(cfg: Config, worker: int, max: nat, k: nat)
    requires max > 0
    ensures exists run :: Legal(cfg, run, worker, max, k) && Held(Last(cfg, run), worker) == k * max
  {
    BatchesAre(k, max);
    var n := Batches(k, max);
    var w := Pending(n);
    assert Stage(w, worker, n, 0);
    var counted := CountAll(cfg, w, worker, max, k, n, k);
    var run := LeaseAll(cfg, counted, Last(cfg, counted), worker, max, k, n, 0, k);
    StageHolds(Last(cfg, run), worker, n, n);
  }

  ghost predicate CapHolds(cfg: Config, worker: int, max: int, k: int) {
    forall run | Legal(cfg, run, worker, max, k) :: Held(Last(cfg, run), worker) <= max
  }

  /** The cap itself holds in every run exactly when the worker's requests do not overlap. */
  lemma CapHoldsIff(cfg: Config, worker: int, max: nat, k: nat)
    requires max > 0
    ensures CapHolds(cfg, worker, max, k) <==> k <= 1
  {
    if k <= 1 {
      forall run | Legal(cfg, run, worker, max, k)
        ensures Held(Last(cfg, run), worker) <= max
      {
        CapUnderRaces(cfg, run, Last(cfg, run), worker, max, k);
      }
    } else {
      CapIsReached(cfg, worker, max, k);
      Times(2, k, max);
    }
  }

  lemma Extend(cfg: Config, run: Run, s: Step, worker: int, max: int, k: int) returns (more: Run)
    requires Legal(cfg, run, worker, max, k) && Enabled(cfg, Last(cfg, run), s)
    requires Capped(Last(cfg, run), s, Next(cfg, Last(cfg, run), s), worker, max, k)
    ensures more == Then(run, s) && Legal(cfg, more, worker, max, k)
    ensures Last(cfg, more) == Next(cfg, Last(cfg, run), s)
  {
    more := Then(run, s);
  }
}

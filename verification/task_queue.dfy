/** processing_jobs: external leases and internal claims in one table. */
module TaskModel {
  import opened Wrappers
  import opened LeaseTable
  import opened Keyset

  type TaskId = nat

  datatype Processor =
    | HtmlStrip | PdfOcr | DocxToPdf | OfficeToPdf | TextPassthrough | ChunkText | Other(name: string)

  datatype Task = Task(lake: int, processor: Processor, maxAttempts: int)

  type TaskRow = Row<TaskId, Task>

  type Tasks = Table<TaskId, Task>

  /** No status, zero worker and no processor mean "no constraint". */
  datatype TaskFilter = TaskFilter(status: Option<Status>, worker: int, processor: Option<Processor>)

  function QueuedFor(rows: Tasks, p: Processor): set<TaskId> {
    set k | k in rows && rows[k].core.status == Queued && rows[k].info.processor == p
  }

  /** Empty kinds means any processor. */
  function QueuedOf(rows: Tasks, kinds: seq<Processor>): set<TaskId> {
    set k | k in rows && rows[k].core.status == Queued && (kinds == [] || rows[k].info.processor in kinds)
  }

  // ----- the in-process pipeline: no lease columns, no token -----------------

  function ClaimedRow(r: TaskRow): TaskRow {
    r.(core := r.core.(status := Leased, attempts := r.core.attempts + 1))
  }

  /** ClaimNext: the lowest queued id of one processor. */
  function Claiming(rows: Tasks, p: Processor): Tasks {
    if QueuedFor(rows, p) == {} then rows
    else
      var id := MinOf(QueuedFor(rows, p));
      rows[id := ClaimedRow(rows[id])]
  }

  /** The three Mark statements set the status by id and leave the lease columns alone. */
  function Marked(rows: Tasks, id: TaskId, status: Status): Tasks {
    if id in rows then rows[id := rows[id].(core := rows[id].core.(status := status))] else rows
  }

  function AfterFailure(r: TaskRow): Status {
    if r.core.attempts < r.info.maxAttempts then Queued else Failed
  }

  function MarkingFailed(rows: Tasks, id: TaskId): Tasks {
    if id in rows then Marked(rows, id, AfterFailure(rows[id])) else rows
  }

  // ----- external workers ----------------------------------------------------

  /** ORDER BY id ASC LIMIT batch over the queued tasks of the wanted kinds. */
  function Picks(rows: Tasks, kinds: seq<Processor>, batch: int): seq<TaskId> {
    Take(Sorted(QueuedOf(rows, kinds)), batch)
  }

  lemma PicksAreQueued(rows: Tasks, kinds: seq<Processor>, batch: int)
    ensures AllIn(Picks(rows, kinds, batch), rows)
    ensures forall i | 0 <= i < |Picks(rows, kinds, batch)| :: rows[Picks(rows, kinds, batch)[i]].core.status == Queued
    ensures forall i, j | 0 <= i < j < |Picks(rows, kinds, batch)| ::
              Picks(rows, kinds, batch)[i] < Picks(rows, kinds, batch)[j]
    ensures |Picks(rows, kinds, batch)| <= if batch < 0 then 0 else batch
  {
    SortedLists(QueuedOf(rows, kinds));
    var all, picks := Sorted(QueuedOf(rows, kinds)), Picks(rows, kinds, batch);
    forall i | 0 <= i < |picks|
      ensures picks[i] in QueuedOf(rows, kinds)
    {
      assert picks[i] == all[i] && all[i] in all;
    }
    assert forall i | 0 <= i < |picks| :: picks[i] in QueuedOf(rows, kinds);
  }

  /**
   * The picks on the columns: queued tasks of the wanted kinds in id order, at most batch
   * of them, and every other such task comes later and finds the batch full.
   */
  lemma PicksOnColumns(rows: Tasks, kinds: seq<Processor>, batch: int, picks: seq<TaskId>)
    requires picks == Picks(rows, kinds, batch)
    ensures |picks| <= if batch < 0 then 0 else batch
    ensures forall i, j | 0 <= i < j < |picks| :: picks[i] < picks[j]
    ensures forall i | 0 <= i < |picks| ::
              && picks[i] in rows && rows[picks[i]].core.status == Queued
              && (kinds == [] || rows[picks[i]].info.processor in kinds)
    ensures forall k | k in rows && rows[k].core.status == Queued
              && (kinds == [] || rows[k].info.processor in kinds) && k !in picks ::
              |picks| >= batch && forall i | 0 <= i < |picks| :: picks[i] < k
  {
    var queued := QueuedOf(rows, kinds);
    TakeIsFirst(queued, batch, picks);
    assert forall i | 0 <= i < |picks| :: picks[i] in picks;
    assert forall k | k in rows && rows[k].core.status == Queued && (kinds == [] || rows[k].info.processor in kinds) ::
        k in queued;
  }

  function TaskFailing(rows: Tasks, id: TaskId, token: Token<TaskId>, retryable: bool): Tasks {
    if Stores(rows, id, token) then
      rows[id := rows[id].(core := Cleared(rows[id].core, if retryable then AfterFailure(rows[id]) else Failed))]
    else
      rows
  }

  predicate HitsTask(f: TaskFilter, r: TaskRow) {
    && (f.status.Some? ==> r.core.status == f.status.value)
    && (f.worker > 0 ==> r.core.worker == Some(f.worker))
    && (f.processor.Some? ==> r.info.processor == f.processor.value)
  }

  function RequeueingTasks(rows: Tasks, f: TaskFilter): (r: Tasks)
    ensures r.Keys == rows.Keys
  {
    map k | k in rows ::
      if HitsTask(f, rows[k]) then rows[k].(core := Cleared(rows[k].core, Queued)) else rows[k]
  }
}

module TaskRepository {
  import opened Wrappers
  import opened Clock
  import opened LeaseTable
  import opened Keyset
  import opened TaskModel

  datatype LeasedTask = LeasedTask(id: TaskId, token: Token<TaskId>, expires: Time, attempts: int)

  datatype Claim = Claim(id: TaskId, processor: Processor, lake: int, attempts: int, maxAttempts: int)

  class TaskRepo {
    var tasks: Tasks

    constructor (rows: Tasks)
      ensures tasks == rows
    {
      tasks := rows;
    }

    method ClaimNext(p: Processor) returns (job: Option<Claim>)
      modifies this
      ensures tasks == Claiming(old(tasks), p)
      ensures job.None? ==>
                && tasks == old(tasks)
                && forall k | k in tasks :: tasks[k].core.status != Queued || tasks[k].info.processor != p
      ensures job.Some? ==>
                var id := job.value.id;
                && id in old(tasks) && old(tasks)[id].core.status == Queued && old(tasks)[id].info.processor == p
                && (forall k | k in old(tasks) && k < id ::
                      old(tasks)[k].core.status != Queued || old(tasks)[k].info.processor != p)
                && tasks == old(tasks)[id := old(tasks)[id].(core :=
                     old(tasks)[id].core.(status := Leased, attempts := old(tasks)[id].core.attempts + 1))]
      ensures job.None? <==> QueuedFor(old(tasks), p) == {}
      ensures job.Some? ==>
                && job.value.id in old(tasks) && job.value.id == MinOf(QueuedFor(old(tasks), p))
                && var m := old(tasks)[job.value.id];
                   job.value == Claim(job.value.id, p, m.info.lake, m.core.attempts + 1, m.info.maxAttempts)
    {
      var queued := QueuedFor(tasks, p);
      assert forall k | k in tasks && tasks[k].core.status == Queued && tasks[k].info.processor == p :: k in queued;
      if queued == {} {
        return None;
      }
      var id := MinOf(queued);
      var m := tasks[id];
      tasks := tasks[id := m.(core := m.core.(status := Leased, attempts := m.core.attempts + 1))];
      job := Some(Claim(id, m.info.processor, m.info.lake, m.core.attempts + 1, m.info.maxAttempts));
    }

    method MarkDone(id: TaskId)
      modifies this
      ensures tasks == Marked(old(tasks), id, Done)
      ensures id in old(tasks) ==>
                tasks == old(tasks)[id := old(tasks)[id].(core := old(tasks)[id].core.(status := Done))]
      ensures id !in old(tasks) ==> tasks == old(tasks)
    {
      if id in tasks {
        tasks := tasks[id := tasks[id].(core := tasks[id].core.(status := Done))];
      }
    }

    method MarkFailed(id: TaskId) returns (ok: bool)
      modifies this
      ensures tasks == MarkingFailed(old(tasks), id)
      ensures ok <==> id in old(tasks)
      ensures ok ==>
                var r := old(tasks)[id];
                var status := if r.core.attempts < r.info.maxAttempts then Queued else Failed;
                tasks == old(tasks)[id := r.(core := r.core.(status := status))]
      ensures !ok ==> tasks == old(tasks)
    {
      if id !in tasks {
        return false;
      }
      var m := tasks[id];
      var status := Failed;
      if m.core.attempts < m.info.maxAttempts {
        status := Queued;
      }
      tasks := tasks[id := m.(core := m.core.(status := status))];
      ok := true;
    }

    method MarkSkipped(id: TaskId)
      modifies this
      ensures tasks == Marked(old(tasks), id, Skipped)
      ensures id in old(tasks) ==>
                tasks == old(tasks)[id := old(tasks)[id].(core := old(tasks)[id].core.(status := Skipped))]
      ensures id !in old(tasks) ==> tasks == old(tasks)
    {
      if id in tasks {
        tasks := tasks[id := tasks[id].(core := tasks[id].core.(status := Skipped))];
      }
    }

    /** lakes holds the ids of the existing lake objects; a dangling reference rolls the batch back. */
    method ReserveBatch(worker: int, kinds: seq<Processor>, batch: int, ttl: Time, now: Time, lakes: set<nat>)
      returns (r: Result<seq<LeasedTask>, string>)
      modifies this
      ensures var picks := Picks(old(tasks), kinds, batch);
        && AllIn(picks, old(tasks))
        && (r.Ok? <==> forall i | 0 <= i < |picks| :: old(tasks)[picks[i]].info.lake in lakes)
        && (r.Err? ==> tasks == old(tasks))
        && (r.Ok? ==>
              && tasks == Leasing(old(tasks), picks, worker, now + ttl)
              && Handed(old(tasks), picks, worker, now + ttl, r.value))
    {
      var picks := Picks(tasks, kinds, batch);
      PicksAreQueued(tasks, kinds, batch);
      r := LeaseEach(picks, worker, now + ttl, lakes);
    }

    /** The loop over the picks; each leased task is read back with its lake object. */
    method LeaseEach(picks: seq<TaskId>, worker: int, expires: Time, lakes: set<nat>)
        returns (r: Result<seq<LeasedTask>, string>)
      requires AllIn(picks, tasks) && forall i, j | 0 <= i < j < |picks| :: picks[i] < picks[j]
      modifies this
      ensures r.Ok? <==> forall i | 0 <= i < |picks| :: old(tasks)[picks[i]].info.lake in lakes
      ensures r.Err? ==> tasks == old(tasks)
      ensures r.Ok? ==>
                && tasks == Leasing(old(tasks), picks, worker, expires)
                && Handed(old(tasks), picks, worker, expires, r.value)
    {
      var rows := tasks;
      var leased: seq<LeasedTask> := [];
      for i := 0 to |picks|
        invariant tasks == LeasingFirst(rows, picks, i, worker, expires)
        invariant |leased| == i
        invariant forall n | 0 <= n < i :: rows[picks[n]].info.lake in lakes
        invariant forall n | 0 <= n < i :: leased[n] == HandedTask(rows, picks[n], worker, expires)
      {
        var id := picks[i];
        LeasingAt(rows, picks, i, worker, expires, id);
        assert !Among(id, picks, i);
        var m := tasks[id];
        assert m == rows[id];
        tasks := tasks[id := LeasedRow(m, id, worker, expires)];
        if m.info.lake !in lakes {
          tasks := rows;
          return Err("reserve tasks: refetch lake");
        }
        leased := leased + [LeasedTask(id, TokenFor(id, worker, expires), expires, m.core.attempts + 1)];
      }
      r := Ok(leased);
    }

    method Heartbeat(id: TaskId, token: Token<TaskId>, extend: Time, now: Time) returns (r: Result<Time, string>)
      modifies this
      ensures tasks == Beating(old(tasks), id, token, now + extend)
      ensures r == if id in old(tasks) && old(tasks)[id].core.status == Leased
                      && old(tasks)[id].core.token == Some(token)
                   then Ok(now + extend)
                   else Err("heartbeat: lease not held")
      ensures r.Ok? ==>
                tasks == old(tasks)[id := old(tasks)[id].(core :=
                  old(tasks)[id].core.(expiresAt := Some(now + extend)))]
      ensures r.Err? ==> tasks == old(tasks)
    {
      if id !in tasks || !HeldWith(tasks[id].core, token) {
        return Err("heartbeat: lease not held");
      }
      tasks := tasks[id := tasks[id].(core := tasks[id].core.(expiresAt := Some(now + extend)))];
      r := Ok(now + extend);
    }

    method Complete(id: TaskId, token: Token<TaskId>) returns (ok: bool)
      modifies this
      ensures tasks == Completing(old(tasks), id, token)
      ensures ok <==>
                id in old(tasks) && old(tasks)[id].core.status == Leased && old(tasks)[id].core.token == Some(token)
      ensures ok ==>
                tasks == old(tasks)[id := Row(Core(Done, None, None, None, old(tasks)[id].core.attempts),
                                              old(tasks)[id].info)]
      ensures !ok ==> tasks == old(tasks)
    {
      ok := id in tasks && HeldWith(tasks[id].core, token);
      if ok {
        tasks := tasks[id := tasks[id].(core := Unleased(Done, tasks[id].core.attempts))];
      }
    }

    method Fail(id: TaskId, token: Token<TaskId>, retryable: bool) returns (ok: bool)
      modifies this
      ensures tasks == TaskFailing(old(tasks), id, token, retryable)
      ensures ok <==> id in old(tasks) && old(tasks)[id].core.token == Some(token)
      ensures ok ==>
                var r := old(tasks)[id];
                var status := if retryable && r.core.attempts < r.info.maxAttempts then Queued else Failed;
                tasks == old(tasks)[id := Row(Core(status, None, None, None, r.core.attempts), r.info)]
      ensures !ok ==> tasks == old(tasks)
    {
      if id !in tasks || tasks[id].core.token.None? || tasks[id].core.token.value != token {
        return false;
      }
      var m := tasks[id];
      var status := Failed;
      if retryable && m.core.attempts < m.info.maxAttempts {
        status := Queued;
      }
      tasks := tasks[id := m.(core := Unleased(status, m.core.attempts))];
      ok := true;
    }

    method SweepExpired(now: Time) returns (affected: nat)
      modifies this
      ensures tasks == Swept(old(tasks), now)
      ensures forall k | k in tasks :: !Overdue(tasks[k].core, now)
      ensures affected == |Changed(old(tasks), tasks)|
      ensures affected == |OverdueIn(old(tasks), now)|
      ensures tasks.Keys == old(tasks).Keys
      ensures forall k | k in tasks ::
                var r := old(tasks)[k];
                if r.core.status == Leased && r.core.expiresAt.Some? && r.core.expiresAt.value < now then
                  tasks[k] == Row(Core(Queued, None, None, None, r.core.attempts), r.info)
                else tasks[k] == r
    {
      SweepTakesTheOverdue(tasks, now);
      affected := |OverdueIn(tasks, now)|;
      tasks := map k | k in tasks ::
        if Overdue(tasks[k].core, now) then tasks[k].(core := Unleased(Queued, tasks[k].core.attempts)) else tasks[k];
    }

    method RequeueByFilter(f: TaskFilter) returns (affected: nat)
      modifies this
      ensures tasks == RequeueingTasks(old(tasks), f)
      ensures tasks.Keys == old(tasks).Keys
      ensures forall k | k in tasks ::
                var r := old(tasks)[k];
                if (f.status == None || f.status == Some(r.core.status))
                   && (f.worker <= 0 || r.core.worker == Some(f.worker))
                   && (f.processor == None || f.processor == Some(r.info.processor))
                then tasks[k] == Row(Core(Queued, None, None, None, r.core.attempts), r.info)
                else tasks[k] == r
      ensures affected == |set k | k in old(tasks) && HitsTask(f, old(tasks)[k])|
    {
      affected := |set k | k in tasks && HitsTask(f, tasks[k])|;
      tasks := map k | k in tasks ::
        if HitsTask(f, tasks[k]) then tasks[k].(core := Unleased(Queued, tasks[k].core.attempts)) else tasks[k];
    }
  }

  ghost predicate Handed(rows: Tasks, picks: seq<TaskId>, worker: int, expires: Time, leased: seq<LeasedTask>)
    requires AllIn(picks, rows)
  {
    && |leased| == |picks|
    && forall n | 0 <= n < |picks| :: leased[n] == HandedTask(rows, picks[n], worker, expires)
  }

  function HandedTask(rows: Tasks, id: TaskId, worker: int, expires: Time): LeasedTask
    requires id in rows
  {
    LeasedTask(id, TokenFor(id, worker, expires), expires, rows[id].core.attempts + 1)
  }
  /** A batch on the columns: exactly the picks are leased to the worker, and the reply says so. */
  lemma HandedOnColumns(rows: Tasks, picks: seq<TaskId>, worker: int, expires: Time, leased: seq<LeasedTask>)
    requires AllIn(picks, rows) && Handed(rows, picks, worker, expires, leased)
    ensures forall k | k in rows ::
              Leasing(rows, picks, worker, expires)[k]
                == if k in picks then
                     Row(Core(Leased, Some(worker), Some(Token(k, worker, expires / SECOND)), Some(expires),
                              rows[k].core.attempts + 1), rows[k].info)
                   else rows[k]
    ensures |leased| == |picks|
    ensures forall i | 0 <= i < |picks| ::
              leased[i] == LeasedTask(picks[i], Token(picks[i], worker, expires / SECOND), expires,
                                      rows[picks[i]].core.attempts + 1)
  {
    forall k | k in rows
      ensures Leasing(rows, picks, worker, expires)[k]
           == if k in picks then
                Row(Core(Leased, Some(worker), Some(Token(k, worker, expires / SECOND)), Some(expires),
                         rows[k].core.attempts + 1), rows[k].info)
              else rows[k]
    {
      LeasingOnColumns(rows, picks, worker, expires, k);
    }
  }
}

/** Every run of the task queue: two disjoint kinds of owner. */
module TaskRuns {
  import opened Wrappers
  import opened Clock
  import opened LeaseTable
  import opened Keyset
  import opened TaskModel

  datatype Step =
    | Claim(processor: Processor)
    | MarkDone(id: TaskId)
    | MarkFailed(id: TaskId)
    | MarkSkipped(id: TaskId)
    | Forget(id: TaskId)
    | Reserve(worker: int, kinds: seq<Processor>, batch: int, expires: Time)
    | Heartbeat(token: Token<TaskId>, verifiedAt: Time, newExpiry: Time)
    | Complete(token: Token<TaskId>, verifiedAt: Time)
    | Fail(token: Token<TaskId>, retryable: bool, verifiedAt: Time)
    | Sweep(readAt: Time)
    | Requeue(filter: TaskFilter)
    | Enqueue(id: TaskId, task: Task)

  /** hands: the jobs the pipeline has claimed and not yet marked. */
  datatype World = World(rows: Tasks, hands: set<TaskId>)

  predicate Marks(s: Step) {
    s.MarkDone? || s.MarkFailed? || s.MarkSkipped? || s.Forget?
  }

  /** The pipeline marks only what it holds; Forget stands for a mark that was lost or never sent. */
  predicate Enabled(w: World, s: Step) {
    && (Marks(s) ==> s.id in w.hands)
    && (s.Enqueue? ==> s.id !in w.rows)
  }

  function NextRows(w: World, s: Step): Tasks {
    match s
    case Claim(p) => Claiming(w.rows, p)
    case MarkDone(id) => Marked(w.rows, id, Done)
    case MarkFailed(id) => MarkingFailed(w.rows, id)
    case MarkSkipped(id) => Marked(w.rows, id, Skipped)
    case Forget(_) => w.rows
    case Reserve(worker, kinds, batch, expires) =>
      PicksAreQueued(w.rows, kinds, batch);
      Leasing(w.rows, Picks(w.rows, kinds, batch), worker, expires)
    case Heartbeat(token, verifiedAt, newExpiry) =>
      if Verified(token, verifiedAt) then Beating(w.rows, token.item, token, newExpiry) else w.rows
    case Complete(token, verifiedAt) =>
      if Verified(token, verifiedAt) then Completing(w.rows, token.item, token) else w.rows
    case Fail(token, retryable, verifiedAt) =>
      if Verified(token, verifiedAt) then TaskFailing(w.rows, token.item, token, retryable) else w.rows
    case Sweep(readAt) => Swept(w.rows, readAt)
    case Requeue(f) => RequeueingTasks(w.rows, f)
    case Enqueue(id, task) => w.rows[id := Row(Unleased(Queued, 0), task)]
  }

  function NextHands(w: World, s: Step): set<TaskId> {
    if s.Claim? && QueuedFor(w.rows, s.processor) != {} then w.hands + {MinOf(QueuedFor(w.rows, s.processor))}
    else if Marks(s) then w.hands - {s.id}
    else w.hands
  }

  function Next(w: World, s: Step): World {
    World(NextRows(w, s), NextHands(w, s))
  }

  // ----- ownership -----------------------------------------------------------

  predicate NoLease<K>(c: Core<K>) {
    c.token.None? && c.worker.None? && c.expiresAt.None?
  }

  predicate FullLease<K>(c: Core<K>) {
    c.token.Some? && c.worker.Some? && c.expiresAt.Some?
  }

  /** A running task is leased outright or not at all; any other status carries no lease. */
  predicate Owned<K>(c: Core<K>) {
    NoLease(c) || (c.status == Leased && FullLease(c))
  }

  predicate InternallyClaimed<K>(c: Core<K>) {
    c.status == Leased && NoLease(c)
  }

  ghost predicate Inv(w: World) {
    && (forall k | k in w.rows :: Owned(w.rows[k].core))
    && (forall k | k in w.hands :: k in w.rows && InternallyClaimed(w.rows[k].core))
  }

  lemma ReserveKeepsInv(w: World, s: Step)
    requires Inv(w) && s.Reserve?
    ensures Inv(Next(w, s))
    ensures forall k | k in w.hands :: NextRows(w, s)[k] == w.rows[k]
  {
    var picks := Picks(w.rows, s.kinds, s.batch);
    PicksAreQueued(w.rows, s.kinds, s.batch);
    forall k | k in w.rows
      ensures NextRows(w, s)[k] == if Among(k, picks, |picks|) then LeasedRow(w.rows[k], k, s.worker, s.expires)
                                   else w.rows[k]
    {
      LeasingAt(w.rows, picks, |picks|, s.worker, s.expires, k);
    }
  }

  /** Every step but an operator's requeue keeps the two kinds of owner apart. */
  lemma StepKeepsInv(w: World, s: Step)
    requires Inv(w) && Enabled(w, s) && !s.Requeue?
    ensures Inv(Next(w, s))
  {
    if s.Reserve? {
      ReserveKeepsInv(w, s);
    }
  }

  /** Exactly when a requeue is safe: it hits no job the pipeline has in hand. */
  lemma RequeueKeepsInvIff(w: World, f: TaskFilter)
    requires Inv(w)
    ensures Inv(Next(w, Requeue(f))) <==> forall k | k in w.hands :: !HitsTask(f, w.rows[k])
  {
    var w' := Next(w, Requeue(f));
    forall k | k in w.hands
      ensures HitsTask(f, w.rows[k]) <==> !InternallyClaimed(w'.rows[k].core)
    {
    }
  }

  datatype Run = Start(world: World) | Then(before: Run, step: Step)

  ghost function Last(run: Run): World {
    match run
    case Start(w) => w
    case Then(before, s) => Next(Last(before), s)
  }

  ghost predicate Initial(w: World) {
    w.hands == {} && forall k | k in w.rows :: w.rows[k].core == Unleased(Queued, 0)
  }

  ghost predicate Legal(run: Run) {
    match run
    case Start(w) => Initial(w)
    case Then(before, s) => Legal(before) && Enabled(Last(before), s)
  }

  /** No requeue in the run hits a job in hand. */
  ghost predicate Careful(run: Run) {
    match run
    case Start(_) => true
    case Then(before, s) =>
      && Careful(before)
      && (s.Requeue? ==>
            forall k | k in Last(before).hands && k in Last(before).rows :: !HitsTask(s.filter, Last(before).rows[k]))
  }

  lemma {:induction false} EveryCarefulRunIsOwned(run: Run)
    requires Legal(run) && Careful(run)
    ensures Inv(Last(run))
  {
    if run.Then? {
      EveryCarefulRunIsOwned(run.before);
      var w, s := Last(run.before), run.step;
      if s.Requeue? {
        RequeueKeepsInvIff(w, s.filter);
      } else {
        StepKeepsInv(w, s);
      }
    }
  }

  /**
   * Two owners, never both: the pipeline's marks only ever hit a row without a
   * lease, and nothing a worker or the sweeper does moves a row in hand.
   */
  lemma OwnersDoNotMeet(run: Run, w: World, s: Step)
    requires Legal(run) && Careful(run) && w == Last(run) && Enabled(w, s)
    ensures Marks(s) ==> s.id in w.rows && InternallyClaimed(w.rows[s.id].core)
    ensures s.Reserve? || s.Heartbeat? || s.Complete? || s.Fail? || s.Sweep? ==>
              forall k | k in w.hands :: k in w.rows && k in NextRows(w, s) && NextRows(w, s)[k] == w.rows[k]
  {
    EveryCarefulRunIsOwned(run);
    if s.Reserve? {
      ReserveKeepsInv(w, s);
    }
  }

  // ----- the attempt law -----------------------------------------------------

  /** A sweep or a requeue puts task k back in the queue. */
  predicate PutsBack(w: World, s: Step, k: TaskId)
    requires k in w.rows
  {
    (s.Sweep? && Overdue(w.rows[k].core, s.readAt)) || (s.Requeue? && HitsTask(s.filter, w.rows[k]))
  }

  /** What puts a task back: an expired lease at a sweep, or a requeue whose filter it matches. */
  lemma PutsBackOnColumns(w: World, s: Step, k: TaskId)
    requires k in w.rows
    ensures var r := w.rows[k];
      PutsBack(w, s, k)
      <==> || (s.Sweep? && r.core.status == Leased && r.core.expiresAt.Some? && r.core.expiresAt.value < s.readAt)
           || (s.Requeue?
               && (s.filter.status == None || s.filter.status == Some(r.core.status))
               && (s.filter.worker <= 0 || r.core.worker == Some(s.filter.worker))
               && (s.filter.processor == None || s.filter.processor == Some(r.info.processor)))
  {
  }

  ghost function PutBacks(run: Run, k: TaskId): nat {
    match run
    case Start(_) => 0
    case Then(before, s) =>
      PutBacks(before, k) + if k in Last(before).rows && PutsBack(Last(before), s, k) then 1 else 0
  }

  predicate WithinBudget(r: TaskRow, extra: nat) {
    && r.core.attempts <= Limit(r.info.maxAttempts) + extra
    && (r.core.status == Queued ==> r.core.attempts < Limit(r.info.maxAttempts) + extra)
  }

  lemma StepKeepsBudget(w: World, s: Step, k: TaskId, extra: nat)
    requires Enabled(w, s) && (k in w.rows ==> WithinBudget(w.rows[k], extra))
    ensures k in NextRows(w, s) ==>
              WithinBudget(NextRows(w, s)[k], extra + if k in w.rows && PutsBack(w, s, k) then 1 else 0)
  {
    if s.Reserve? && k in w.rows {
      var picks := Picks(w.rows, s.kinds, s.batch);
      PicksAreQueued(w.rows, s.kinds, s.batch);
      LeasingAt(w.rows, picks, |picks|, s.worker, s.expires, k);
    }
  }

  predicate Claims(w: World, s: Step, k: TaskId) {
    s.Claim? && QueuedFor(w.rows, s.processor) != {} && MinOf(QueuedFor(w.rows, s.processor)) == k
  }

  predicate Leases(w: World, s: Step, k: TaskId) {
    s.Reserve? && var picks := Picks(w.rows, s.kinds, s.batch); Among(k, picks, |picks|)
  }

  /** How often task k was claimed or leased. */
  ghost function Started(run: Run, k: TaskId): nat {
    match run
    case Start(_) => 0
    case Then(before, s) =>
      var w := Last(before);
      Started(before, k) + if Claims(w, s, k) || Leases(w, s, k) then 1 else 0
  }

  function AttemptsOf(rows: Tasks, k: TaskId): int {
    if k in rows then rows[k].core.attempts else 0
  }

  /** No task is ever deleted, and attempt_count moves by the starts alone. */
  lemma StepCountsStarts(w: World, s: Step, k: TaskId)
    requires Enabled(w, s)
    ensures k in w.rows ==> k in NextRows(w, s)
    ensures AttemptsOf(NextRows(w, s), k) == AttemptsOf(w.rows, k) + if Claims(w, s, k) || Leases(w, s, k) then 1 else 0
  {
    if s.Reserve? {
      var picks := Picks(w.rows, s.kinds, s.batch);
      PicksAreQueued(w.rows, s.kinds, s.batch);
      if k in w.rows {
        LeasingAt(w.rows, picks, |picks|, s.worker, s.expires, k);
      }
    }
  }

  lemma {:induction false} AttemptsAreStarts(run: Run, k: TaskId)
    requires Legal(run)
    ensures AttemptsOf(Last(run).rows, k) == Started(run, k)
  {
    if run.Then? {
      AttemptsAreStarts(run.before, k);
      StepCountsStarts(Last(run.before), run.step, k);
    }
  }

  /**
   * Internal claims and external leases draw on one budget: in every run, careless
   * requeues and lost marks included, attempt_count counts both, and a task is
   * started at most max(1, max_attempts) times plus once per sweep and per requeue
   * that put it back.
   */
  lemma {:induction false} AttemptsAreBudgeted(run: Run, k: TaskId)
    requires Legal(run) && k in Last(run).rows
    ensures Started(run, k) == Last(run).rows[k].core.attempts
    ensures WithinBudget(Last(run).rows[k], PutBacks(run, k))
  {
    AttemptsAreStarts(run, k);
    if run.Then? {
      var w := Last(run.before);
      if k in w.rows {
        AttemptsAreBudgeted(run.before, k);
      }
      StepKeepsBudget(w, run.step, k, PutBacks(run.before, k));
    }
  }

  // ----- lease tokens and lifetimes ------------------------------------------

  function NextGrants(w: World, s: Step, k: TaskId, grants: seq<Issue>): seq<Issue> {
    if Leases(w, s, k) then grants + [Issue(s.worker, s.expires)] else grants
  }

  /** The external leases of task k, oldest first. */
  ghost function Grants(run: Run, k: TaskId): seq<Issue> {
    match run
    case Start(_) => []
    case Then(before, s) => NextGrants(Last(before), s, k, Grants(before, k))
  }

  /** Whatever lease columns a row carries, in whatever status, are those of the last grant. */
  ghost predicate StoresLast(c: Core<TaskId>, k: TaskId, grants: seq<Issue>) {
    c.token.Some? ==>
      && grants != [] && c.token.value == TokenOf(k, grants[|grants| - 1])
      && c.worker == Some(grants[|grants| - 1].worker) && c.expiresAt.Some?
  }

  lemma StepStoresLast(w: World, s: Step, k: TaskId, grants: seq<Issue>)
    requires Enabled(w, s) && k in NextRows(w, s)
    requires k in w.rows ==> StoresLast(w.rows[k].core, k, grants)
    ensures StoresLast(NextRows(w, s)[k].core, k, NextGrants(w, s, k, grants))
  {
    if s.Reserve? {
      var picks := Picks(w.rows, s.kinds, s.batch);
      PicksAreQueued(w.rows, s.kinds, s.batch);
      LeasingAt(w.rows, picks, |picks|, s.worker, s.expires, k);
    }
  }

  lemma {:induction false} EveryRunStoresLast(run: Run, w: World, k: TaskId)
    requires Legal(run) && w == Last(run) && k in w.rows
    ensures StoresLast(w.rows[k].core, k, Grants(run, k))
  {
    if run.Then? {
      var was := Last(run.before);
      if k in was.rows {
        EveryRunStoresLast(run.before, was, k);
      }
      StepStoresLast(was, run.step, k, Grants(run.before, k));
    }
  }

  predicate Presents(s: Step, token: Token<TaskId>) {
    || (s.Heartbeat? && s.token == token)
    || (s.Complete? && s.token == token)
    || (s.Fail? && s.token == token)
  }

  /** A token its row does not store changes nothing. */
  lemma StrayTokenIsInert(w: World, s: Step, token: Token<TaskId>)
    requires Presents(s, token)
    requires token.item in w.rows ==> w.rows[token.item].core.token != Some(token)
    ensures NextRows(w, s) == w.rows
  {
  }

  /** A stored token that still verifies takes its row out of the lease, whatever the row's status. */
  lemma StoredTokenActs(w: World, token: Token<TaskId>)
    requires token.item in w.rows && w.rows[token.item].core.token == Some(token)
    ensures var s := Fail(token, false, token.expSec * SECOND);
      Presents(s, token) && NextRows(w, s) != w.rows
  {
    var rows' := NextRows(w, Fail(token, false, token.expSec * SECOND));
    assert rows'[token.item].core.token.None?;
  }

  /** Some presentation of the token changes a row. */
  ghost predicate StillActs(w: World, token: Token<TaskId>) {
    exists s :: Presents(s, token) && NextRows(w, s) != w.rows
  }

  /** A token still acts exactly when its row stores it. */
  lemma StillActsIff(w: World, token: Token<TaskId>)
    requires token.item in w.rows
    ensures StillActs(w, token) <==> w.rows[token.item].core.token == Some(token)
  {
    if w.rows[token.item].core.token == Some(token) {
      StoredTokenActs(w, token);
    } else {
      forall s | Presents(s, token)
        ensures NextRows(w, s) == w.rows
      {
        StrayTokenIsInert(w, s, token);
      }
    }
  }

  /**
   * Exactly when some step can still act under the token of a grant of task k, in
   * every run, careless ones included: the row carries lease columns, and the last
   * grant went to the same worker inside the same expiry second.
   */
  lemma TokenActsIff(run: Run, w: World, k: TaskId, i: nat)
    requires Legal(run) && w == Last(run) && k in w.rows && i < |Grants(run, k)|
    ensures var grants := Grants(run, k);
      StillActs(w, TokenOf(k, grants[i]))
      <==> w.rows[k].core.token.Some? && Alike(grants[i], grants[|grants| - 1])
  {
    EveryRunStoresLast(run, w, k);
    StillActsIff(w, TokenOf(k, Grants(run, k)[i]));
  }

  /** Every heartbeat sets the clock plus extend, read at most lag after its token was verified. */
  ghost predicate BeatsOnTime(run: Run, extend: Time, lag: Time) {
    match run
    case Start(_) => true
    case Then(before, s) =>
      BeatsOnTime(before, extend, lag) && (s.Heartbeat? ==> s.newExpiry <= s.verifiedAt + lag + extend)
  }

  ghost predicate Brief(c: Core<TaskId>, grants: seq<Issue>, slack: Time) {
    c.token.Some? && c.expiresAt.Some? && grants != [] ==>
      c.expiresAt.value <= grants[|grants| - 1].expires + slack
  }

  lemma StepStaysBrief(w: World, s: Step, k: TaskId, grants: seq<Issue>, slack: Time)
    requires Enabled(w, s) && k in NextRows(w, s) && slack >= 0
    requires k in w.rows ==> StoresLast(w.rows[k].core, k, grants) && Brief(w.rows[k].core, grants, slack)
    requires s.Heartbeat? ==> s.newExpiry <= s.verifiedAt + slack
    ensures Brief(NextRows(w, s)[k].core, NextGrants(w, s, k, grants), slack)
  {
    if s.Reserve? {
      var picks := Picks(w.rows, s.kinds, s.batch);
      PicksAreQueued(w.rows, s.kinds, s.batch);
      LeasingAt(w.rows, picks, |picks|, s.worker, s.expires, k);
    }
  }

  lemma {:induction false} EveryRunIsBrief(run: Run, w: World, k: TaskId, extend: Time, lag: Time)
    requires Legal(run) && BeatsOnTime(run, extend, lag) && extend >= 0 && lag >= 0
    requires w == Last(run) && k in w.rows
    ensures Brief(w.rows[k].core, Grants(run, k), extend + lag)
  {
    if run.Then? {
      var was := Last(run.before);
      if k in was.rows {
        EveryRunStoresLast(run.before, was, k);
        EveryRunIsBrief(run.before, was, k, extend, lag);
      }
      StepStaysBrief(was, run.step, k, Grants(run.before, k), extend + lag);
    }
  }

  /**
   * Lease lifetime. However often the holder heartbeats, the stored expiry stays
   * within one extension and one lag of the expiry its reserve granted, and a sweep
   * reading later takes the lease away.
   */
  lemma LeaseLifetimeIsBounded(run: Run, w: World, k: TaskId, extend: Time, lag: Time, readAt: Time)
    requires Legal(run) && BeatsOnTime(run, extend, lag) && extend >= 0 && lag >= 0
    requires w == Last(run) && k in w.rows && w.rows[k].core.status == Leased && w.rows[k].core.token.Some?
    ensures var c, grants := w.rows[k].core, Grants(run, k);
      && grants != [] && c.token.value == TokenOf(k, grants[|grants| - 1]) && c.expiresAt.Some?
      && c.expiresAt.value <= grants[|grants| - 1].expires + extend + lag
      && (readAt > grants[|grants| - 1].expires + extend + lag ==>
            Swept(w.rows, readAt)[k].core == Unleased(Queued, c.attempts))
  {
    EveryRunStoresLast(run, w, k);
    EveryRunIsBrief(run, w, k, extend, lag);
  }

  /**
   * A careless requeue: the operator requeues a running internal job, an
   * external worker leases it, and the pipeline's late MarkFailed puts a row with
   * a live lease back into the queue.
   */
  lemma CarelessRequeueMixesOwners(expires: Time)
    ensures exists run :: Legal(run) && 1 in Last(run).rows
              && Last(run).rows[1].core.status == Queued && FullLease(Last(run).rows[1].core)
  {
    var task := Task(1, HtmlStrip, 3);
    var queued := Row(Unleased(Queued, 0), task);
    var claimed := Row(Core(Leased, None, None, None, 1), task);
    var requeued := Row(Unleased(Queued, 1), task);
    var leased := LeasedRow(requeued, 1, 7, expires);
    var w0, w1 := World(map[1 := queued], {}), World(map[1 := claimed], {1});
    var w2, w3 := World(map[1 := requeued], {1}), World(map[1 := leased], {1});
    ClaimThenRequeue(task);
    LeaseOnlyTask(w2, 7, expires);
    assert Next(w2, Reserve(7, [], 1, expires)) == w3;
    var r1 := Extend(Start(w0), Claim(HtmlStrip));
    var r2 := Extend(r1, Requeue(TaskFilter(None, 0, None)));
    var r3 := Extend(r2, Reserve(7, [], 1, expires));
    var r4 := Extend(r3, MarkFailed(1));
    LateMark(w3, task, expires);
  }

  lemma ClaimThenRequeue(task: Task)
    requires task.processor == HtmlStrip
    ensures Next(World(map[1 := Row(Unleased(Queued, 0), task)], {}), Claim(HtmlStrip))
         == World(map[1 := Row(Core(Leased, None, None, None, 1), task)], {1})
    ensures Next(World(map[1 := Row(Core(Leased, None, None, None, 1), task)], {1}), Requeue(TaskFilter(None, 0, None)))
         == World(map[1 := Row(Unleased(Queued, 1), task)], {1})
  {
    assert QueuedFor(map[1 := Row(Unleased(Queued, 0), task)], HtmlStrip) == {1};
  }

  lemma LateMark(w: World, task: Task, expires: Time)
    requires w.rows == map[1 := LeasedRow(Row(Unleased(Queued, 1), task), 1, 7, expires)] && task.maxAttempts == 3
    ensures 1 in Next(w, MarkFailed(1)).rows
    ensures Next(w, MarkFailed(1)).rows[1].core.status == Queued && FullLease(Next(w, MarkFailed(1)).rows[1].core)
  {
  }

  lemma LeaseOnlyTask(w: World, worker: int, expires: Time)
    requires w.rows.Keys == {1} && w.rows[1].core.status == Queued
    ensures NextRows(w, Reserve(worker, [], 1, expires)) == map[1 := LeasedRow(w.rows[1], 1, worker, expires)]
  {
    var picks := Picks(w.rows, [], 1);
    PicksAreQueued(w.rows, [], 1);
    assert QueuedOf(w.rows, []) == {1};
    SortedLists({1});
    assert 1 in Sorted({1}) && |Sorted({1})| == 1;
    assert picks[0] == 1;
    LeasingAt(w.rows, picks, 1, worker, expires, 1);
    assert Among(1, picks, 1);
  }

  lemma Extend(run: Run, s: Step) returns (more: Run)
    requires Legal(run) && Enabled(Last(run), s)
    ensures more == Then(run, s) && Legal(more) && Last(more) == Next(Last(run), s)
  {
    more := Then(run, s);
  }
}

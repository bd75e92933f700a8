/** The in-process claim loop over processing_jobs. */
module PipelineModel {
  import opened LeaseTable
  import opened Keyset
  import opened TaskModel

  /** What happens around one ClaimNext: it may error, the work may fail, the status write may fail. */
  datatype Event = Event(claimErrs: bool, workFails: bool, markErrs: bool)

  /** exec's switch; a processor it does not know is left running. */
  function Executing(rows: Tasks, id: TaskId, p: Processor, e: Event): Tasks {
    if e.markErrs then rows
    else
      match p
      case HtmlStrip => if e.workFails then MarkingFailed(rows, id) else Marked(rows, id, Done)
      case TextPassthrough => if e.workFails then MarkingFailed(rows, id) else Marked(rows, id, Done)
      case PdfOcr => Marked(rows, id, if e.workFails then Skipped else Done)
      case DocxToPdf => Marked(rows, id, Skipped)
      case OfficeToPdf => Marked(rows, id, Skipped)
      case _ => rows
  }

  predicate Known(p: Processor) {
    !p.ChunkText? && !p.Other?
  }

  /** The queued tasks of the listed processors. */
  function Pool(rows: Tasks, internal: seq<Processor>): set<TaskId> {
    set k | k in rows && rows[k].core.status == Queued && rows[k].info.processor in internal
  }

  /** The claims one queued task can still take. */
  function Weight(r: TaskRow): (n: nat)
    ensures n >= 1
  {
    if r.info.maxAttempts - r.core.attempts > 1 then r.info.maxAttempts - r.core.attempts else 1
  }

  function Work(rows: Tasks, s: set<TaskId>): nat
    requires s <= rows.Keys
    decreases |s|
  {
    if s == {} then 0
    else
      var k := MinOf(s);
      Weight(rows[k]) + Work(rows, s - {k})
  }

  lemma {:induction false} WorkSplits(rows: Tasks, s: set<TaskId>, k: TaskId)
    requires s <= rows.Keys && k in s
    ensures Work(rows, s) == Weight(rows[k]) + Work(rows, s - {k})
    decreases |s|
  {
    var m := MinOf(s);
    if m != k {
      WorkSplits(rows, s - {m}, k);
      assert m in s - {k};
      assert s - {m} - {k} == s - {k} - {m};
    }
  }

  lemma {:induction false} WorkDependsOn(rows: Tasks, rows': Tasks, s: set<TaskId>)
    requires s <= rows.Keys && s <= rows'.Keys && forall k | k in s :: rows[k] == rows'[k]
    ensures Work(rows, s) == Work(rows', s)
    decreases |s|
  {
    if s != {} {
      WorkDependsOn(rows, rows', s - {MinOf(s)});
    }
  }

  /** One claim and its execution. */
  function Served(rows: Tasks, id: TaskId, e: Event): Tasks
    requires id in rows
  {
    Executing(rows[id := ClaimedRow(rows[id])], id, rows[id].info.processor, e)
  }

  lemma ServedRow(rows: Tasks, id: TaskId, e: Event)
    requires id in rows && rows[id].core.status == Queued
    ensures var rows' := Served(rows, id, e); var r := rows[id];
      && rows'.Keys == rows.Keys
      && (forall k | k in rows && k != id :: rows'[k] == rows[k])
      && rows'[id] == r.(core := r.core.(status := rows'[id].core.status, attempts := r.core.attempts + 1))
      && (rows'[id].core.status == Queued ==> Weight(rows'[id]) + 1 == Weight(r))
      && (rows'[id].core.status == Leased <==> e.markErrs || !Known(r.info.processor))
  {
  }

  /** Every claim uses up at least one unit of the work there is. */
  lemma ServingUsesWork(rows: Tasks, internal: seq<Processor>, id: TaskId, e: Event)
    requires id in Pool(rows, internal)
    ensures var rows' := Served(rows, id, e); Work(rows', Pool(rows', internal)) + 1 <= Work(rows, Pool(rows, internal))
  {
    var rows', pool := Served(rows, id, e), Pool(rows, internal);
    ServedRow(rows, id, e);
    WorkSplits(rows, pool, id);
    WorkDependsOn(rows, rows', pool - {id});
    if rows'[id].core.status == Queued {
      assert Pool(rows', internal) == pool;
      WorkSplits(rows', pool, id);
    } else {
      assert Pool(rows', internal) == pool - {id};
    }
  }

  /** A task that failed with attempts left is the next one claimed. */
  lemma RetriedFirst(rows: Tasks, p: Processor, e: Event)
    requires QueuedFor(rows, p) != {}
    requires var id := MinOf(QueuedFor(rows, p)); Served(rows, id, e)[id].core.status == Queued
    ensures var id := MinOf(QueuedFor(rows, p)); var rows' := Served(rows, id, e);
      QueuedFor(rows', p) == QueuedFor(rows, p) && MinOf(QueuedFor(rows', p)) == id
  {
    var id := MinOf(QueuedFor(rows, p));
    ServedRow(rows, id, e);
    assert QueuedFor(Served(rows, id, e), p) == QueuedFor(rows, p);
  }

  /**
   * One task before a drain and some claims later. A task outside the pool is
   * untouched. A pooled one has spent attempts out of its weight and keeps its
   * columns but status and attempts; it is out of the queue once its weight is spent.
   */
  ghost predicate Progressed(was: TaskRow, now: TaskRow, pooled: bool) {
    if !pooled then now == was
    else
      && now == was.(core := was.core.(status := now.core.status, attempts := now.core.attempts))
      && was.core.attempts <= now.core.attempts
      && (now.core.status == Queued ==> now.core.attempts - was.core.attempts + Weight(now) <= Weight(was))
      && now.core.attempts - was.core.attempts <= Weight(was)
      && (now.core.status != Queued ==> was.core.attempts < now.core.attempts)
  }

  /** rows after some claims of a drain that began at start. */
  ghost predicate Drained(start: Tasks, rows: Tasks, internal: seq<Processor>) {
    && rows.Keys == start.Keys
    && forall k | k in start :: Progressed(start[k], rows[k], k in Pool(start, internal))
  }

  /** Settled for good: done, failed or skipped. */
  predicate Settled(r: TaskRow) {
    r.core.status == Done || r.core.status == Failed || r.core.status == Skipped
  }

  ghost predicate QueuedOrSettled(start: Tasks, rows: Tasks, internal: seq<Processor>) {
    forall k | k in Pool(start, internal) :: k in rows && (rows[k].core.status == Queued || Settled(rows[k]))
  }

  lemma ServingDrains(start: Tasks, rows: Tasks, internal: seq<Processor>, id: TaskId, e: Event)
    requires Drained(start, rows, internal) && id in Pool(rows, internal)
    ensures Drained(start, Served(rows, id, e), internal)
    ensures QueuedOrSettled(start, rows, internal) && !e.markErrs && Known(rows[id].info.processor) ==>
              QueuedOrSettled(start, Served(rows, id, e), internal)
  {
    var rows' := Served(rows, id, e);
    ServedRow(rows, id, e);
    assert Progressed(start[id], rows[id], id in Pool(start, internal));
    assert id in Pool(start, internal);
    forall k | k in start
      ensures Progressed(start[k], rows'[k], k in Pool(start, internal))
    {
      assert Progressed(start[k], rows[k], k in Pool(start, internal));
    }
    ServedSettles(rows, id, e);
  }

  lemma ServedSettles(rows: Tasks, id: TaskId, e: Event)
    requires id in rows && rows[id].core.status == Queued
    ensures !e.markErrs && Known(rows[id].info.processor) ==>
              Served(rows, id, e)[id].core.status == Queued || Settled(Served(rows, id, e)[id])
  {
  }
}

/** What a drain promises, told from the columns. */
module PipelineLaws {
  import opened LeaseTable
  import opened TaskModel
  import opened PipelineModel

  /**
   * A queued task of a listed processor is claimed at most max(1, max_attempts -
   * attempts) times and keeps its columns but status and attempts; every other task is
   * untouched.
   */
  lemma DrainedOnColumns(start: Tasks, rows: Tasks, internal: seq<Processor>, k: TaskId)
    requires Drained(start, rows, internal) && k in start
    ensures rows.Keys == start.Keys
    ensures var was, now := start[k], rows[k];
      if was.core.status == Queued && was.info.processor in internal then
        && now == was.(core := was.core.(status := now.core.status, attempts := now.core.attempts))
        && 0 <= now.core.attempts - was.core.attempts
        && (now.core.attempts - was.core.attempts <= 1
            || now.core.attempts - was.core.attempts <= was.info.maxAttempts - was.core.attempts)
      else now == was
  {
    assert Progressed(start[k], rows[k], k in Pool(start, internal));
  }

  /** Nothing pooled and nothing unsettled, told from the columns. */
  lemma SettledOnColumns(start: Tasks, rows: Tasks, internal: seq<Processor>, k: TaskId)
    requires Drained(start, rows, internal) && k in start
    requires Pool(rows, internal) == {} && forall i | i in Pool(start, internal) :: i in rows && Settled(rows[i])
    ensures start[k].core.status == Queued && start[k].info.processor in internal ==>
              rows[k].core.status == Done || rows[k].core.status == Failed || rows[k].core.status == Skipped
    ensures rows[k].core.status == Queued ==> rows[k].info.processor !in internal
  {
    assert k in Pool(rows, internal) <==> rows[k].core.status == Queued && rows[k].info.processor in internal;
    assert start[k].core.status == Queued && start[k].info.processor in internal ==> k in Pool(start, internal);
  }
}

module PipelineService {
  import opened Wrappers
  import opened Finite
  import opened LeaseTable
  import opened Keyset
  import opened TaskModel
  import opened TaskRepository
  import opened PipelineModel

  class Pipeline {
    const processing: TaskRepo
    const internal: seq<Processor>

    constructor (processing: TaskRepo, internal: seq<Processor>)
      ensures this.processing == processing && this.internal == internal
    {
      this.processing, this.internal := processing, internal;
    }

    method Exec(job: Claim, e: Event)
      requires job.id in processing.tasks
      modifies processing
      ensures processing.tasks == Executing(old(processing.tasks), job.id, job.processor, e)
      ensures var r, p := old(processing.tasks)[job.id], job.processor;
        var retried := if r.core.attempts < r.info.maxAttempts then Queued else Failed;
        var status :=
          if e.markErrs || p == ChunkText || p.Other? then r.core.status
          else if p == DocxToPdf || p == OfficeToPdf then Skipped
          else if !e.workFails then Done
          else if p == PdfOcr then Skipped
          else retried;
        processing.tasks == old(processing.tasks)[job.id := r.(core := r.core.(status := status))]
    {
      if e.markErrs {
        return;
      }
      match job.processor {
        case HtmlStrip =>
          if e.workFails {
            var _ := processing.MarkFailed(job.id);
            return;
          }
          processing.MarkDone(job.id);
        case TextPassthrough =>
          if e.workFails {
            var _ := processing.MarkFailed(job.id);
            return;
          }
          processing.MarkDone(job.id);
        case PdfOcr =>
          if e.workFails {
            processing.MarkSkipped(job.id);
            return;
          }
          processing.MarkDone(job.id);
        case DocxToPdf => processing.MarkSkipped(job.id);
        case OfficeToPdf => processing.MarkSkipped(job.id);
        case _ =>
      }
    }

    /** ClaimNext and, if it hands out a job, exec. */
    method ServeNext(proc: Processor, e: Event) returns (id: Option<TaskId>)
      modifies processing
      ensures var rows := old(processing.tasks); var queued := QueuedFor(rows, proc);
        if queued == {} then id.None? && processing.tasks == rows
        else
          && id.Some? && id.value in queued && id.value == MinOf(queued)
          && processing.tasks == Served(rows, id.value, e)
    {
      var job := processing.ClaimNext(proc);
      if job.None? {
        return None;
      }
      Exec(job.value, e);
      id := Some(job.value.id);
    }

    /** One poll: an error or an empty queue ends the loop, a job is executed. */
    method Poll(proc: Processor, events: nat -> Event, polls: nat, ghost claims: nat, ghost start: Tasks,
        ghost done: seq<Processor>)
        returns (more: bool)
      requires proc in internal
      requires Underway(start, processing.tasks, internal, events, polls, claims)
      requires Emptied(processing.tasks, done, events, polls)
      modifies processing
      ensures Underway(start, processing.tasks, internal, events, polls + 1, if more then claims + 1 else claims)
      ensures Emptied(processing.tasks, if more then done else done + [proc], events, polls + 1)
      ensures more ==> Work(processing.tasks, Pool(processing.tasks, internal))
                       < Work(old(processing.tasks), Pool(old(processing.tasks), internal))
    {
      ghost var rows := processing.tasks;
      if events(polls).claimErrs {
        Errored(start, rows, internal, events, polls, claims, done + [proc]);
        return false;
      }
      var id := ServeNext(proc, events(polls));
      if id.None? {
        NothingLeft(start, rows, internal, events, polls, claims, done, proc);
        return false;
      }
      OneClaim(start, rows, internal, events, polls, claims, done, proc, id.value);
      more := true;
    }

    /** The claim loop of one processor. */
    method DrainOne(proc: Processor, events: nat -> Event, polled: nat, claimed: nat,
                    ghost start: Tasks, ghost done: seq<Processor>) returns (claims: nat, polls: nat)
      requires proc in internal
      requires Underway(start, processing.tasks, internal, events, polled, claimed)
      requires Emptied(processing.tasks, done, events, polled)
      modifies processing
      ensures Underway(start, processing.tasks, internal, events, polls, claims)
      ensures Emptied(processing.tasks, done + [proc], events, polls)
    {
      claims, polls := claimed, polled;
      while true
        invariant Underway(start, processing.tasks, internal, events, polls, claims)
        invariant Emptied(processing.tasks, done, events, polls)
        decreases Work(processing.tasks, Pool(processing.tasks, internal))
      {
        var more := Poll(proc, events, polls, claims, start, done);
        polls := polls + 1;
        if !more {
          return;
        }
        claims := claims + 1;
      }
    }

    /**
     * One tick. Failed tasks go back to the queue and are claimed again first, yet
     * the claims are bounded by the work queued at the start; events tells what each
     * ClaimNext meets.
     */
    method Drain(events: nat -> Event) returns (claims: nat, polls: nat)
      modifies processing
      ensures var start, rows := old(processing.tasks), processing.tasks;
        && claims + Work(rows, Pool(rows, internal)) <= Work(start, Pool(start, internal))
        && Drained(start, rows, internal)
        && (NoClaimErrors(events, polls) ==> Pool(rows, internal) == {})
        && (NoClaimErrors(events, polls) && NoMarkErrors(events, polls) && (forall p | p in internal :: Known(p)) ==>
              forall k | k in Pool(start, internal) :: Settled(rows[k]))
    {
      ghost var start := processing.tasks;
      claims, polls := 0, 0;
      for i := 0 to |internal|
        invariant Underway(start, processing.tasks, internal, events, polls, claims)
        invariant Emptied(processing.tasks, internal[..i], events, polls)
      {
        claims, polls := DrainOne(internal[i], events, polls, claims, start, internal[..i]);
        assert internal[..i + 1] == internal[..i] + [internal[i]];
      }
      assert internal[..|internal|] == internal;
      DrainEnds(start, processing.tasks, internal, events, polls, claims);
    }
  }

  ghost predicate NoClaimErrors(events: nat -> Event, polls: nat) {
    forall n: nat | n < polls :: !events(n).claimErrs
  }

  ghost predicate NoMarkErrors(events: nat -> Event, polls: nat) {
    forall n: nat | n < polls :: !events(n).markErrs
  }

  /** What holds between any two polls of a drain that began at start. */
  ghost predicate Underway(start: Tasks, rows: Tasks, internal: seq<Processor>, events: nat -> Event, polls: nat,
      claims: nat)
  {
    && claims + Work(rows, Pool(rows, internal)) <= Work(start, Pool(start, internal))
    && Drained(start, rows, internal)
    && (NoMarkErrors(events, polls) && (forall p | p in internal :: Known(p)) ==>
         QueuedOrSettled(start, rows, internal))
  }

  ghost predicate Emptied(rows: Tasks, done: seq<Processor>, events: nat -> Event, polls: nat) {
    NoClaimErrors(events, polls) ==> forall p | p in done :: QueuedFor(rows, p) == {}
  }

  /** What one turn of the claim loop gives and leaves alone. */
  lemma OneClaim(start: Tasks, rows: Tasks, internal: seq<Processor>, events: nat -> Event, polls: nat, claims: nat,
                 done: seq<Processor>, p: Processor, id: TaskId)
    requires Underway(start, rows, internal, events, polls, claims) && Emptied(rows, done, events, polls)
    requires p in internal && id in rows && id in QueuedFor(rows, p)
    ensures var rows' := Served(rows, id, events(polls));
      && Work(rows', Pool(rows', internal)) < Work(rows, Pool(rows, internal))
      && Underway(start, rows', internal, events, polls + 1, claims + 1)
      && Emptied(rows', done, events, polls + 1)
  {
    var e := events(polls);
    var rows' := Served(rows, id, e);
    ServingUsesWork(rows, internal, id, e);
    ServingDrains(start, rows, internal, id, e);
    if NoClaimErrors(events, polls + 1) {
      assert NoClaimErrors(events, polls);
      forall q | q in done
        ensures QueuedFor(rows', q) == {}
      {
        ServingQueuesNone(rows, id, e, q);
      }
    }
    if NoMarkErrors(events, polls + 1) {
      assert NoMarkErrors(events, polls) && !events(polls).markErrs;
    }
  }

  lemma ServingQueuesNone(rows: Tasks, id: TaskId, e: Event, q: Processor)
    requires id in rows && rows[id].core.status == Queued
    ensures QueuedFor(Served(rows, id, e), q) <= QueuedFor(rows, q)
  {
    ServedRow(rows, id, e);
  }

  lemma Errored(start: Tasks, rows: Tasks, internal: seq<Processor>, events: nat -> Event, polls: nat, claims: nat,
                done: seq<Processor>)
    requires Underway(start, rows, internal, events, polls, claims) && events(polls).claimErrs
    ensures Underway(start, rows, internal, events, polls + 1, claims) && Emptied(rows, done, events, polls + 1)
  {
    assert NoMarkErrors(events, polls + 1) ==> NoMarkErrors(events, polls);
    assert !NoClaimErrors(events, polls + 1);
  }

  lemma NothingLeft(start: Tasks, rows: Tasks, internal: seq<Processor>, events: nat -> Event, polls: nat, claims: nat,
                    done: seq<Processor>, p: Processor)
    requires Underway(start, rows, internal, events, polls, claims) && Emptied(rows, done, events, polls)
    requires QueuedFor(rows, p) == {}
    ensures Underway(start, rows, internal, events, polls + 1, claims) && Emptied(rows, done + [p], events, polls + 1)
  {
    assert NoMarkErrors(events, polls + 1) ==> NoMarkErrors(events, polls);
    assert NoClaimErrors(events, polls + 1) ==> NoClaimErrors(events, polls);
  }

  lemma HasQueue(rows: Tasks, internal: seq<Processor>)
    requires Pool(rows, internal) != {}
    ensures exists p :: p in internal && QueuedFor(rows, p) != {}
  {
    var k := Member(Pool(rows, internal));
    assert k in QueuedFor(rows, rows[k].info.processor);
  }

  lemma DrainEnds(start: Tasks, rows: Tasks, internal: seq<Processor>, events: nat -> Event, polls: nat, claims: nat)
    requires Underway(start, rows, internal, events, polls, claims) && Emptied(rows, internal, events, polls)
    ensures NoClaimErrors(events, polls) ==> Pool(rows, internal) == {}
    ensures NoClaimErrors(events, polls) && NoMarkErrors(events, polls) && (forall p | p in internal :: Known(p)) ==>
              forall k | k in Pool(start, internal) :: Settled(rows[k])
  {
    if NoClaimErrors(events, polls) {
      if Pool(rows, internal) != {} {
        HasQueue(rows, internal);
      }
      forall k | k in Pool(start, internal) && k in rows && rows[k].core.status == Queued
        ensures k in Pool(rows, internal)
      {
        assert Progressed(start[k], rows[k], true);
      }
    }
  }
}

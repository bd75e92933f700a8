/** Fanning one reservation of chunks out over embedding hosts. */
module EmbedModel {

  datatype Chunk = Chunk(id: nat, leaseToken: nat, text: string)

  type Vector = seq<real>

  /** What one embed request gives. */
  datatype Reply = Vectors(vectors: seq<Vector>) | Failure(reason: string)

  datatype Slot =
    | Embedded(chunk: nat, leaseToken: nat, vector: Vector)
    | Unembedded(chunk: nat, leaseToken: nat, reason: string)

  /**
   * What each host replies to the request for a whole sub-batch, by its offset, and
   * to the request for one text, by its index.
   */
  datatype Hosts = Hosts(size: nat, batch: (nat, nat) -> Reply, single: (nat, nat) -> Reply)

  datatype Job = Job(chunks: seq<Chunk>, subBatch: nat, maxConc: nat, hosts: Hosts)

  /** A job the flags admit: sub-batches of at least one text, at least one host. */
  predicate Runnable(job: Job) {
    job.subBatch >= 1 && job.hosts.size >= 1
  }

  /** The host of the request that finds the round-robin counter at `picks`. */
  function HostAt(job: Job, picks: nat): (host: nat)
    requires Runnable(job)
    ensures host < job.hosts.size
  {
    picks % job.hosts.size
  }

  function Min(a: int, b: int): int { if a < b then a else b }

  /** The offset of the sub-batch that holds slot i. */
  function OffsetOf(i: nat, subBatch: nat): (off: nat)
    requires subBatch >= 1
    ensures off <= i < off + subBatch
  {
    if i < subBatch then 0 else OffsetOf(i - subBatch, subBatch) + subBatch
  }

  lemma {:induction false} OffsetWithin(off: nat, i: nat, subBatch: nat)
    requires subBatch >= 1 && OffsetOf(off, subBatch) == off && off <= i < off + subBatch
    ensures OffsetOf(i, subBatch) == off
    decreases off
  {
    if off >= subBatch {
      OffsetWithin(off - subBatch, i - subBatch, subBatch);
    }
  }

  predicate BatchHolds(job: Job, host: nat, off: nat, end: nat) {
    off <= end && job.hosts.batch(host, off).Vectors? && |job.hosts.batch(host, off).vectors| == end - off
  }

  function OneByOne(c: Chunk, r: Reply): Slot {
    match r
    case Failure(reason) => Unembedded(c.id, c.leaseToken, reason)
    case Vectors(vs) =>
      if |vs| == 0 || |vs[0]| == 0 then Unembedded(c.id, c.leaseToken, "empty embedding")
      else Embedded(c.id, c.leaseToken, vs[0])
  }

  /**
   * Slot i when one host got its sub-batch and one its text: from the first reply if it
   * has the right length, else from the second.
   */
  function Expected(job: Job, i: nat, first: nat, second: nat): Slot
    requires Runnable(job) && i < |job.chunks|
  {
    var off := OffsetOf(i, job.subBatch);
    var end := Min(off + job.subBatch, |job.chunks|);
    if BatchHolds(job, first, off, end) then
      Embedded(job.chunks[i].id, job.chunks[i].leaseToken, job.hosts.batch(first, off).vectors[i - off])
    else
      OneByOne(job.chunks[i], job.hosts.single(second, i))
  }

  lemma {:induction false} OffsetOfMultiple(q: nat, off: nat, subBatch: nat)
    requires subBatch >= 1 && off == q * subBatch
    ensures OffsetOf(off, subBatch) == off
  {
    if q > 0 {
      assert off - subBatch == (q - 1) * subBatch;
      OffsetOfMultiple(q - 1, off - subBatch, subBatch);
    }
  }

  /**
   * A slot told from the replies: the vector of its place in the q-th sub-batch when that
   * reply has one per text, else its own reply's first vector, or the reason there is none.
   */
  lemma SlotOnReplies(job: Job, i: nat, first: nat, second: nat, q: nat, off: nat)
    requires Runnable(job) && i < |job.chunks| && off == q * job.subBatch && off <= i < off + job.subBatch
    ensures var slot, c := Expected(job, i, first, second), job.chunks[i];
      var batch, single := job.hosts.batch(first, off), job.hosts.single(second, i);
      var size := if off + job.subBatch <= |job.chunks| then job.subBatch else |job.chunks| - off;
      if batch.Vectors? && |batch.vectors| == size then
        slot == Embedded(c.id, c.leaseToken, batch.vectors[i - off])
      else if single.Failure? then slot == Unembedded(c.id, c.leaseToken, single.reason)
      else if single.vectors == [] || single.vectors[0] == [] then
        slot == Unembedded(c.id, c.leaseToken, "empty embedding")
      else slot == Embedded(c.id, c.leaseToken, single.vectors[0])
  {
    OffsetOfMultiple(q, off, job.subBatch);
    OffsetWithin(off, i, job.subBatch);
  }

  /**
   * Exactly when a slot carries an empty vector, which the registry refuses: the reply
   * for the sub-batch has the right length and is empty there. Single replies are checked.
   */
  lemma EmptyVectorIff(job: Job, i: nat, first: nat, second: nat)
    requires Runnable(job) && i < |job.chunks|
    ensures var slot, off := Expected(job, i, first, second), OffsetOf(i, job.subBatch);
      slot.Embedded? && slot.vector == []
      <==> && BatchHolds(job, first, off, Min(off + job.subBatch, |job.chunks|))
           && job.hosts.batch(first, off).vectors[i - off] == []
  {
  }

  /** What some two hosts of the fleet make of slot i. */
  ghost predicate Fits(job: Job, i: nat, slot: Slot)
    requires Runnable(job) && i < |job.chunks|
  {
    exists first: nat, second: nat ::
        first < job.hosts.size && second < job.hosts.size && slot == Expected(job, i, first, second)
  }

  lemma ItFits(job: Job, i: nat, first: nat, second: nat)
    requires Runnable(job) && i < |job.chunks| && first < job.hosts.size && second < job.hosts.size
    ensures Fits(job, i, Expected(job, i, first, second))
  {
  }

  /** Every host runs the same model and fails on the same requests. */
  ghost predicate HostsAgree(job: Job) {
    && (forall a, b, off :: job.hosts.batch(a, off) == job.hosts.batch(b, off))
    && (forall a, b, i :: job.hosts.single(a, i) == job.hosts.single(b, i))
  }

  /** A slot speaks about its own chunk, and agreeing hosts leave no choice. */
  lemma FittingSlots(job: Job, i: nat, slot: Slot)
    requires Runnable(job) && i < |job.chunks| && Fits(job, i, slot)
    ensures slot.chunk == job.chunks[i].id && slot.leaseToken == job.chunks[i].leaseToken
    ensures HostsAgree(job) ==> slot == Expected(job, i, 0, 0)
  {
    var first: nat, second: nat :| first < job.hosts.size && second < job.hosts.size
        && slot == Expected(job, i, first, second);
    if HostsAgree(job) {
      var off := OffsetOf(i, job.subBatch);
      assert job.hosts.batch(first, off) == job.hosts.batch(0, off);
      assert job.hosts.single(second, i) == job.hosts.single(0, i);
    }
  }
}

module EmbedFleet {
  import opened Wrappers
  import opened EmbedModel

  /** The body of one goroutine, writing its stretch of the shared results; picks is the round-robin counter. */
  method Worker(job: Job, off: nat, end: nat, results: array<Option<Slot>>, picked: nat) returns (picks: nat)
    requires Runnable(job) && results.Length == |job.chunks|
    requires off < |job.chunks| && OffsetOf(off, job.subBatch) == off && end == Min(off + job.subBatch, |job.chunks|)
    modifies results
    ensures forall i | off <= i < end :: results[i].Some? && Fits(job, i, results[i].value)
    ensures forall i | 0 <= i < results.Length && !(off <= i < end) :: results[i] == old(results[i])
    ensures picks == picked + 1 + if BatchHolds(job, HostAt(job, picked), off, end) then 0 else end - off
  {
    var host := HostAt(job, picked);
    picks := picked + 1;
    var reply := job.hosts.batch(host, off);
    if reply.Vectors? && |reply.vectors| == end - off {
      for j := off to end
        invariant forall i | off <= i < j :: results[i] == Some(Expected(job, i, host, host))
        invariant forall i | 0 <= i < results.Length && !(off <= i < j) :: results[i] == old(results[i])
      {
        OffsetWithin(off, j, job.subBatch);
        results[j] := Some(Embedded(job.chunks[j].id, job.chunks[j].leaseToken, reply.vectors[j - off]));
      }
      forall i | off <= i < end
        ensures Fits(job, i, results[i].value)
      {
        ItFits(job, i, host, host);
      }
      return;
    }
    for j := off to end
      invariant picks == picked + 1 + j - off
      invariant forall i | off <= i < j :: results[i].Some? && Fits(job, i, results[i].value)
      invariant forall i | 0 <= i < results.Length && !(off <= i < j) :: results[i] == old(results[i])
    {
      OffsetWithin(off, j, job.subBatch);
      ItFits(job, j, host, HostAt(job, picks));
      results[j] := Some(OneByOne(job.chunks[j], job.hosts.single(HostAt(job, picks), j)));
      picks := picks + 1;
    }
  }

  /** The launching loop, under the schedule that lets every goroutine finish at once. */
  method EmbedAll(job: Job, picked: nat) returns (results: array<Option<Slot>>, picks: nat)
    requires Runnable(job)
    ensures fresh(results) && results.Length == |job.chunks|
    ensures forall i | 0 <= i < results.Length :: results[i].Some? && Fits(job, i, results[i].value)
  {
    results := new Option<Slot>[|job.chunks|](_ => None);
    picks := picked;
    var i := 0;
    while i < |job.chunks|
      invariant OffsetOf(i, job.subBatch) == i
      invariant forall k | 0 <= k < Min(i, results.Length) :: results[k].Some? && Fits(job, k, results[k].value)
      decreases |job.chunks| - i
    {
      var end := i + job.subBatch;
      if end > |job.chunks| {
        end := |job.chunks|;
      }
      picks := Worker(job, i, end, results, picks);
      i := i + job.subBatch;
    }
  }
}

/** The same goroutines under any schedule, one write at a time. */
module EmbedRuns {
  import opened Wrappers
  import opened EmbedModel

  /** done counts the slots of the stretch already written. */
  datatype Phase = Ready | Writing(done: nat) | Retrying(done: nat) | Finished

  /** host is the one that got the sub-batch. */
  datatype Worker = Worker(off: nat, end: nat, host: nat, phase: Phase)

  datatype World = World(next: nat, workers: seq<Worker>, results: seq<Option<Slot>>, picks: nat)

  datatype Step = Launch | Turn(worker: nat)

  datatype Run = Start(picks: nat) | Then(before: Run, step: Step)

  function Active(ws: seq<Worker>, n: nat): nat
    requires n <= |ws|
  {
    if n == 0 then 0 else Active(ws, n - 1) + if ws[n - 1].phase.Finished? then 0 else 1
  }

  /** The semaphore holds maxConc goroutines back until one of them finishes. */
  predicate Enabled(job: Job, w: World, s: Step) {
    match s
    case Launch => w.next < |job.chunks| && Active(w.workers, |w.workers|) < job.maxConc
    case Turn(g) => g < |w.workers| && !w.workers[g].phase.Finished?
  }

  /** The counter may stand anywhere when a reservation arrives. */
  function Begin(job: Job, picks: nat): World {
    World(0, [], seq(|job.chunks|, _ => None), picks)
  }

  /** A goroutine after one turn; host is the one a request of this turn would go to. */
  function Advanced(job: Job, k: Worker, host: nat): Worker {
    match k.phase
    case Ready => k.(host := host, phase := if BatchHolds(job, host, k.off, k.end) then Writing(0) else Retrying(0))
    case Writing(done) => k.(phase := if k.off + done < k.end then Writing(done + 1) else Finished)
    case Retrying(done) => k.(phase := if k.off + done < k.end then Retrying(done + 1) else Finished)
    case Finished => k
  }

  /** The turn sends a request. */
  predicate Asks(k: Worker) {
    k.phase.Ready? || (k.phase.Retrying? && k.off + k.phase.done < k.end)
  }

  /** The slot a turn writes, if any. */
  function Written(job: Job, k: Worker, host: nat): Option<(nat, Slot)> {
    match k.phase
    case Writing(done) =>
      var i := k.off + done;
      if i < k.end && i < |job.chunks| && BatchHolds(job, k.host, k.off, k.end) then
        Some((i, Embedded(job.chunks[i].id, job.chunks[i].leaseToken, job.hosts.batch(k.host, k.off).vectors[done])))
      else None
    case Retrying(done) =>
      var i := k.off + done;
      if i < k.end && i < |job.chunks| then Some((i, OneByOne(job.chunks[i], job.hosts.single(host, i)))) else None
    case _ => None
  }

  function Launched(job: Job, w: World): World {
    var end := Min(w.next + job.subBatch, |job.chunks|);
    w.(workers := w.workers + [Worker(w.next, if end < 0 then 0 else end, 0, Ready)], next := w.next + job.subBatch)
  }

  function Next(job: Job, w: World, s: Step): World
    requires Runnable(job)
  {
    match s
    case Launch => Launched(job, w)
    case Turn(g) =>
      if g >= |w.workers| then w
      else
        var k, host := w.workers[g], HostAt(job, w.picks);
        var wrote := Written(job, k, host);
        World(w.next, w.workers[g := Advanced(job, k, host)],
              if wrote.Some? && wrote.value.0 < |w.results| then w.results[wrote.value.0 := Some(wrote.value.1)]
              else w.results,
              w.picks + if Asks(k) then 1 else 0)
  }

  ghost function Last(job: Job, run: Run): World
    requires Runnable(job)
  {
    match run
    case Start(picks) => Begin(job, picks)
    case Then(before, s) => Next(job, Last(job, before), s)
  }

  ghost predicate Legal(job: Job, run: Run)
    requires Runnable(job)
  {
    match run
    case Start(_) => true
    case Then(before, s) => Legal(job, before) && Enabled(job, Last(job, before), s)
  }

  /** wg.Wait returns: everything is launched and every goroutine is through. */
  predicate AllDone(job: Job, w: World) {
    w.next >= |job.chunks| && forall g | 0 <= g < |w.workers| :: w.workers[g].phase.Finished?
  }

  function Progress(k: Worker): nat {
    match k.phase
    case Ready => 0
    case Writing(done) => done
    case Retrying(done) => done
    case Finished => if k.off <= k.end then k.end - k.off else 0
  }

  predicate GoodWorker(job: Job, k: Worker)
    requires Runnable(job)
  {
    && k.off < |job.chunks| && OffsetOf(k.off, job.subBatch) == k.off
    && k.end == Min(k.off + job.subBatch, |job.chunks|)
    && k.off + Progress(k) <= k.end && k.host < job.hosts.size
    && (k.phase.Writing? ==> BatchHolds(job, k.host, k.off, k.end))
    && (k.phase.Retrying? ==> !BatchHolds(job, k.host, k.off, k.end))
  }

  ghost predicate GoodSlot(job: Job, results: seq<Option<Slot>>, i: nat)
    requires Runnable(job) && i < |results| == |job.chunks|
  {
    results[i].Some? ==> Fits(job, i, results[i].value)
  }

  /** Whatever is in a slot is what belongs there, and a goroutine has filled the slots it is past. */
  ghost predicate Inv(job: Job, w: World)
    requires Runnable(job)
  {
    && |w.results| == |job.chunks| && OffsetOf(w.next, job.subBatch) == w.next
    && (forall i | 0 <= i < |w.results| :: GoodSlot(job, w.results, i))
    && (forall g | 0 <= g < |w.workers| :: GoodWorker(job, w.workers[g]))
    && (forall g, i | 0 <= g < |w.workers| && w.workers[g].off <= i < w.workers[g].off + Progress(w.workers[g]) ::
          i < |w.results| && w.results[i] != None)
    && (forall i | 0 <= i < Min(w.next, |job.chunks|) :: Covered(w, i))
  }

  ghost predicate Covered(w: World, i: nat) {
    exists g :: 0 <= g < |w.workers| && w.workers[g].off <= i < w.workers[g].end
  }

  lemma LaunchKeepsInv(job: Job, w: World)
    requires Runnable(job) && Inv(job, w) && w.next < |job.chunks|
    ensures Inv(job, Launched(job, w))
  {
    var w' := Launched(job, w);
    assert GoodWorker(job, w'.workers[|w.workers|]);
    forall i | 0 <= i < |w'.results|
      ensures GoodSlot(job, w'.results, i)
    {
      assert GoodSlot(job, w.results, i);
    }
    forall i | 0 <= i < Min(w'.next, |job.chunks|)
      ensures Covered(w', i)
    {
      if i < w.next {
        assert Covered(w, i);
        var g :| 0 <= g < |w.workers| && w.workers[g].off <= i < w.workers[g].end;
        assert w'.workers[g] == w.workers[g];
      } else {
        assert w'.workers[|w.workers|].off <= i < w'.workers[|w.workers|].end;
      }
    }
  }

  lemma WritesWhatBelongs(job: Job, k: Worker, host: nat)
    requires Runnable(job) && GoodWorker(job, k) && host < job.hosts.size
    ensures var wrote, k' := Written(job, k, host), Advanced(job, k, host);
      && GoodWorker(job, k') && k'.off == k.off && k'.end == k.end
      && (wrote.Some? ==>
            && wrote.value.0 == k.off + Progress(k) < |job.chunks| && Fits(job, wrote.value.0, wrote.value.1)
            && Progress(k') == Progress(k) + 1)
      && (wrote.None? ==> Progress(k') == Progress(k))
  {
    var i := k.off + Progress(k);
    if i < k.end {
      OffsetWithin(k.off, i, job.subBatch);
      ItFits(job, i, k.host, host);
    }
  }

  lemma TurnKeepsSlots(job: Job, w: World, g: nat)
    requires Runnable(job) && Inv(job, w) && g < |w.workers|
    ensures var results := Next(job, w, Turn(g)).results;
      |results| == |job.chunks| && forall i | 0 <= i < |results| :: GoodSlot(job, results, i)
  {
    WritesWhatBelongs(job, w.workers[g], HostAt(job, w.picks));
    forall i | 0 <= i < |w.results|
      ensures GoodSlot(job, Next(job, w, Turn(g)).results, i)
    {
      assert GoodSlot(job, w.results, i);
    }
  }

  lemma TurnKeepsInv(job: Job, w: World, g: nat)
    requires Runnable(job) && Inv(job, w) && g < |w.workers|
    ensures Inv(job, Next(job, w, Turn(g)))
  {
    var w', k := Next(job, w, Turn(g)), w.workers[g];
    WritesWhatBelongs(job, k, HostAt(job, w.picks));
    TurnKeepsSlots(job, w, g);
    forall h, i | 0 <= h < |w'.workers| && w'.workers[h].off <= i < w'.workers[h].off + Progress(w'.workers[h])
      ensures i < |w'.results| && w'.results[i] != None
    {
      if h != g || i < k.off + Progress(k) {
        assert w'.workers[h].off == w.workers[h].off;
        assert i < w.workers[h].off + Progress(w.workers[h]);
      }
    }
    forall i | 0 <= i < Min(w'.next, |job.chunks|)
      ensures Covered(w', i)
    {
      assert Covered(w, i);
      var h :| 0 <= h < |w.workers| && w.workers[h].off <= i < w.workers[h].end;
      assert w'.workers[h].off <= i < w'.workers[h].end;
    }
  }

  lemma {:induction false} EveryRunKeepsInv(job: Job, run: Run)
    requires Runnable(job) && Legal(job, run)
    ensures Inv(job, Last(job, run))
  {
    if run.Then? {
      EveryRunKeepsInv(job, run.before);
      var w := Last(job, run.before);
      match run.step
      case Launch => LaunchKeepsInv(job, w);
      case Turn(g) => TurnKeepsInv(job, w, g);
    }
  }

  /**
   * Whatever the schedule, and so whichever hosts its requests went to, a fan-out
   * that is through has filled every slot under its own chunk's id and lease token
   * with what two hosts of the fleet make of it; when the hosts agree, every
   * schedule gives the same results.
   */
  lemma AnyScheduleFillsEverySlot(job: Job, run: Run, i: nat)
    requires Runnable(job) && Legal(job, run) && AllDone(job, Last(job, run)) && i < |job.chunks|
    ensures var results := Last(job, run).results;
      && i < |results| && results[i].Some? && Fits(job, i, results[i].value)
      && results[i].value.chunk == job.chunks[i].id && results[i].value.leaseToken == job.chunks[i].leaseToken
      && (HostsAgree(job) ==> results[i].value == Expected(job, i, 0, 0))
  {
    var w := Last(job, run);
    EveryRunKeepsInv(job, run);
    assert Covered(w, i);
    var g :| 0 <= g < |w.workers| && w.workers[g].off <= i < w.workers[g].end;
    assert GoodWorker(job, w.workers[g]) && GoodSlot(job, w.results, i);
    assert i < w.workers[g].off + Progress(w.workers[g]);
    FittingSlots(job, i, w.results[i].value);
  }

  // ----- every schedule comes to an end --------------------------------------

  function Left(k: Worker): nat {
    var size := if k.off <= k.end then k.end - k.off else 0;
    match k.phase
    case Ready => size + 2
    case Finished => 0
    case _ => if Progress(k) <= size then size - Progress(k) + 1 else 1
  }

  function Sum(ws: seq<Worker>, n: nat): nat
    requires n <= |ws|
  {
    if n == 0 then 0 else Sum(ws, n - 1) + Left(ws[n - 1])
  }

  function Measure(job: Job, w: World): nat {
    Sum(w.workers, |w.workers|) + 4 * if w.next < |job.chunks| then |job.chunks| - w.next else 0
  }

  lemma {:induction false} SumUpdated(ws: seq<Worker>, g: nat, k: Worker, n: nat)
    requires g < |ws| && n <= |ws|
    ensures Sum(ws[g := k], n) == Sum(ws, n) + if g < n then Left(k) - Left(ws[g]) else 0
  {
    if n > 0 {
      SumUpdated(ws, g, k, n - 1);
    }
  }

  lemma {:induction false} SumAppended(ws: seq<Worker>, k: Worker, n: nat)
    requires n <= |ws|
    ensures Sum(ws + [k], n) == Sum(ws, n)
  {
    if n > 0 {
      SumAppended(ws, k, n - 1);
    }
  }

  /** Every step uses up some of a bounded measure. */
  lemma StepsAreBounded(job: Job, w: World, s: Step)
    requires Runnable(job) && Inv(job, w) && Enabled(job, w, s)
    ensures Measure(job, Next(job, w, s)) < Measure(job, w)
  {
    match s
    case Launch =>
      var w' := Launched(job, w);
      SumAppended(w.workers, w'.workers[|w.workers|], |w.workers|);
    case Turn(g) =>
      var k, host := w.workers[g], HostAt(job, w.picks);
      WritesWhatBelongs(job, k, host);
      SumUpdated(w.workers, g, Advanced(job, k, host), |w.workers|);
      TurnLeavesLess(job, k, host);
  }

  lemma TurnLeavesLess(job: Job, k: Worker, host: nat)
    requires Runnable(job) && GoodWorker(job, k) && !k.phase.Finished?
    ensures Left(Advanced(job, k, host)) < Left(k)
  {
  }

  lemma {:induction false} SomeoneIsActive(ws: seq<Worker>, n: nat)
    requires n <= |ws| && Active(ws, n) > 0
    ensures exists g :: 0 <= g < n && !ws[g].phase.Finished?
  {
    if ws[n - 1].phase.Finished? {
      SomeoneIsActive(ws, n - 1);
      var g :| 0 <= g < n - 1 && !ws[g].phase.Finished?;
      assert 0 <= g < n;
    }
  }

  /** With room for at least one goroutine the fan-out never gets stuck. */
  lemma NeverStuck(job: Job, w: World)
    requires job.maxConc >= 1 && !AllDone(job, w)
    ensures exists s :: Enabled(job, w, s)
  {
    if w.next < |job.chunks| && Active(w.workers, |w.workers|) < job.maxConc {
      assert Enabled(job, w, Launch);
    } else {
      var g :| 0 <= g < |w.workers| && !w.workers[g].phase.Finished? by {
        if w.next < |job.chunks| {
          SomeoneIsActive(w.workers, |w.workers|);
        }
      }
      assert Enabled(job, w, Turn(g));
    }
  }
}

/** The round-robin over hosts, on a counter that wraps at 2^64. */
module RoundRobin {
  import opened Arithmetic

  const WORD: nat := 0x1_0000_0000_0000_0000

  class Fleet {
    const urls: seq<string>
    var count: nat

    constructor (urls: seq<string>)
      requires urls != []
      ensures this.urls == urls && count == 0
    {
      this.urls, count := urls, 0;
    }

    /** atomic.AddUint64, then the index from the value before. */
    method Pick() returns (url: string)
      requires urls != [] && count < WORD
      modifies this`count
      ensures count == (old(count) + 1) % WORD && url == urls[old(count) % |urls|]
    {
      count := (count + 1) % WORD;
      var before := (count + WORD - 1) % WORD;
      url := urls[before % |urls|];
    }
  }

  /** The host of the pick that finds the counter at c. */
  function HostOf(c: nat, hosts: nat): nat
    requires hosts >= 1
  {
    c % WORD % hosts
  }

  /** How many of n consecutive picks, the first finding the counter at c, go to host h. */
  function Load(c: nat, n: nat, hosts: nat, h: nat): nat
    requires hosts >= 1
  {
    if n == 0 then 0 else Load(c, n - 1, hosts, h) + if HostOf(c + n - 1, hosts) == h then 1 else 0
  }

  /** Of the counter values below m, those that go to host h. */
  function Below(m: nat, hosts: nat, h: nat): nat
    requires hosts >= 1
  {
    if m == 0 then 0 else Below(m - 1, hosts, h) + if (m - 1) % hosts == h then 1 else 0
  }

  lemma Quotient(m: nat, k: nat, q: int, r: int)
    requires k >= 1 && m == q * k + r && 0 <= r < k
    ensures m / k == q && m % k == r
  {
    var p := m / k;
    assert m == p * k + m % k;
    if p < q {
      Times(p + 1, q, k);
    } else if q < p {
      Times(q + 1, p, k);
    }
  }

  /** m is q full rounds and r picks more; the next number is r + 1 more, or one round more. */
  lemma RoundsGrow(m: nat, hosts: nat)
    requires hosts >= 1
    ensures var q, r := m / hosts, m % hosts;
      if r + 1 < hosts then (m + 1) / hosts == q && (m + 1) % hosts == r + 1
      else (m + 1) / hosts == q + 1 && (m + 1) % hosts == 0
  {
    var q, r := m / hosts, m % hosts;
    assert m == q * hosts + r;
    if r + 1 < hosts {
      Quotient(m + 1, hosts, q, r + 1);
    } else {
      assert (q + 1) * hosts == q * hosts + hosts;
      Quotient(m + 1, hosts, q + 1, 0);
    }
  }

  lemma {:induction false} BelowIs(m: nat, hosts: nat, h: nat)
    requires hosts >= 1 && h < hosts
    ensures Below(m, hosts, h) == m / hosts + if m % hosts > h then 1 else 0
  {
    if m > 0 {
      BelowIs(m - 1, hosts, h);
      RoundsGrow(m - 1, hosts);
    } else {
      Quotient(0, hosts, 0, 0);
    }
  }

  lemma NoWrap(c: nat, hosts: nat)
    requires hosts >= 1 && c < WORD
    ensures HostOf(c, hosts) == c % hosts
  {
  }

  /** With a fleet that divides the range of the counter, the wrap changes nothing. */
  lemma WrapIsSeamless(c: nat, hosts: nat)
    requires hosts >= 1 && WORD % hosts == 0
    ensures HostOf(c, hosts) == c % hosts
  {
    var turns, rounds, at := c / WORD, WORD / hosts, c % WORD;
    var q, r := at / hosts, at % hosts;
    assert c == turns * WORD + at && WORD == rounds * hosts && at == q * hosts + r;
    assert turns * (rounds * hosts) == (turns * rounds) * hosts;
    assert c == (turns * rounds + q) * hosts + r;
    Quotient(c, hosts, turns * rounds + q, r);
  }

  /** The stretch of picks from c does not notice the wrap. */
  predicate Unwrapped(c: nat, n: nat, hosts: nat)
    requires hosts >= 1
  {
    c + n <= WORD || WORD % hosts == 0
  }

  lemma {:induction false} LoadIsDifference(c: nat, n: nat, hosts: nat, h: nat)
    requires hosts >= 1 && Unwrapped(c, n, hosts)
    ensures Load(c, n, hosts, h) == Below(c + n, hosts, h) - Below(c, hosts, h)
  {
    if n > 0 {
      LoadIsDifference(c, n - 1, hosts, h);
      if c + n <= WORD {
        NoWrap(c + n - 1, hosts);
      } else {
        WrapIsSeamless(c + n - 1, hosts);
      }
    }
  }

  /**
   * Any stretch of picks below the wrap loads any two hosts evenly, up to one pick; past
   * it when the fleet divides 2^64.
   */
  lemma LoadsDifferByAtMostOne(c: nat, n: nat, hosts: nat, h: nat, k: nat)
    requires hosts >= 1 && h < hosts && k < hosts && Unwrapped(c, n, hosts)
    ensures Load(c, n, hosts, h) <= Load(c, n, hosts, k) + 1
  {
    LoadIsDifference(c, n, hosts, h);
    LoadIsDifference(c, n, hosts, k);
    BelowIs(c, hosts, h);
    BelowIs(c, hosts, k);
    BelowIs(c + n, hosts, h);
    BelowIs(c + n, hosts, k);
  }

  /** No stretch of picks loads two hosts more than one pick apart. */
  ghost predicate Fair(hosts: nat)
    requires hosts >= 1
  {
    forall c: nat, n: nat, h: nat, k: nat | h < hosts && k < hosts :: Load(c, n, hosts, h) <= Load(c, n, hosts, k) + 1
  }

  /** Just after the wrap the picks run through 0, 1, 2, ... */
  lemma {:induction false} PicksAfterWrap(n: nat, hosts: nat, h: nat)
    requires hosts >= 1 && n <= hosts && n <= WORD
    ensures Load(WORD, n, hosts, h) == if h < n then 1 else 0
  {
    if n > 0 {
      PicksAfterWrap(n - 1, hosts, h);
      AfterWrap(n - 1, hosts);
    }
  }

  lemma AfterWrap(i: nat, hosts: nat)
    requires hosts >= 1 && i < hosts && i < WORD
    ensures HostOf(WORD + i, hosts) == i
  {
    Quotient(WORD + i, WORD, 1, i);
    Quotient(i, hosts, 0, i);
  }

  lemma {:induction false} LoadFromBefore(c: nat, n: nat, hosts: nat, h: nat)
    requires hosts >= 1
    ensures Load(c, n + 1, hosts, h) == Load(c + 1, n, hosts, h) + if HostOf(c, hosts) == h then 1 else 0
  {
    if n > 0 {
      LoadFromBefore(c, n - 1, hosts, h);
    }
  }

  lemma LastBeforeWrap(hosts: nat)
    requires hosts >= 1 && WORD % hosts > 0
    ensures HostOf(WORD - 1, hosts) == WORD % hosts - 1
  {
    var q, r := WORD / hosts, WORD % hosts;
    assert WORD == q * hosts + r;
    NoWrap(WORD - 1, hosts);
    Quotient(WORD - 1, hosts, q, r - 1);
  }

  /** WORD % hosts + 1 picks across the wrap: the host before WORD % hosts gets two, that one none. */
  lemma WrapSkews(hosts: nat)
    requires hosts >= 1 && WORD % hosts > 0
    ensures var r := WORD % hosts; Load(WORD - 1, r + 1, hosts, r - 1) == 2 && Load(WORD - 1, r + 1, hosts, r) == 0
  {
    var r := WORD % hosts;
    LastBeforeWrap(hosts);
    RemainderFits(hosts);
    LoadFromBefore(WORD - 1, r, hosts, r - 1);
    LoadFromBefore(WORD - 1, r, hosts, r);
    PicksAfterWrap(r, hosts, r - 1);
    PicksAfterWrap(r, hosts, r);
  }

  lemma RemainderFits(hosts: nat)
    requires hosts >= 1
    ensures WORD % hosts < hosts && WORD % hosts <= WORD
  {
    assert WORD == WORD / hosts * hosts + WORD % hosts;
    Times(0, WORD / hosts, hosts);
  }

  /** The round-robin is fair over every stretch of picks exactly when the fleet divides 2^64. */
  lemma FairIff(hosts: nat)
    requires hosts >= 1
    ensures Fair(hosts) <==> WORD % hosts == 0
  {
    if WORD % hosts == 0 {
      forall c: nat, n: nat, h: nat, k: nat | h < hosts && k < hosts
        ensures Load(c, n, hosts, h) <= Load(c, n, hosts, k) + 1
      {
        LoadsDifferByAtMostOne(c, n, hosts, h, k);
      }
    } else {
      WrapSkews(hosts);
    }
  }
}

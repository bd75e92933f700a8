/** Moving blobs from one store to another while the listing that drives it shrinks. */
module MoverModel {
  import opened Wrappers
  import opened Keyset

  /** A storage key, read as a number. */
  type Key = nat

  datatype Blob = Blob(size: int, body: int)

  type Blobs = map<Key, Blob>

  datatype Origin = Origin(backend: string, key: Key)

  datatype Object = Object(backend: string, key: Key, size: int, sha: int, migratedFrom: Option<Origin>)

  type Objects = map<nat, Object>

  /** What goes wrong for one object, if anything; a short put stores a blob of another size. */
  datatype Fault = NoFault | GetFails | PutFails | ShortPut(stored: int) | UpdateFails | DeleteFails

  datatype Env = Env(src: string, dst: string, deleteSrc: bool, faults: nat -> Fault)

  datatype Lake = Lake(rows: Objects, src: Blobs, dst: Blobs)

  function OnBackend(rows: Objects, backend: string): set<nat> {
    set id | id in rows && rows[id].backend == backend
  }

  /** The blob that a Put of o leaves behind. */
  function Copied(env: Env, l: Lake, id: nat): Blob
    requires id in l.rows && l.rows[id].key in l.src
  {
    var blob := l.src[l.rows[id].key];
    if env.faults(id).ShortPut? then blob.(size := env.faults(id).stored) else blob
  }

  /** Every check of moveOne passes. */
  predicate Goes(env: Env, l: Lake, id: nat)
    requires id in l.rows
  {
    && l.rows[id].key in l.src
    && !env.faults(id).GetFails? && !env.faults(id).PutFails? && !env.faults(id).UpdateFails?
    && Copied(env, l, id).size == l.rows[id].size
  }

  function Moved(env: Env, o: Object): Object {
    o.(backend := env.dst, migratedFrom := Some(Origin(env.src, o.key)))
  }

  predicate Deletes(env: Env, id: nat) {
    env.deleteSrc && !env.faults(id).DeleteFails?
  }

  /** moveOne; a copy that is rejected afterwards stays on the target store. */
  function MoveOne(env: Env, l: Lake, id: nat): (r: Lake)
    requires id in l.rows
  {
    var o := l.rows[id];
    if o.key !in l.src || env.faults(id).GetFails? || env.faults(id).PutFails? then l
    else
      var dst := l.dst[o.key := Copied(env, l, id)];
      if !Goes(env, l, id) then l.(dst := dst)
      else Lake(l.rows[id := Moved(env, o)], if Deletes(env, id) then l.src - {o.key} else l.src, dst)
  }

  datatype Stats = Stats(scanned: int, copied: int, skipped: int, errors: int)

  const NONE_YET: Stats := Stats(0, 0, 0, 0)

  function Counted(s: Stats, ok: bool): Stats {
    Stats(s.scanned + 1, s.copied + (if ok then 1 else 0), s.skipped, s.errors + (if ok then 0 else 1))
  }

  datatype Progress = Progress(lake: Lake, stats: Stats)

  function Visit(env: Env, p: Progress, id: nat): Progress
    requires id in p.lake.rows
  {
    Progress(MoveOne(env, p.lake, id), Counted(p.stats, Goes(env, p.lake, id)))
  }

  predicate AllKnown(l: Lake, ids: seq<nat>) {
    forall i | 0 <= i < |ids| :: ids[i] in l.rows
  }

  /** The source rows of the initial table, each once and in id order. */
  function SourceIds(env: Env, l: Lake): (ids: seq<nat>)
    ensures AllKnown(l, ids)
  {
    var s := Beyond(OnBackend(l.rows, env.src), 0);
    SortedLists(s);
    assert forall i | 0 <= i < |Sorted(s)| :: Sorted(s)[i] in Sorted(s);
    Sorted(s)
  }

  /** One pass over the first n ids. */
  function Pass(env: Env, l: Lake, ids: seq<nat>, n: nat): (p: Progress)
    requires AllKnown(l, ids) && n <= |ids|
    ensures p.lake.rows.Keys == l.rows.Keys
  {
    if n == 0 then Progress(l, NONE_YET) else Visit(env, Pass(env, l, ids, n - 1), ids[n - 1])
  }

  /** The progress of one pass over ids, before each object and after the last. */
  ghost predicate IsRun(env: Env, ids: seq<nat>, run: seq<Progress>) {
    && |run| == |ids| + 1
    && (forall k | 0 <= k < |run| :: AllKnown(run[k].lake, ids))
    && (forall k {:trigger Visit(env, run[k], ids[k])} | 0 <= k < |ids| :: run[k + 1] == Visit(env, run[k], ids[k]))
  }

  ghost function RunOf(env: Env, l: Lake, ids: seq<nat>): (run: seq<Progress>)
    requires AllKnown(l, ids)
    ensures IsRun(env, ids, run) && run[0] == Progress(l, NONE_YET)
  {
    seq(|ids| + 1, k requires 0 <= k <= |ids| => Pass(env, l, ids, k))
  }

  /** run is the one pass over ids, and this is how far it got after n of them. */
  ghost predicate Leads(env: Env, ids: seq<nat>, run: seq<Progress>, before: Lake, n: int, after: Lake, stats: Stats) {
    && IsRun(env, ids, run) && 0 <= n <= |ids|
    && run[0] == Progress(before, NONE_YET) && run[n] == Progress(after, stats)
  }

  /** The first n source rows were visited, once each and in id order, and nothing else was. */
  ghost predicate Walked(env: Env, before: Lake, n: int, after: Lake, stats: Stats) {
    exists run :: Leads(env, SourceIds(env, before), run, before, n, after, stats)
  }
}

module MoverService {
  import opened Wrappers
  import opened Keyset
  import opened MoverModel

  class BlobStore {
    const backend: string
    var blobs: Blobs

    constructor (backend: string, blobs: Blobs)
      ensures this.backend == backend && this.blobs == blobs
    {
      this.backend, this.blobs := backend, blobs;
    }

    method Get(key: Key, fails: bool) returns (r: Option<Blob>)
      ensures r == if fails || key !in blobs then None else Some(blobs[key])
    {
      r := if fails || key !in blobs then None else Some(blobs[key]);
    }

    method Put(key: Key, blob: Blob, fault: Fault) returns (size: Option<int>)
      modifies this
      ensures fault.PutFails? ==> size == None && blobs == old(blobs)
      ensures !fault.PutFails? ==>
                var stored := if fault.ShortPut? then blob.(size := fault.stored) else blob;
                size == Some(stored.size) && blobs == old(blobs)[key := stored]
    {
      if fault.PutFails? {
        return None;
      }
      var stored := blob;
      if fault.ShortPut? {
        stored := blob.(size := fault.stored);
      }
      blobs := blobs[key := stored];
      size := Some(stored.size);
    }

    method Delete(key: Key, fails: bool)
      modifies this
      ensures blobs == if fails then old(blobs) else old(blobs) - {key}
    {
      if !fails {
        blobs := blobs - {key};
      }
    }
  }

  class LakeRepo {
    var rows: Objects

    constructor (rows: Objects)
      ensures this.rows == rows
    {
      this.rows := rows;
    }

    method ListByBackend(backend: string, limit: int, after: int) returns (ids: seq<nat>)
      ensures ids == Page(OnBackend(rows, backend), after, if limit <= 0 then 100 else limit)
    {
      var rest := set id | id in rows && rows[id].backend == backend && id > after;
      assert rest == Beyond(OnBackend(rows, backend), after);
      ids := FirstIds(rest, if limit <= 0 then 100 else limit);
    }

    method UpdateStorage(id: nat, backend: string, key: Key, from: Origin, fails: bool) returns (ok: bool)
      requires id in rows
      modifies this
      ensures ok <==> !fails
      ensures rows == if fails then old(rows) else
                old(rows)[id := old(rows)[id].(backend := backend, key := key, migratedFrom := Some(from))]
    {
      ok := !fails;
      if ok {
        rows := rows[id := rows[id].(backend := backend, key := key, migratedFrom := Some(from))];
      }
    }
  }

  class Mover {
    const lake: LakeRepo
    const src: BlobStore
    const dst: BlobStore
    const deleteSrc: bool
    const faults: nat -> Fault
    var batchSize: int

    constructor (lake: LakeRepo, src: BlobStore, dst: BlobStore, deleteSrc: bool, faults: nat -> Fault, batchSize: int)
      ensures this.lake == lake && this.src == src && this.dst == dst && this.deleteSrc == deleteSrc
      ensures this.faults == faults && this.batchSize == batchSize
    {
      this.lake, this.src, this.dst, this.deleteSrc := lake, src, dst, deleteSrc;
      this.faults, this.batchSize := faults, batchSize;
    }

    ghost function Now(): Lake
      reads lake, src, dst
    {
      Lake(lake.rows, src.blobs, dst.blobs)
    }

    ghost function Setting(): Env {
      Env(src.backend, dst.backend, deleteSrc, faults)
    }

    method MoveObject(id: nat) returns (ok: bool)
      requires src != dst && id in lake.rows
      modifies lake, src, dst
      ensures Now() == MoveOne(Setting(), old(Now()), id)
      ensures ok <==> Goes(Setting(), old(Now()), id)
      ensures var o, fault := old(lake.rows)[id], faults(id);
        var found := o.key in old(src.blobs);
        var put := found && fault != GetFails && fault != PutFails;
        var stored := if fault.ShortPut? then fault.stored else if found then old(src.blobs)[o.key].size else 0;
        && (ok <==> put && stored == o.size && fault != UpdateFails)
        && lake.rows == (if ok then old(lake.rows)[id := Object(dst.backend, o.key, o.size, o.sha,
                                                                Some(Origin(src.backend, o.key)))]
                         else old(lake.rows))
        && src.blobs == (if ok && deleteSrc && fault != DeleteFails then old(src.blobs) - {o.key}
                         else old(src.blobs))
        && dst.blobs == (if put then old(dst.blobs)[o.key := Blob(stored, old(src.blobs)[o.key].body)]
                         else old(dst.blobs))
    {
      var o, fault := lake.rows[id], faults(id);
      var got := src.Get(o.key, fault.GetFails?);
      if got.None? {
        return false;
      }
      var size := dst.Put(o.key, got.value, fault);
      if size.None? || size.value != o.size {
        return false;
      }
      ok := lake.UpdateStorage(id, dst.backend, o.key, Origin(src.backend, o.key), fault.UpdateFails?);
      if ok && deleteSrc {
        src.Delete(o.key, fault.DeleteFails?);
      }
    }

    /** One turn of the inner loop. */
    method Turn(id: nat, sofar: Stats, ghost run: seq<Progress>, ghost ids: seq<nat>, ghost k: nat)
        returns (stats: Stats)
      requires src != dst && IsRun(Setting(), ids, run) && k < |ids| && ids[k] == id
      requires run[k] == Progress(Now(), sofar)
      modifies lake, src, dst
      ensures run[k + 1] == Progress(Now(), stats)
    {
      stats := sofar.(scanned := sofar.scanned + 1);
      ghost var at := run[k];
      assert AllKnown(at.lake, ids);
      var moved := MoveObject(id);
      if moved {
        stats := stats.(copied := stats.copied + 1);
      } else {
        stats := stats.(errors := stats.errors + 1);
      }
      assert Visit(Setting(), run[k], ids[k]) == Progress(Now(), stats);
    }

    /** The inner loop. */
    method MovePage(objs: seq<nat>, sofar: Stats, ghost run: seq<Progress>, ghost ids: seq<nat>, ghost n: nat)
        returns (stats: Stats, after: int)
      requires src != dst && IsRun(Setting(), ids, run)
      requires 0 < |objs| && n + |objs| <= |ids| && objs == ids[n..n + |objs|]
      requires run[n] == Progress(Now(), sofar)
      modifies lake, src, dst
      ensures run[n + |objs|] == Progress(Now(), stats) && after == ids[n + |objs| - 1]
    {
      stats, after := sofar, objs[0];
      for i := 0 to |objs|
        invariant run[n + i] == Progress(Now(), stats)
        invariant i > 0 ==> after == ids[n + i - 1]
      {
        after := objs[i];
        stats := Turn(objs[i], stats, run, ids, n + i);
      }
    }

    method Pages(failing: Option<nat>, ghost run: seq<Progress>, ghost ids: seq<nat>)
        returns (ok: bool, stats: Stats, ghost n: nat)
      requires src != dst && src.backend != dst.backend && batchSize > 0
      requires ids == SourceIds(Setting(), Now()) && IsRun(Setting(), ids, run) && run[0] == Progress(Now(), NONE_YET)
      modifies lake, src, dst
      ensures n <= |ids| && run[n] == Progress(Now(), stats)
      ensures failing.None? ==> ok
      ensures ok ==> n == |ids|
    {
      ghost var start := Now();
      stats, n := NONE_YET, 0;
      var after, page := 0, 0;
      while true
        invariant n <= |ids| && run[n] == Progress(Now(), stats)
        invariant after == if n == 0 then 0 else ids[n - 1]
        decreases |ids| - n
      {
        if failing == Some(page) {
          ok := false;
          return;
        }
        var objs := lake.ListByBackend(src.backend, batchSize, after);
        page := page + 1;
        PageIsNext(Setting(), ids, run, n, after, batchSize, objs);
        if |objs| == 0 {
          ok := true;
          return;
        }
        stats, after := MovePage(objs, stats, run, ids, n);
        n := n + |objs|;
      }
    }

    /**
     * Rows leave the listing while it is walked, yet a finished run is the one pass
     * over the source rows it started with. Failing names the page read that errors,
     * if any.
     */
    method Run(failing: Option<nat>) returns (ok: bool, stats: Stats)
      modifies this, lake, src, dst
      ensures src.backend == dst.backend ==> !ok && Now() == old(Now()) && stats == NONE_YET
      ensures src.backend != dst.backend ==>
                && (exists n :: Walked(Setting(), old(Now()), n, Now(), stats))
                && (failing.None? ==> ok)
                && (ok ==> Walked(Setting(), old(Now()), |SourceIds(Setting(), old(Now()))|, Now(), stats))
    {
      if src.backend == dst.backend {
        return false, NONE_YET;
      }
      if batchSize <= 0 {
        batchSize := 100;
      }
      ghost var ids := SourceIds(Setting(), Now());
      ghost var run := RunOf(Setting(), Now(), ids);
      ghost var n;
      ok, stats, n := Pages(failing, run, ids);
      assert Leads(Setting(), ids, run, old(Now()), n, Now(), stats);
      assert Walked(Setting(), old(Now()), n, Now(), stats);
    }
  }

  /** Only rows already visited have left the source, so the next page is the next stretch of the first listing. */
  lemma PageIsNext(env: Env, ids: seq<nat>, run: seq<Progress>, n: nat, after: int, batch: int, objs: seq<nat>)
    requires env.src != env.dst && batch > 0 && IsRun(env, ids, run) && ids == SourceIds(env, run[0].lake)
    requires n <= |ids| && after == (if n == 0 then 0 else ids[n - 1])
    requires objs == Page(OnBackend(run[n].lake.rows, env.src), after, batch)
    ensures var rest := |ids| - n;
      && |objs| == (if batch < rest then batch else rest)
      && objs == ids[n..n + |objs|]
  {
    var now := OnBackend(run[n].lake.rows, env.src);
    var first := OnBackend(run[0].lake.rows, env.src);
    SameBeyond(env, ids, run, n, after);
    OnlyBeyondMatters(now, first, after);
    PageAfter(first, 0, n, after, batch);
  }

  lemma SameBeyond(env: Env, ids: seq<nat>, run: seq<Progress>, n: nat, after: int)
    requires IsRun(env, ids, run) && ids == SourceIds(env, run[0].lake)
    requires n <= |ids| && after == (if n == 0 then 0 else ids[n - 1])
    ensures forall x: nat | x > after ::
              x in OnBackend(run[n].lake.rows, env.src) <==> x in OnBackend(run[0].lake.rows, env.src)
  {
    SortedLists(Beyond(OnBackend(run[0].lake.rows, env.src), 0));
    forall x: nat | x > after
      ensures x in OnBackend(run[n].lake.rows, env.src) <==> x in OnBackend(run[0].lake.rows, env.src)
    {
      RowStays(env, ids, run, 0, n, x);
    }
  }

  lemma Stepped(env: Env, ids: seq<nat>, run: seq<Progress>, k: nat)
    requires IsRun(env, ids, run) && k < |ids|
    ensures ids[k] in run[k].lake.rows
    ensures run[k + 1] == Progress(MoveOne(env, run[k].lake, ids[k]),
              Counted(run[k].stats, Goes(env, run[k].lake, ids[k])))
  {
    assert AllKnown(run[k].lake, ids);
    assert run[k + 1] == Visit(env, run[k], ids[k]);
  }

  lemma StepKeepsRow(env: Env, ids: seq<nat>, run: seq<Progress>, k: nat, x: nat)
    requires IsRun(env, ids, run) && k < |ids| && ids[k] != x
    ensures x in run[k + 1].lake.rows <==> x in run[k].lake.rows
    ensures x in run[k].lake.rows ==> run[k + 1].lake.rows[x] == run[k].lake.rows[x]
  {
    Stepped(env, ids, run, k);
  }

  /** A row not visited between m and n is what it was. */
  lemma {:induction false} RowStays(env: Env, ids: seq<nat>, run: seq<Progress>, m: nat, n: nat, x: nat)
    requires IsRun(env, ids, run) && m <= n <= |ids| && forall i | m <= i < n :: ids[i] != x
    ensures x in run[n].lake.rows <==> x in run[m].lake.rows
    ensures x in run[m].lake.rows ==> run[n].lake.rows[x] == run[m].lake.rows[x]
  {
    if m < n {
      RowStays(env, ids, run, m, n - 1, x);
      StepKeepsRow(env, ids, run, n - 1, x);
    }
  }
}

/** What a migration run does to the lake, and when every row keeps its blob. */
module MoverLaws {
  import opened Wrappers
  import opened Keyset
  import opened MoverModel
  import opened MoverService

  ghost predicate Setup(env: Env, ids: seq<nat>, run: seq<Progress>) {
    && env.src != env.dst && IsRun(env, ids, run) && run[0].stats == NONE_YET
    && ids == SourceIds(env, run[0].lake)
  }

  /** ids holds the source rows of the start, each once. */
  lemma Visits(env: Env, ids: seq<nat>, run: seq<Progress>)
    requires Setup(env, ids, run)
    ensures Ascending(ids)
    ensures forall id: nat :: id in ids <==> id in run[0].lake.rows && run[0].lake.rows[id].backend == env.src && id > 0
  {
    SortedLists(Beyond(OnBackend(run[0].lake.rows, env.src), 0));
  }

  lemma BeforeItsTurn(env: Env, ids: seq<nat>, run: seq<Progress>, k: nat, x: nat)
    requires Setup(env, ids, run) && k <= |ids| && forall i | 0 <= i < k :: ids[i] != x
    ensures x in run[k].lake.rows <==> x in run[0].lake.rows
    ensures x in run[0].lake.rows ==> run[k].lake.rows[x] == run[0].lake.rows[x]
  {
    RowStays(env, ids, run, 0, k, x);
  }

  lemma AfterItsTurn(env: Env, ids: seq<nat>, run: seq<Progress>, k: nat, i: nat)
    requires Setup(env, ids, run) && i < k <= |ids|
    ensures ids[i] in run[0].lake.rows && ids[i] in run[i].lake.rows && ids[i] in run[k].lake.rows
    ensures run[i].lake.rows[ids[i]] == run[0].lake.rows[ids[i]]
    ensures run[k].lake.rows[ids[i]]
         == if Goes(env, run[i].lake, ids[i]) then Moved(env, run[0].lake.rows[ids[i]]) else run[0].lake.rows[ids[i]]
  {
    Visits(env, ids, run);
    assert ids[i] in ids;
    BeforeItsTurn(env, ids, run, i, ids[i]);
    Stepped(env, ids, run, i);
    RowStays(env, ids, run, i + 1, k, ids[i]);
  }

  // ----- one pass, and what it leaves behind ---------------------------------

  /** The ids among the first n that are still on the source. */
  function LeftBehind(env: Env, ids: seq<nat>, l: Lake, n: nat): set<nat>
    requires n <= |ids|
  {
    set i | 0 <= i < n && ids[i] in l.rows && l.rows[ids[i]].backend == env.src :: ids[i]
  }

  lemma StepCounts(env: Env, ids: seq<nat>, run: seq<Progress>, k: nat)
    requires Setup(env, ids, run) && k < |ids|
    ensures var rows := run[k + 1].lake.rows;
      run[k + 1].stats == Counted(run[k].stats, ids[k] in rows && rows[ids[k]].backend != env.src)
  {
    AfterItsTurn(env, ids, run, k + 1, k);
    Stepped(env, ids, run, k);
    Visits(env, ids, run);
    assert ids[k] in ids;
  }

  lemma LeftOneMore(env: Env, ids: seq<nat>, run: seq<Progress>, k: nat)
    requires Setup(env, ids, run) && k < |ids|
    ensures ids[k] in run[k + 1].lake.rows && ids[k] !in LeftBehind(env, ids, run[k].lake, k)
    ensures LeftBehind(env, ids, run[k + 1].lake, k + 1)
         == LeftBehind(env, ids, run[k].lake, k)
            + if run[k + 1].lake.rows[ids[k]].backend == env.src then {ids[k]} else {}
  {
    Visits(env, ids, run);
    AfterItsTurn(env, ids, run, k + 1, k);
    forall i | 0 <= i < k
      ensures ids[i] in run[k].lake.rows && ids[i] in run[k + 1].lake.rows
      ensures run[k + 1].lake.rows[ids[i]] == run[k].lake.rows[ids[i]]
    {
      AfterItsTurn(env, ids, run, k, i);
      AfterItsTurn(env, ids, run, k + 1, i);
    }
  }

  ghost predicate AddsUp(env: Env, ids: seq<nat>, p: Progress, n: nat)
    requires n <= |ids|
  {
    && p.stats.scanned == n && p.stats.copied + p.stats.errors == n && p.stats.skipped == 0
    && p.stats.errors == |LeftBehind(env, ids, p.lake, n)|
  }

  lemma StepAddsUp(env: Env, ids: seq<nat>, run: seq<Progress>, k: nat)
    requires Setup(env, ids, run) && k < |ids| && AddsUp(env, ids, run[k], k)
    ensures AddsUp(env, ids, run[k + 1], k + 1)
  {
    StepCounts(env, ids, run, k);
    LeftOneMore(env, ids, run, k);
  }

  lemma {:induction false} StatsAddUp(env: Env, ids: seq<nat>, run: seq<Progress>, n: nat)
    requires Setup(env, ids, run) && n <= |ids|
    ensures AddsUp(env, ids, run[n], n)
  {
    if n > 0 {
      StatsAddUp(env, ids, run, n - 1);
      StepAddsUp(env, ids, run, n - 1);
    } else {
      assert LeftBehind(env, ids, run[0].lake, 0) == {};
    }
  }

  // ----- every row keeps its blob --------------------------------------------

  /** Each row on one of the two stores finds its blob there. */
  ghost predicate Whole(env: Env, l: Lake) {
    forall id | id in l.rows ::
      && (l.rows[id].backend == env.src ==> l.rows[id].key in l.src)
      && (l.rows[id].backend == env.dst ==> l.rows[id].key in l.dst)
  }

  ghost predicate WholeThroughout(env: Env, run: seq<Progress>) {
    forall k | 0 <= k < |run| :: Whole(env, run[k].lake)
  }

  predicate Submap(a: Blobs, b: Blobs) {
    forall k | k in a :: k in b && a[k] == b[k]
  }

  /** Source blobs only disappear, target keys only appear. */
  lemma {:induction false} StoresDrift(env: Env, ids: seq<nat>, run: seq<Progress>, k: nat)
    requires Setup(env, ids, run) && k <= |ids|
    ensures Submap(run[k].lake.src, run[0].lake.src) && run[0].lake.dst.Keys <= run[k].lake.dst.Keys
  {
    if k > 0 {
      StoresDrift(env, ids, run, k - 1);
      Stepped(env, ids, run, k - 1);
    }
  }

  /** With the blob still there, an object goes at its turn exactly when it would have gone at the start. */
  lemma GoesAsAtFirst(env: Env, ids: seq<nat>, run: seq<Progress>, k: nat)
    requires Setup(env, ids, run) && k < |ids|
    ensures ids[k] in run[0].lake.rows && ids[k] in run[k].lake.rows
    ensures run[k].lake.rows[ids[k]] == run[0].lake.rows[ids[k]]
    ensures Goes(env, run[k].lake, ids[k]) ==> Goes(env, run[0].lake, ids[k])
    ensures run[k].lake.rows[ids[k]].key in run[k].lake.src && Goes(env, run[0].lake, ids[k]) ==>
              Goes(env, run[k].lake, ids[k])
  {
    AfterItsTurn(env, ids, run, k + 1, k);
    StoresDrift(env, ids, run, k);
  }

  // ----- which rows a run moves ----------------------------------------------

  /** Moving this object removes the blob under this key from the source. */
  predicate Takes(env: Env, l: Lake, id: nat, key: Key)
    requires id in l.rows
  {
    l.rows[id].key == key && Goes(env, l, id) && Deletes(env, id)
  }

  /** A row visited earlier moves away the blob that this one needs. */
  ghost predicate Robbed(env: Env, l: Lake, id: nat)
    requires id in l.rows
  {
    exists o :: 0 < o < id && o in l.rows && l.rows[o].backend == env.src && Takes(env, l, o, l.rows[id].key)
  }

  /** A source blob is gone after k objects exactly when one of them took it. */
  lemma {:induction false} GoneWhenTaken(env: Env, ids: seq<nat>, run: seq<Progress>, k: nat, key: Key)
    requires Setup(env, ids, run) && k <= |ids| && key in run[0].lake.src
    ensures forall i | 0 <= i < k :: ids[i] in run[0].lake.rows
    ensures key !in run[k].lake.src <==> exists i | 0 <= i < k :: Takes(env, run[0].lake, ids[i], key)
  {
    if k > 0 {
      GoneWhenTaken(env, ids, run, k - 1, key);
      GoesAsAtFirst(env, ids, run, k - 1);
      Stepped(env, ids, run, k - 1);
    }
  }

  /** An object goes at its turn exactly when it would have gone at the start and nobody robbed it. */
  lemma GoesUnlessRobbed(env: Env, ids: seq<nat>, run: seq<Progress>, k: nat)
    requires Setup(env, ids, run) && k < |ids|
    ensures ids[k] in run[0].lake.rows && ids[k] in run[k].lake.rows
    ensures Goes(env, run[k].lake, ids[k]) <==> Goes(env, run[0].lake, ids[k]) && !Robbed(env, run[0].lake, ids[k])
  {
    var l, id := run[0].lake, ids[k];
    GoesAsAtFirst(env, ids, run, k);
    if Goes(env, l, id) {
      GoneWhenTaken(env, ids, run, k, l.rows[id].key);
      RobbersComeEarlier(env, ids, run, k);
    }
  }

  /** The robbers of ids[k] are among the ids before it. */
  lemma RobbersComeEarlier(env: Env, ids: seq<nat>, run: seq<Progress>, k: nat)
    requires Setup(env, ids, run) && k < |ids| && forall i | 0 <= i <= k :: ids[i] in run[0].lake.rows
    ensures Robbed(env, run[0].lake, ids[k])
       <==> exists i | 0 <= i < k :: Takes(env, run[0].lake, ids[i], run[0].lake.rows[ids[k]].key)
  {
    var l, key := run[0].lake, run[0].lake.rows[ids[k]].key;
    Visits(env, ids, run);
    if Robbed(env, l, ids[k]) {
      var o :| 0 < o < ids[k] && o in l.rows && l.rows[o].backend == env.src && Takes(env, l, o, key);
      var i :| 0 <= i < |ids| && ids[i] == o;
      assert i < k;
      assert Takes(env, l, ids[i], key);
    }
    if i :| 0 <= i < k && Takes(env, l, ids[i], key) {
      assert ids[i] in ids;
      assert 0 < ids[i] < ids[k];
    }
  }

  /** The source rows, by the initial lake alone, that a run leaves where they are. */
  ghost predicate Stays(env: Env, l: Lake, id: nat)
    requires id in l.rows
  {
    !Goes(env, l, id) || Robbed(env, l, id)
  }

  ghost function Staying(env: Env, l: Lake): set<nat> {
    set id | id in l.rows && id > 0 && l.rows[id].backend == env.src && Stays(env, l, id)
  }

  /** A row as a finished run leaves it. */
  ghost function Final(env: Env, l: Lake, id: nat): Object
    requires id in l.rows
  {
    if id > 0 && l.rows[id].backend == env.src && !Stays(env, l, id) then Moved(env, l.rows[id]) else l.rows[id]
  }

  lemma RowAtEnd(env: Env, ids: seq<nat>, run: seq<Progress>, id: nat)
    requires Setup(env, ids, run)
    ensures id in run[|ids|].lake.rows <==> id in run[0].lake.rows
    ensures id in run[0].lake.rows ==> run[|ids|].lake.rows[id] == Final(env, run[0].lake, id)
  {
    Visits(env, ids, run);
    if id in ids {
      var i :| 0 <= i < |ids| && ids[i] == id;
      AfterItsTurn(env, ids, run, |ids|, i);
      GoesUnlessRobbed(env, ids, run, i);
    } else {
      BeforeItsTurn(env, ids, run, |ids|, id);
    }
  }

  /**
   * A finished run, in closed form over the lake it started with: a source row is
   * on the target under its old key exactly when its own copy succeeds and no
   * earlier row moved its blob away; every other row is as it was; and the errors
   * count exactly the source rows that stay.
   */
  lemma RunMovesTheRest(env: Env, before: Lake, after: Lake, stats: Stats)
    requires env.src != env.dst && Walked(env, before, |SourceIds(env, before)|, after, stats)
    ensures after.rows.Keys == before.rows.Keys
    ensures forall id | id in before.rows :: after.rows[id] == Final(env, before, id)
    ensures Beyond(OnBackend(after.rows, env.src), 0) == Staying(env, before)
    ensures stats.scanned == |SourceIds(env, before)| == stats.copied + stats.errors && stats.skipped == 0
    ensures stats.errors == |Staying(env, before)|
  {
    var ids := SourceIds(env, before);
    var n := |ids|;
    var run: seq<Progress> :| Leads(env, ids, run, before, n, after, stats);
    Visits(env, ids, run);
    StatsAddUp(env, ids, run, n);
    forall id: nat
      ensures id in after.rows <==> id in before.rows
      ensures id in before.rows ==> after.rows[id] == Final(env, before, id)
    {
      RowAtEnd(env, ids, run, id);
    }
    assert LeftBehind(env, ids, after, n) == Beyond(OnBackend(after.rows, env.src), 0);
    StayingIsLeft(env, before, after);
  }

  lemma StayingIsLeft(env: Env, before: Lake, after: Lake)
    requires env.src != env.dst && after.rows.Keys == before.rows.Keys
    requires forall id | id in before.rows :: after.rows[id] == Final(env, before, id)
    ensures Beyond(OnBackend(after.rows, env.src), 0) == Staying(env, before)
  {
  }

  // ----- the same on the columns ---------------------------------------------

  /** Some earlier taker of the key is robbed by nobody. */
  lemma {:induction false} FirstTaker(env: Env, l: Lake, o: nat, key: Key) returns (first: nat)
    requires 0 < o && o in l.rows && l.rows[o].backend == env.src && Takes(env, l, o, key)
    ensures 0 < first <= o && first in l.rows && l.rows[first].backend == env.src && Takes(env, l, first, key)
    ensures !Robbed(env, l, first)
  {
    first := o;
    if Robbed(env, l, o) {
      var p :| 0 < p < o && p in l.rows && l.rows[p].backend == env.src && Takes(env, l, p, l.rows[o].key);
      first := FirstTaker(env, l, p, key);
    }
  }

  /** A row of the source that a finished run put on the target, and whose source blob it deleted. */
  predicate TookAway(env: Env, before: Lake, after: Lake, o: nat, key: Key) {
    && o in before.rows && o in after.rows && o > 0
    && before.rows[o].backend == env.src && before.rows[o].key == key && after.rows[o].backend == env.dst
    && env.deleteSrc && env.faults(o) != DeleteFails
  }

  lemma TakersTookAway(env: Env, before: Lake, after: Lake, o: nat, key: Key)
    requires env.src != env.dst && after.rows.Keys == before.rows.Keys
    requires forall id | id in before.rows :: after.rows[id] == Final(env, before, id)
    ensures TookAway(env, before, after, o, key)
       <==> && o in before.rows && o > 0 && before.rows[o].backend == env.src && Takes(env, before, o, key)
            && !Robbed(env, before, o)
  {
  }

  /** Robbed, told from what became of the earlier rows of the same key. */
  lemma RobbedIff(env: Env, before: Lake, after: Lake, id: nat)
    requires env.src != env.dst && after.rows.Keys == before.rows.Keys && id in before.rows
    requires forall i | i in before.rows :: after.rows[i] == Final(env, before, i)
    ensures Robbed(env, before, id)
       <==> exists o: nat :: o < id && TookAway(env, before, after, o, before.rows[id].key)
  {
    var key := before.rows[id].key;
    if Robbed(env, before, id) {
      var o :| 0 < o < id && o in before.rows && before.rows[o].backend == env.src && Takes(env, before, o, key);
      var first := FirstTaker(env, before, o, key);
      TakersTookAway(env, before, after, first, key);
    }
    if o: nat :| o < id && TookAway(env, before, after, o, key) {
      TakersTookAway(env, before, after, o, key);
    }
  }

  /**
   * One row after a finished run, by its columns, its fault and its blob: it has moved
   * to the target under its key, its origin recorded, if and only if it was on the
   * source, its blob is there, nothing fails before the row is updated, the size put is
   * its own, and no earlier row of the key took the blob away; else it is as it was.
   */
  lemma RowOnColumns(env: Env, before: Lake, after: Lake, stats: Stats, id: nat)
    requires env.src != env.dst && Walked(env, before, |SourceIds(env, before)|, after, stats)
    requires id in before.rows
    ensures after.rows.Keys == before.rows.Keys
    ensures var o, fault := before.rows[id], env.faults(id);
      var goes :=
        && id > 0 && o.backend == env.src
        && o.key in before.src && fault != GetFails && fault != PutFails && fault != UpdateFails
        && (if fault.ShortPut? then fault.stored else before.src[o.key].size) == o.size
        && !exists e ::
             && e < id && e in before.rows && e in after.rows && e > 0
             && before.rows[e].backend == env.src && before.rows[e].key == o.key && after.rows[e].backend == env.dst
             && env.deleteSrc && env.faults(e) != DeleteFails;
      after.rows[id] == if goes then Object(env.dst, o.key, o.size, o.sha, Some(Origin(env.src, o.key))) else o
  {
    RunMovesTheRest(env, before, after, stats);
    RobbedIff(env, before, after, id);
    var key := before.rows[id].key;
    forall e
      ensures TookAway(env, before, after, e, key)
         <==> && e in before.rows && e in after.rows && e > 0
              && before.rows[e].backend == env.src && before.rows[e].key == key && after.rows[e].backend == env.dst
              && env.deleteSrc && env.faults(e) != DeleteFails
    {
    }
  }

  /** The source rows are those that moved and those that are left. */
  lemma MovedAndLeft(env: Env, before: Lake, after: Lake, all: set<nat>, moved: set<nat>, left: set<nat>)
    requires env.src != env.dst && after.rows.Keys == before.rows.Keys
    requires forall id | id in before.rows :: after.rows[id] == Final(env, before, id)
    requires all == Beyond(OnBackend(before.rows, env.src), 0)
    requires forall id: nat :: id in moved <==>
               id in before.rows && before.rows[id].backend == env.src && id in after.rows
               && after.rows[id].backend == env.dst
    requires forall id: nat :: id in left <==> id in after.rows && after.rows[id].backend == env.src && id > 0
    ensures |all| == |moved| + |left|
  {
    forall id: nat
      ensures id in all <==> id in moved + left
      ensures id !in moved || id !in left
    {
      MovedOrLeft(env, before, after, id);
    }
    assert all == moved + left && moved !! left;
  }

  /** The statistics count what moved and what is left on the source. */
  lemma StatsOnColumns(env: Env, before: Lake, after: Lake, stats: Stats, moved: set<nat>, left: set<nat>)
    requires env.src != env.dst && Walked(env, before, |SourceIds(env, before)|, after, stats)
    requires forall id: nat :: id in moved <==>
               id in before.rows && before.rows[id].backend == env.src && id in after.rows
               && after.rows[id].backend == env.dst
    requires forall id: nat :: id in left <==> id in after.rows && after.rows[id].backend == env.src && id > 0
    ensures stats == Stats(|moved| + |left|, |moved|, 0, |left|)
  {
    RunMovesTheRest(env, before, after, stats);
    var all := Beyond(OnBackend(before.rows, env.src), 0);
    SortedLists(all);
    MovedAndLeft(env, before, after, all, moved, left);
    assert left == Beyond(OnBackend(after.rows, env.src), 0);
  }

  lemma MovedOrLeft(env: Env, before: Lake, after: Lake, id: nat)
    requires env.src != env.dst && after.rows.Keys == before.rows.Keys
    requires id in before.rows ==> after.rows[id] == Final(env, before, id)
    ensures id in before.rows && before.rows[id].backend == env.src && id > 0 <==>
            || (id in before.rows && before.rows[id].backend == env.src && after.rows[id].backend == env.dst)
            || (id in after.rows && after.rows[id].backend == env.src && id > 0)
  {
  }

  /** A row that a step moved leaves a blob of its own size, and the body of its source blob, on the target. */
  lemma MovedHasItsBlob(env: Env, ids: seq<nat>, run: seq<Progress>, k: nat)
    requires Setup(env, ids, run) && k < |ids|
    ensures ids[k] in run[k].lake.rows && ids[k] in run[k + 1].lake.rows
    ensures run[k + 1].lake.rows[ids[k]] != run[k].lake.rows[ids[k]] ==>
              var o, blobs := run[k].lake.rows[ids[k]], run[k + 1].lake.dst;
              && o.key in run[k].lake.src && o.key in blobs
              && blobs[o.key] == Blob(o.size, run[k].lake.src[o.key].body)
  {
    Stepped(env, ids, run, k);
  }

  /** A source blob is gone at the end exactly when a row took it away; the others are as they were. */
  lemma SourceBlobsOnColumns(env: Env, before: Lake, after: Lake, stats: Stats, key: Key)
    requires env.src != env.dst && Walked(env, before, |SourceIds(env, before)|, after, stats)
    ensures key in after.src
       <==> && key in before.src
            && !exists o ::
                 && o in before.rows && o in after.rows && o > 0
                 && before.rows[o].backend == env.src && before.rows[o].key == key
                 && after.rows[o].backend == env.dst && env.deleteSrc && env.faults(o) != DeleteFails
    ensures key in after.src ==> after.src[key] == before.src[key]
  {
    RunMovesTheRest(env, before, after, stats);
    var ids := SourceIds(env, before);
    var run: seq<Progress> :| Leads(env, ids, run, before, |ids|, after, stats);
    StoresDrift(env, ids, run, |ids|);
    Visits(env, ids, run);
    if key in before.src {
      GoneWhenTaken(env, ids, run, |ids|, key);
      SomeTakerIff(env, before, after, ids, key);
    }
  }

  lemma SomeTakerIff(env: Env, before: Lake, after: Lake, ids: seq<nat>, key: Key)
    requires env.src != env.dst && after.rows.Keys == before.rows.Keys
    requires forall id | id in before.rows :: after.rows[id] == Final(env, before, id)
    requires forall id: nat :: id in ids <==> id in before.rows && before.rows[id].backend == env.src && id > 0
    requires forall i | 0 <= i < |ids| :: ids[i] in before.rows
    ensures (exists i | 0 <= i < |ids| :: Takes(env, before, ids[i], key))
       <==> exists o :: TookAway(env, before, after, o, key)
  {
    if i :| 0 <= i < |ids| && Takes(env, before, ids[i], key) {
      assert ids[i] in ids;
      var first := FirstTaker(env, before, ids[i], key);
      TakersTookAway(env, before, after, first, key);
    }
    if o :| TookAway(env, before, after, o, key) {
      TakersTookAway(env, before, after, o, key);
      var i :| 0 <= i < |ids| && ids[i] == o;
      assert Takes(env, before, ids[i], key);
    }
  }

  lemma StepKeepsWhole(env: Env, l: Lake, id: nat)
    requires env.src != env.dst && id in l.rows && Whole(env, l)
    requires !Deletes(env, id) || forall p | p in l.rows && p != id && l.rows[p].backend == env.src ::
               l.rows[p].key != l.rows[id].key
    ensures Whole(env, MoveOne(env, l, id))
  {
    var l' := MoveOne(env, l, id);
    forall p | p in l'.rows
      ensures l'.rows[p].backend == env.src ==> l'.rows[p].key in l'.src
      ensures l'.rows[p].backend == env.dst ==> l'.rows[p].key in l'.dst
    {
      assert p == id || l'.rows[p] == l.rows[p];
    }
  }

  /**
   * o's successful move deletes a blob that p still needs: p shares the key and is
   * on the source when o goes, being visited later, or never, or having failed.
   */
  predicate Clash(env: Env, l: Lake, o: nat, p: nat) {
    && o in l.rows && p in l.rows && o != p && o > 0
    && l.rows[o].backend == env.src == l.rows[p].backend && l.rows[o].key == l.rows[p].key
    && Goes(env, l, o) && Deletes(env, o)
    && !(0 < p < o && Goes(env, l, p))
  }

  ghost predicate HasClash(env: Env, l: Lake) {
    exists o, p :: Clash(env, l, o, p)
  }

  /** Where a row of the start may be when k ids were visited. */
  lemma WhereRowIs(env: Env, ids: seq<nat>, run: seq<Progress>, k: nat, p: nat)
    requires Setup(env, ids, run) && k < |ids| && p in run[k].lake.rows && p != ids[k]
    ensures p in run[0].lake.rows && run[k].lake.rows[p].key == run[0].lake.rows[p].key
    ensures run[k].lake.rows[p].backend == env.src ==>
              run[0].lake.rows[p].backend == env.src
                  && (0 < p < ids[k] ==> exists i :: 0 <= i < k && ids[i] == p && !Goes(env, run[i].lake, p))
    ensures run[0].lake.rows[p].backend == env.src && !(0 < p < ids[k] && Goes(env, run[0].lake, p)) ==>
              run[k].lake.rows[p].backend == env.src
  {
    Visits(env, ids, run);
    assert ids[k] in ids;
    if i :| 0 <= i < k && ids[i] == p {
      AfterItsTurn(env, ids, run, k, i);
      GoesAsAtFirst(env, ids, run, i);
    } else {
      BeforeItsTurn(env, ids, run, k, p);
      if p in ids {
        var j :| 0 <= j < |ids| && ids[j] == p;
        assert j > k;
      }
    }
  }

  lemma {:induction false} NoClashKeepsWhole(env: Env, ids: seq<nat>, run: seq<Progress>, k: nat)
    requires Setup(env, ids, run) && Whole(env, run[0].lake) && !HasClash(env, run[0].lake) && k <= |ids|
    ensures forall j | 0 <= j <= k :: Whole(env, run[j].lake)
  {
    if k > 0 {
      var o, l := ids[k - 1], run[k - 1].lake;
      NoClashKeepsWhole(env, ids, run, k - 1);
      Stepped(env, ids, run, k - 1);
      if Goes(env, l, o) && Deletes(env, o) {
        NothingSharesKey(env, ids, run, k - 1);
        StepKeepsWhole(env, l, o);
      } else if Goes(env, l, o) {
        StepKeepsWhole(env, l, o);
      } else {
        FailureKeepsWhole(env, l, o);
      }
    }
  }

  lemma FailureKeepsWhole(env: Env, l: Lake, id: nat)
    requires id in l.rows && Whole(env, l) && !Goes(env, l, id)
    ensures Whole(env, MoveOne(env, l, id))
  {
  }

  lemma NothingSharesKey(env: Env, ids: seq<nat>, run: seq<Progress>, k: nat)
    requires Setup(env, ids, run) && k < |ids| && !HasClash(env, run[0].lake)
    requires forall j | 0 <= j <= k :: Whole(env, run[j].lake)
    requires ids[k] in run[k].lake.rows && Goes(env, run[k].lake, ids[k]) && Deletes(env, ids[k])
    ensures forall p | p in run[k].lake.rows && p != ids[k] && run[k].lake.rows[p].backend == env.src ::
              run[k].lake.rows[p].key != run[k].lake.rows[ids[k]].key
  {
    var o, first := ids[k], run[0].lake;
    Visits(env, ids, run);
    assert o in ids;
    GoesAsAtFirst(env, ids, run, k);
    forall p | p in run[k].lake.rows && p != o && run[k].lake.rows[p].backend == env.src
      ensures run[k].lake.rows[p].key != run[k].lake.rows[o].key
    {
      WhereRowIs(env, ids, run, k, p);
      if 0 < p < o {
        var i :| 0 <= i < k && ids[i] == p && !Goes(env, run[i].lake, p);
        GoesAsAtFirst(env, ids, run, i);
      }
      assert !Clash(env, first, o, p);
    }
  }

  /** A clash leaves a row without its blob right after the first of the two has moved. */
  lemma ClashDangles(env: Env, ids: seq<nat>, run: seq<Progress>, o: nat, p: nat)
    requires Setup(env, ids, run) && Clash(env, run[0].lake, o, p)
    ensures !WholeThroughout(env, run)
  {
    Visits(env, ids, run);
    var k :| 0 <= k < |ids| && ids[k] == o;
    GoesAsAtFirst(env, ids, run, k);
    if Whole(env, run[k].lake) {
      assert Goes(env, run[k].lake, o);
      Stepped(env, ids, run, k);
      KnownThroughout(env, ids, run, k, p);
      WhereRowIs(env, ids, run, k, p);
      assert run[k + 1].lake.rows[p] == run[k].lake.rows[p];
      assert run[k + 1].lake.rows[p].key !in run[k + 1].lake.src;
      assert !Whole(env, run[k + 1].lake);
    }
  }

  lemma {:induction false} KnownThroughout(env: Env, ids: seq<nat>, run: seq<Progress>, k: nat, p: nat)
    requires Setup(env, ids, run) && k <= |ids|
    ensures p in run[k].lake.rows <==> p in run[0].lake.rows
  {
    if k > 0 {
      KnownThroughout(env, ids, run, k - 1, p);
      Stepped(env, ids, run, k - 1);
    }
  }

  /**
   * Referential integrity after every step of a run, exactly: it holds unless the
   * move of one row deletes the blob of a key that another source row shares.
   */
  lemma StaysWholeIff(env: Env, ids: seq<nat>, run: seq<Progress>)
    requires Setup(env, ids, run) && Whole(env, run[0].lake)
    ensures WholeThroughout(env, run) <==> !HasClash(env, run[0].lake)
  {
    if HasClash(env, run[0].lake) {
      var o, p :| Clash(env, run[0].lake, o, p);
      ClashDangles(env, ids, run, o, p);
    } else {
      NoClashKeepsWhole(env, ids, run, |ids|);
    }
  }

  /** DeleteSrc off, or distinct keys on the source: always whole. */
  lemma SafeSettings(env: Env, ids: seq<nat>, run: seq<Progress>)
    requires Setup(env, ids, run) && Whole(env, run[0].lake)
    requires !env.deleteSrc
          || forall o, p | o in run[0].lake.rows && p in run[0].lake.rows && o != p
               && run[0].lake.rows[o].backend == env.src == run[0].lake.rows[p].backend ::
               run[0].lake.rows[o].key != run[0].lake.rows[p].key
    ensures WholeThroughout(env, run)
  {
    StaysWholeIff(env, ids, run);
  }

  /** A page crawled twice has two rows under one key; moving the first with DeleteSrc strands the second. */
  lemma RecrawledPageIsStranded(env: Env, run: seq<Progress>)
    requires env.src == "local" && env.dst == "s3" && env.deleteSrc && env.faults(1) == NoFault
    requires var rows: Objects := map[1 := Object("local", 9, 4, 1, None), 2 := Object("local", 9, 4, 2, None)];
      run != [] && run[0] == Progress(Lake(rows, map[9 := Blob(4, 0)], map[]), NONE_YET)
    requires IsRun(env, SourceIds(env, run[0].lake), run)
    ensures Whole(env, run[0].lake) && !WholeThroughout(env, run)
  {
    assert Clash(env, run[0].lake, 1, 2);
    StaysWholeIff(env, SourceIds(env, run[0].lake), run);
  }
}

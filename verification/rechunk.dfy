/** The operator's rebuild of every document in one collection. */
module RechunkModel {
  import opened Wrappers
  import opened Clock
  import opened ChunkModel
  import opened Keyset
  import Chunker

  datatype Document = Document(collection: Option<string>, text: string)

  type Documents = map<nat, Document>

  /**
   * What a run reads and does not change: the documents, the configuration it
   * resolved, the UUID and the clock reading each document's chunks will get, and
   * whether deleting a document's old points fails.
   */
  datatype Env = Env(
    docs: Documents,
    query: string,
    cfg: Chunker.Config,
    tok: Chunker.Tokenizer,
    uuid: (nat, nat) -> ChunkId,
    clock: nat -> Time,
    qdrant: bool,
    qdrantFails: nat -> bool,
    dryRun: bool)

  /** The chunk table, and the points the vector store holds for the collection. */
  datatype Store = Store(pieces: Pieces, points: set<ChunkId>)

  datatype Item = Item(
    document: nat, oldIds: seq<ChunkId>, newCount: nat, failed: bool, pointsDeleted: nat, pointsFailed: bool)

  /** The empty query string stands for documents without a collection. */
  predicate InBucket(d: Document, query: string) {
    if query == "" then d.collection.None? || d.collection.value == "" else d.collection == Some(query)
  }

  function Matching(docs: Documents, query: string): set<nat> {
    set d | d in docs && InBucket(docs[d], query)
  }

  /** The ids one unpaged pass would visit. */
  function Listed(env: Env, since: int): (ids: seq<nat>)
    ensures forall i | 0 <= i < |ids| :: ids[i] in env.docs
  {
    var s := Beyond(Matching(env.docs, env.query), since);
    var ids := Sorted(s);
    SortedLists(s);
    assert forall i | 0 <= i < |ids| :: ids[i] in ids;
    ids
  }

  /** How many of n documents a limit lets through; zero and below mean all. */
  function Quota(limit: int, n: nat): nat {
    if limit <= 0 || n < limit then n else limit
  }

  function NewChunks(env: Env, d: nat): (out: seq<Chunker.Chunk>)
    requires d in env.docs
  {
    Chunker.Splitting(env.docs[d].text, env.cfg, env.tok)
  }

  function ToFresh(env: Env, d: nat, out: seq<Chunker.Chunk>, i: int): Fresh
    requires 0 <= i < |out|
  {
    Fresh(env.uuid(d, i), out[i].index, out[i].text, out[i].tokenCount)
  }

  function Incoming(env: Env, d: nat): (r: seq<Fresh>)
    requires d in env.docs
  {
    var out := NewChunks(env, d);
    seq(|out|, i requires 0 <= i < |out| => ToFresh(env, d, out, i))
  }

  predicate Accepted(env: Env, s: Store, d: nat)
    requires d in env.docs
  {
    Insertable(WithoutDocument(s.pieces, d), d, Incoming(env, d))
  }

  function ItemOf(env: Env, s: Store, d: nat): Item
    requires d in env.docs
  {
    if env.dryRun then Item(d, [], |NewChunks(env, d)|, false, 0, false)
    else
      var ok := Accepted(env, s, d);
      var gone := if ok then IndexOrder(RowsOf(s.pieces, d)) else [];
      var asks := env.qdrant && env.query != "" && gone != [];
      var fails := env.qdrantFails(d);
      Item(d, gone, |NewChunks(env, d)|, !ok, if asks && !fails then |gone| else 0, asks && fails)
  }

  function Points(ids: seq<ChunkId>): set<ChunkId> {
    set k | k in ids
  }

  /** The store after one document. */
  function One(env: Env, s: Store, d: nat): Store
    requires d in env.docs
  {
    if env.dryRun then s
    else
      var item := ItemOf(env, s, d);
      Store(Replacing(s.pieces, d, Incoming(env, d), env.clock(d)),
            if item.pointsDeleted > 0 then s.points - Points(item.oldIds) else s.points)
  }

  predicate AllKnown(env: Env, ids: seq<nat>) {
    forall i | 0 <= i < |ids| :: ids[i] in env.docs
  }

  datatype Totals = Totals(oldChunks: int, newChunks: int, points: int, pointErrors: int, errors: int)

  datatype Report = Report(items: seq<Item>, totals: Totals)

  function Plus(t: Totals, i: Item): Totals {
    Totals(t.oldChunks + |i.oldIds|, t.newChunks + i.newCount, t.points + i.pointsDeleted,
           t.pointErrors + (if i.pointsFailed then 1 else 0), t.errors + (if i.failed then 1 else 0))
  }

  const NOTHING: Report := Report([], Totals(0, 0, 0, 0, 0))

  function Adding(rep: Report, item: Item): Report {
    Report(rep.items + [item], Plus(rep.totals, item))
  }

  datatype Progress = Progress(store: Store, rep: Report)

  function Visit(env: Env, p: Progress, d: nat): Progress
    requires d in env.docs
  {
    Progress(One(env, p.store, d), Adding(p.rep, ItemOf(env, p.store, d)))
  }

  /** One unpaged pass over the first n ids. */
  function Pass(env: Env, before: Store, ids: seq<nat>, n: nat): Progress
    requires AllKnown(env, ids) && n <= |ids|
  {
    if n == 0 then Progress(before, NOTHING) else Visit(env, Pass(env, before, ids, n - 1), ids[n - 1])
  }

  /** The progress before each document and after the last. */
  ghost predicate IsRun(env: Env, ids: seq<nat>, run: seq<Progress>) {
    && AllKnown(env, ids) && |run| == |ids| + 1
    && forall k {:trigger Visit(env, run[k], ids[k])} | 0 <= k < |ids| :: run[k + 1] == Visit(env, run[k], ids[k])
  }

  ghost function RunOf(env: Env, before: Store, ids: seq<nat>): (run: seq<Progress>)
    requires AllKnown(env, ids)
    ensures IsRun(env, ids, run)
    ensures forall k {:trigger run[k]} | 0 <= k <= |ids| :: run[k] == Pass(env, before, ids, k)
  {
    seq(|ids| + 1, k requires 0 <= k <= |ids| => Pass(env, before, ids, k))
  }
}

module RechunkService {
  import opened Wrappers
  import opened Clock
  import opened ChunkModel
  import opened ChunkRepository
  import opened Keyset
  import opened RechunkModel

  /** The run's own choices and the outside events it meets; failing is the page read that errors. */
  datatype Knobs = Knobs(
    dryRun: bool, uuid: (nat, nat) -> ChunkId, clock: nat -> Time, qdrantFails: nat -> bool, failing: Option<nat>)

  class RechunkSvc {
    const docs: Documents
    const chunks: ChunkRepo
    const defaults: Chunker.Config
    const tok: Chunker.Tokenizer
    const wired: bool
    var points: set<ChunkId>

    constructor (docs: Documents, chunks: ChunkRepo, defaults: Chunker.Config, tok: Chunker.Tokenizer, wired: bool,
        points: set<ChunkId>)
      ensures this.docs == docs && this.chunks == chunks && this.defaults == defaults && this.tok == tok
      ensures this.wired == wired && this.points == points
    {
      this.docs, this.chunks, this.defaults, this.tok := docs, chunks, defaults, tok;
      this.wired, this.points := wired, points;
    }

    ghost function Now(): Store
      reads this, chunks
    {
      Store(chunks.pieces, points)
    }

    /** SELECT ... WHERE id > since ORDER BY id ASC LIMIT limit; no limit at or below zero. */
    method ListByCollection(query: string, since: int, limit: int) returns (ids: seq<nat>)
      ensures limit > 0 ==> ids == Page(Matching(docs, query), since, limit)
      ensures limit <= 0 ==> ids == Sorted(Beyond(Matching(docs, query), since))
      ensures forall i, j | 0 <= i < j < |ids| :: ids[i] < ids[j]
      ensures forall d | d in ids ::
                && d in docs && d > since
                && if query == "" then docs[d].collection == None || docs[d].collection == Some("")
                   else docs[d].collection == Some(query)
      ensures forall d | d in docs && d > since && d !in ids
                  && (if query == "" then docs[d].collection == None || docs[d].collection == Some("")
                      else docs[d].collection == Some(query)) ::
                limit > 0 && |ids| == limit && forall i | 0 <= i < |ids| :: ids[i] < d
    {
      var rest := set d | d in docs && InBucket(docs[d], query) && d > since;
      assert rest == Beyond(Matching(docs, query), since);
      InRest(docs, query, since, rest);
      ids := FirstIds(rest, if limit > 0 then limit else |rest| + 1);
      SortedLists(rest);
      TakeIsFirst(rest, if limit > 0 then limit else |rest| + 1, ids);
    }

    method ToChunks(env: Env, d: nat, pieces: seq<Chunker.Chunk>) returns (out: seq<Fresh>)
      requires d in env.docs && pieces == NewChunks(env, d)
      ensures out == Incoming(env, d)
    {
      out := [];
      for i := 0 to |pieces|
        invariant |out| == i && forall k | 0 <= k < i :: out[k] == ToFresh(env, d, pieces, k)
      {
        var p := pieces[i];
        out := out + [Fresh(env.uuid(d, i), p.index, p.text, p.tokenCount)];
      }
    }

    /** The body of the inner loop. */
    method Rebuild(env: Env, d: nat) returns (item: Item)
      requires env.docs == docs && env.tok == tok && env.qdrant == wired && d in docs
      modifies this, chunks
      ensures item == ItemOf(env, old(Now()), d)
      ensures Now() == One(env, old(Now()), d)
    {
      var pieces := Chunker.Split(env.docs[d].text, env.cfg, env.tok);
      if env.dryRun {
        return Item(d, [], |pieces|, false, 0, false);
      }
      var incoming := ToChunks(env, d, pieces);
      var outcome := chunks.ReplaceByDocument(d, incoming, env.clock(d));
      item := Item(d, [], |pieces|, false, 0, false);
      if outcome.Err? {
        item := item.(failed := true);
      } else {
        item := item.(oldIds := outcome.value);
      }
      if env.qdrant && env.query != "" && item.oldIds != [] {
        if env.qdrantFails(d) {
          item := item.(pointsFailed := true);
        } else {
          points := points - Points(item.oldIds);
          item := item.(pointsDeleted := |item.oldIds|);
        }
      }
    }

    /** One turn of the inner loop: rebuild a document and add its line to the report. */
    method Next(env: Env, sofar: Report, ghost run: seq<Progress>, ghost all: seq<nat>, ghost k: nat, d: nat)
        returns (rep: Report)
      requires env.docs == docs && env.tok == tok && env.qdrant == wired
      requires IsRun(env, all, run) && k < |all| && all[k] == d && run[k] == Progress(Now(), sofar)
      modifies this, chunks
      ensures run[k + 1] == Progress(Now(), rep)
    {
      var item := Rebuild(env, d);
      rep := Adding(sofar, item);
      assert Visit(env, run[k], all[k]) == Progress(Now(), rep);
    }

    /** The inner loop: one page of documents. */
    method HandlePage(env: Env, ids: seq<nat>, sofar: Report, ghost run: seq<Progress>, ghost all: seq<nat>,
        ghost n: nat)
        returns (rep: Report)
      requires env.docs == docs && env.tok == tok && env.qdrant == wired
      requires IsRun(env, all, run) && n + |ids| <= |all| && ids == all[n..n + |ids|]
      requires run[n] == Progress(Now(), sofar)
      modifies this, chunks
      ensures run[n + |ids|] == Progress(Now(), rep)
    {
      rep := sofar;
      for i := 0 to |ids|
        invariant run[n + i] == Progress(Now(), rep)
      {
        rep := Next(env, rep, run, all, n + i, ids[i]);
      }
    }

    /**
     * The paging loop: fetches of at most 100, the limit counted down page by page,
     * the cursor at the last document handled. Failing names the page read that
     * errors, if any.
     */
    method Paged(env: Env, from: int, limit: int, failing: Option<nat>, ghost run: seq<Progress>, ghost all: seq<nat>)
        returns (ok: bool, rep: Report, ghost n: nat)
      requires env.docs == docs && env.tok == tok && env.qdrant == wired
      requires all == Listed(env, from) && IsRun(env, all, run) && run[0] == Progress(Now(), NOTHING)
      modifies this, chunks
      ensures failing.None? ==> ok
      ensures n <= |all| && run[n] == Progress(Now(), rep)
      ensures ok ==> n == Quota(limit, |all|)
    {
      n := 0;
      var since, left, page := from, limit, 0;
      rep := NOTHING;
      while true
        invariant n <= |all| && run[n] == Progress(Now(), rep)
        invariant since == if n == 0 then from else all[n - 1]
        invariant if limit > 0 then left == limit - n && left > 0 else left == limit
        decreases |all| - n
      {
        var fetch := 100;
        if left > 0 && left < 100 {
          fetch := left;
        }
        if failing == Some(page) {
          ok := false;
          return;
        }
        var ids := ListByCollection(env.query, since, fetch);
        page := page + 1;
        NextPage(env, from, n, since, fetch, ids);
        if |ids| == 0 {
          break;
        }
        rep := HandlePage(env, ids, rep, run, all, n);
        since := ids[|ids| - 1];
        n := n + |ids|;
        if left > 0 {
          left := left - |ids|;
          if left <= 0 {
            break;
          }
        }
        if |ids| < fetch {
          break;
        }
      }
      ok := true;
    }

    /**
     * "" is refused, "-" means the documents without a collection. A failed listing
     * returns the report so far beside its error.
     */
    method Rechunk(collection: string, from: int, limit: int, resolve: string -> Option<Chunker.Config>, knobs: Knobs)
        returns (rep: Option<Report>, err: Option<string>)
      modifies this, chunks
      ensures collection == "" ==> rep.None? && err.Some? && Now() == old(Now())
      ensures collection != "" ==> rep.Some? && (knobs.failing.None? ==> err.None?)
      ensures collection != "" ==>
                var query := if collection == "-" then "" else collection;
                var cfg := if query != "" && resolve(query).Some? then resolve(query).value else defaults;
                var env := Env(docs, query, cfg, tok, knobs.uuid, knobs.clock, wired, knobs.qdrantFails, knobs.dryRun);
                Outcome(env, old(Now()), from, limit, Now(), rep.value, err.None?)
    {
      if collection == "" {
        return None, Some("rechunk: --collection is required");
      }
      var query := collection;
      if collection == "-" {
        query := "";
      }
      var cfg := defaults;
      if query != "" {
        var resolved := resolve(query);
        if resolved.Some? {
          cfg := resolved.value;
        }
      }
      var env := Env(docs, query, cfg, tok, knobs.uuid, knobs.clock, wired, knobs.qdrantFails, knobs.dryRun);
      ghost var all := Listed(env, from);
      ghost var run := RunOf(env, Now(), all);
      var ok, made, n := Paged(env, from, limit, knobs.failing, run, all);
      rep := Some(made);
      err := if ok then None else Some("rechunk: list docs");
      IsOutcome(env, old(Now()), from, limit, Now(), made, ok, run, n);
    }
  }

  lemma InRest(docs: Documents, query: string, since: int, rest: set<nat>)
    requires rest == Beyond(Matching(docs, query), since)
    ensures forall d :: d in rest <==>
              && d in docs && d > since
              && if query == "" then docs[d].collection == None || docs[d].collection == Some("")
                 else docs[d].collection == Some(query)
  {
  }

  /** A finished run handled exactly the documents its limit allows; a failed one some first part of them. */
  ghost predicate Outcome(env: Env, before: Store, from: int, limit: int, after: Store, rep: Report, ok: bool) {
    exists n :: Handled(env, before, from, n, after, rep) && (ok ==> n == Quota(limit, |Listed(env, from)|))
  }

  lemma IsOutcome(env: Env, before: Store, from: int, limit: int, after: Store, rep: Report, ok: bool,
                  run: seq<Progress>, n: nat)
    requires Leads(env, Listed(env, from), run, before, n, after, rep)
    requires ok ==> n == Quota(limit, |Listed(env, from)|)
    ensures Outcome(env, before, from, limit, after, rep, ok)
  {
    assert Handled(env, before, from, n, after, rep);
  }

  /** The first n listed documents were handled, once each and in id order, and nothing else was. */
  ghost predicate Handled(env: Env, before: Store, from: int, n: int, after: Store, rep: Report) {
    && 0 <= n <= |Listed(env, from)|
    && exists run :: Leads(env, Listed(env, from), run, before, n, after, rep)
  }

  /** run is the one unpaged pass over ids, and this is how far it got after n of them. */
  ghost predicate Leads(env: Env, ids: seq<nat>, run: seq<Progress>, before: Store, n: int, after: Store, rep: Report) {
    && IsRun(env, ids, run) && 0 <= n <= |ids|
    && run[0] == Progress(before, NOTHING) && run[n] == Progress(after, rep)
  }

  lemma NextPage(env: Env, from: int, n: nat, since: int, fetch: int, ids: seq<nat>)
    requires n <= |Listed(env, from)| && fetch > 0
    requires since == if n == 0 then from else Listed(env, from)[n - 1]
    requires ids == Page(Matching(env.docs, env.query), since, fetch)
    ensures var rest := |Listed(env, from)| - n;
      && |ids| == (if fetch < rest then fetch else rest)
      && ids == Listed(env, from)[n..n + |ids|]
  {
    PageAfter(Matching(env.docs, env.query), from, n, since, fetch);
  }
}

/** What a rebuild does to the chunk table, document by document. */
module RechunkLaws {
  import opened Wrappers
  import opened LeaseTable
  import opened ChunkModel
  import opened Keyset
  import opened RechunkModel
  import opened RechunkService

  /** d's rows are exactly Split of its text: one pending, unleased row per chunk, under that chunk's UUID. */
  ghost predicate HoldsSplit(env: Env, rows: Pieces, d: nat)
    requires d in env.docs
  {
    var out := NewChunks(env, d);
    && (forall i | 0 <= i < |out| :: env.uuid(d, i) in RowsOf(rows, d)
          && rows[env.uuid(d, i)] == FreshRow(d, ToFresh(env, d, out, i), env.clock(d)))
    && (forall k | k in RowsOf(rows, d) :: exists i | 0 <= i < |out| :: env.uuid(d, i) == k)
  }

  lemma OneLeavesOthers(env: Env, s: Store, d: nat, e: nat)
    requires d in env.docs && e != d
    ensures RowsOf(One(env, s, d).pieces, e) == RowsOf(s.pieces, e)
  {
    if !env.dryRun && Accepted(env, s, d) {
      var kept, incoming := WithoutDocument(s.pieces, d), Incoming(env, d);
      forall k
        ensures k in RowsOf(One(env, s, d).pieces, e) <==> k in RowsOf(s.pieces, e)
        ensures k in RowsOf(s.pieces, e) ==> One(env, s, d).pieces[k] == s.pieces[k]
      {
        InsertingAt(kept, d, incoming, |incoming|, env.clock(d), k);
      }
    }
  }

  lemma OneHoldsSplit(env: Env, s: Store, d: nat)
    requires d in env.docs && !env.dryRun && Accepted(env, s, d)
    ensures HoldsSplit(env, One(env, s, d).pieces, d)
  {
    var kept, incoming, out := WithoutDocument(s.pieces, d), Incoming(env, d), NewChunks(env, d);
    var rows := One(env, s, d).pieces;
    forall i | 0 <= i < |out|
      ensures env.uuid(d, i) in RowsOf(rows, d)
      ensures rows[env.uuid(d, i)] == FreshRow(d, ToFresh(env, d, out, i), env.clock(d))
    {
      assert incoming[i].id == env.uuid(d, i);
      InsertingAt(kept, d, incoming, |incoming|, env.clock(d), env.uuid(d, i));
    }
    forall k | k in RowsOf(rows, d)
      ensures exists i | 0 <= i < |out| :: env.uuid(d, i) == k
    {
      InsertingAt(kept, d, incoming, |incoming|, env.clock(d), k);
      var i :| 0 <= i < |incoming| && incoming[i].id == k;
      assert env.uuid(d, i) == k;
    }
  }

  predicate Distinct(ids: seq<nat>) {
    forall i, j | 0 <= i < j < |ids| :: ids[i] != ids[j]
  }

  // A run is the progress before each document and after the last (IsRun).

  lemma Stepped(env: Env, ids: seq<nat>, run: seq<Progress>, k: nat)
    requires IsRun(env, ids, run) && k < |ids|
    ensures run[k + 1].store == One(env, run[k].store, ids[k])
    ensures run[k + 1].rep == Adding(run[k].rep, ItemOf(env, run[k].store, ids[k]))
  {
    assert run[k + 1] == Visit(env, run[k], ids[k]);
  }

  lemma StepLeavesOthers(env: Env, ids: seq<nat>, run: seq<Progress>, k: nat, e: nat)
    requires IsRun(env, ids, run) && k < |ids| && ids[k] != e
    ensures RowsOf(run[k + 1].store.pieces, e) == RowsOf(run[k].store.pieces, e)
  {
    Stepped(env, ids, run, k);
    OneLeavesOthers(env, run[k].store, ids[k], e);
  }

  lemma StepAddsItem(env: Env, ids: seq<nat>, run: seq<Progress>, k: nat)
    requires IsRun(env, ids, run) && k < |ids|
    ensures var items := run[k + 1].rep.items;
      && |items| == |run[k].rep.items| + 1 && items[|items| - 1].document == ids[k]
      && forall j | 0 <= j < |run[k].rep.items| :: items[j] == run[k].rep.items[j]
  {
    Stepped(env, ids, run, k);
  }

  /** A document not among ids[m..n] keeps every one of its rows from m to n. */
  lemma {:induction false} RunLeavesOthers(env: Env, ids: seq<nat>, run: seq<Progress>, m: nat, n: nat, e: nat)
    requires IsRun(env, ids, run) && m <= n <= |ids| && forall i | m <= i < n :: ids[i] != e
    ensures RowsOf(run[n].store.pieces, e) == RowsOf(run[m].store.pieces, e)
  {
    if m < n {
      RunLeavesOthers(env, ids, run, m, n - 1, e);
      StepLeavesOthers(env, ids, run, n - 1, e);
    }
  }

  function LastItem(p: Progress): Item
    requires p.rep.items != []
  {
    p.rep.items[|p.rep.items| - 1]
  }

  /** Line i of a run's report is the one that document i added. */
  ghost predicate LineOf(ids: seq<nat>, run: seq<Progress>, n: nat, i: nat)
    requires i < n <= |ids| && |run| == |ids| + 1
  {
    && |run[n].rep.items| == n && run[i + 1].rep.items != []
    && run[n].rep.items[i] == LastItem(run[i + 1]) && run[n].rep.items[i].document == ids[i]
  }

  /** One line per document, in the order visited. */
  lemma {:induction false} RunItems(env: Env, ids: seq<nat>, run: seq<Progress>, n: nat)
    requires IsRun(env, ids, run) && n <= |ids| && run[0].rep == NOTHING
    ensures |run[n].rep.items| == n
    ensures forall i | 0 <= i < n :: LineOf(ids, run, n, i)
  {
    if n > 0 {
      RunItems(env, ids, run, n - 1);
      StepAddsItem(env, ids, run, n - 1);
      forall i | 0 <= i < n
        ensures LineOf(ids, run, n, i)
      {
        assert i < n - 1 ==> LineOf(ids, run, n - 1, i);
      }
    }
  }

  lemma SameRowsHoldSplit(env: Env, a: Pieces, b: Pieces, d: nat)
    requires d in env.docs && RowsOf(a, d) == RowsOf(b, d) && HoldsSplit(env, a, d)
    ensures HoldsSplit(env, b, d)
  {
    var out := NewChunks(env, d);
    forall i | 0 <= i < |out|
      ensures env.uuid(d, i) in RowsOf(b, d) && b[env.uuid(d, i)] == FreshRow(d, ToFresh(env, d, out, i), env.clock(d))
    {
      var k := env.uuid(d, i);
      assert k in RowsOf(a, d) && RowsOf(a, d)[k] == RowsOf(b, d)[k];
    }
  }

  /** What one step leaves of its own document: nothing changed, or exactly the new chunks. */
  ghost predicate OldOrNew(env: Env, was: Pieces, now: Pieces, item: Item, d: nat)
    requires d in env.docs
  {
    if item.failed then RowsOf(now, d) == RowsOf(was, d)
    else HoldsSplit(env, now, d) && item.oldIds == IndexOrder(RowsOf(was, d))
  }

  lemma StepIsOldOrNew(env: Env, ids: seq<nat>, run: seq<Progress>, k: nat)
    requires IsRun(env, ids, run) && k < |ids| && !env.dryRun
    ensures run[k + 1].rep.items != []
    ensures OldOrNew(env, run[k].store.pieces, run[k + 1].store.pieces,
              run[k + 1].rep.items[|run[k + 1].rep.items| - 1], ids[k])
  {
    Stepped(env, ids, run, k);
    if Accepted(env, run[k].store, ids[k]) {
      OneHoldsSplit(env, run[k].store, ids[k]);
    }
  }

  /** Fully old or fully new, never a mix; and old only if its line says it failed. */
  lemma NeverAMix(env: Env, ids: seq<nat>, run: seq<Progress>, n: nat, i: nat)
    requires IsRun(env, ids, run) && Distinct(ids) && i < n <= |ids| && run[0].rep == NOTHING && !env.dryRun
    ensures |run[n].rep.items| == n && run[n].rep.items[i].document == ids[i]
    ensures OldOrNew(env, run[0].store.pieces, run[n].store.pieces, run[n].rep.items[i], ids[i])
  {
    var d := ids[i];
    RunItems(env, ids, run, n);
    assert LineOf(ids, run, n, i);
    StepIsOldOrNew(env, ids, run, i);
    RunLeavesOthers(env, ids, run, 0, i, d);
    RunLeavesOthers(env, ids, run, i + 1, n, d);
    if !run[n].rep.items[i].failed {
      SameRowsHoldSplit(env, run[i + 1].store.pieces, run[n].store.pieces, d);
    }
  }

  // ----- with fresh UUIDs nothing fails --------------------------------------

  ghost predicate Injective(env: Env) {
    forall d, i, e, j :: env.uuid(d, i) == env.uuid(e, j) ==> d == e && i == j
  }

  /** No UUID of a document from the n-th on is in use. */
  ghost predicate Unused(env: Env, rows: Pieces, ids: seq<nat>, n: nat) {
    forall m, j | n <= m < |ids| :: env.uuid(ids[m], j) !in rows
  }

  lemma FreshIsAccepted(env: Env, s: Store, d: nat)
    requires d in env.docs && Injective(env) && forall j :: env.uuid(d, j) !in s.pieces
    ensures Accepted(env, s, d)
  {
    var incoming, out := Incoming(env, d), NewChunks(env, d);
    assert |incoming| == |out|;
    forall i | 0 <= i < |incoming|
      ensures incoming[i].id == env.uuid(d, i) && incoming[i].index == i
    {
      IndexIs(env, d, i);
    }
  }

  lemma IndexIs(env: Env, d: nat, i: nat)
    requires d in env.docs && i < |NewChunks(env, d)|
    ensures NewChunks(env, d)[i].index == i
  {
    Chunker.SplittingAt(env.docs[d].text, env.cfg, env.tok, i);
  }

  lemma OneStaysUnused(env: Env, s: Store, ids: seq<nat>, n: nat)
    requires AllKnown(env, ids) && Distinct(ids) && n < |ids| && Injective(env) && Unused(env, s.pieces, ids, n)
    ensures Unused(env, One(env, s, ids[n]).pieces, ids, n + 1)
  {
    var d, incoming := ids[n], Incoming(env, ids[n]);
    if !env.dryRun && Accepted(env, s, d) {
      forall m, j | n + 1 <= m < |ids|
        ensures env.uuid(ids[m], j) !in One(env, s, d).pieces
      {
        InsertingAt(WithoutDocument(s.pieces, d), d, incoming, |incoming|, env.clock(d), env.uuid(ids[m], j));
      }
    }
  }

  lemma StepStaysUnused(env: Env, ids: seq<nat>, run: seq<Progress>, k: nat)
    requires IsRun(env, ids, run) && Distinct(ids) && k < |ids| && Injective(env)
    requires Unused(env, run[k].store.pieces, ids, k)
    ensures Unused(env, run[k + 1].store.pieces, ids, k + 1)
  {
    Stepped(env, ids, run, k);
    OneStaysUnused(env, run[k].store, ids, k);
  }

  lemma {:induction false} RunStaysUnused(env: Env, ids: seq<nat>, run: seq<Progress>, n: nat)
    requires IsRun(env, ids, run) && Distinct(ids) && n <= |ids| && Injective(env)
               && Unused(env, run[0].store.pieces, ids, 0)
    ensures Unused(env, run[n].store.pieces, ids, n)
  {
    if n > 0 {
      RunStaysUnused(env, ids, run, n - 1);
      StepStaysUnused(env, ids, run, n - 1);
    }
  }

  lemma StepSucceeds(env: Env, ids: seq<nat>, run: seq<Progress>, k: nat)
    requires IsRun(env, ids, run) && k < |ids| && Injective(env) && Unused(env, run[k].store.pieces, ids, k)
    ensures run[k + 1].rep.items != [] && !run[k + 1].rep.items[|run[k + 1].rep.items| - 1].failed
  {
    Stepped(env, ids, run, k);
    FreshIsAccepted(env, run[k].store, ids[k]);
  }

  /** The listing: the collection's documents beyond the cursor, each once, in id order. */
  lemma ListedIsDistinct(env: Env, from: int)
    ensures Distinct(Listed(env, from)) && Ascending(Listed(env, from))
    ensures forall d :: d in Listed(env, from) <==> d in env.docs && InBucket(env.docs[d], env.query) && d > from
  {
    SortedLists(Beyond(Matching(env.docs, env.query), from));
  }

  lemma FreshIsRebuilt(env: Env, ids: seq<nat>, run: seq<Progress>, n: nat, i: nat)
    requires IsRun(env, ids, run) && Distinct(ids) && i < n <= |ids| && run[0].rep == NOTHING
    requires !env.dryRun && Injective(env) && Unused(env, run[0].store.pieces, ids, 0)
    ensures |run[n].rep.items| == n
    ensures run[n].rep.items[i].document == ids[i] && !run[n].rep.items[i].failed
    ensures HoldsSplit(env, run[n].store.pieces, ids[i])
  {
    NeverAMix(env, ids, run, n, i);
    RunItems(env, ids, run, n);
    assert LineOf(ids, run, n, i);
    RunStaysUnused(env, ids, run, i);
    StepSucceeds(env, ids, run, i);
  }

  lemma RunRebuildsFirst(env: Env, ids: seq<nat>, run: seq<Progress>, n: nat, d: nat)
    requires IsRun(env, ids, run) && Distinct(ids) && n <= |ids| && run[0].rep == NOTHING
    requires !env.dryRun && Injective(env) && Unused(env, run[0].store.pieces, ids, 0)
    ensures |run[n].rep.items| == n
    ensures forall i | 0 <= i < n :: run[n].rep.items[i].document == ids[i] && !run[n].rep.items[i].failed
    ensures d in ids[..n] ==> d in env.docs && HoldsSplit(env, run[n].store.pieces, d)
    ensures d !in ids[..n] ==> RowsOf(run[n].store.pieces, d) == RowsOf(run[0].store.pieces, d)
  {
    RunItems(env, ids, run, n);
    forall i | 0 <= i < n
      ensures run[n].rep.items[i].document == ids[i] && !run[n].rep.items[i].failed
      ensures HoldsSplit(env, run[n].store.pieces, ids[i])
    {
      FreshIsRebuilt(env, ids, run, n, i);
    }
    if d !in ids[..n] {
      assert forall i | 0 <= i < n :: ids[i] == ids[..n][i];
      RunLeavesOthers(env, ids, run, 0, n, d);
    }
  }

  /**
   * A finished, committing run with fresh UUIDs: exactly the documents its limit
   * allows are handled, none fails, each ends up holding exactly Split of its text,
   * and every other document's chunks are untouched.
   */
  lemma RunRebuilds(env: Env, before: Store, from: int, limit: int, after: Store, rep: Report, d: nat)
    requires Handled(env, before, from, Quota(limit, |Listed(env, from)|), after, rep)
    requires !env.dryRun && Injective(env) && Unused(env, before.pieces, Listed(env, from), 0)
    ensures var ids := Listed(env, from); var n := Quota(limit, |ids|);
      && |rep.items| == n && (forall i | 0 <= i < n :: rep.items[i].document == ids[i] && !rep.items[i].failed)
      && (d in ids[..n] ==> HoldsSplit(env, after.pieces, d))
      && (d !in ids[..n] ==> RowsOf(after.pieces, d) == RowsOf(before.pieces, d))
  {
    var ids := Listed(env, from);
    var n := Quota(limit, |ids|);
    var run: seq<Progress> :| Leads(env, ids, run, before, n, after, rep);
    ListedIsDistinct(env, from);
    RunRebuildsFirst(env, ids, run, n, d);
  }

  // ----- resuming ------------------------------------------------------------

  /** The same document does the same to the same store, whatever was reported before. */
  lemma StepInTwo(env: Env, ids: seq<nat>, run: seq<Progress>, m: nat, tail: seq<Progress>, ids': seq<nat>, k: nat)
    requires IsRun(env, ids, run) && m < |ids| && IsRun(env, ids', tail) && k < |ids'| && ids[m] == ids'[k]
    requires run[m].store == tail[k].store
    ensures run[m + 1].store == tail[k + 1].store
    ensures exists item ::
              && run[m + 1].rep.items == run[m].rep.items + [item]
              && tail[k + 1].rep.items == tail[k].rep.items + [item]
  {
    Stepped(env, ids, run, m);
    Stepped(env, ids', tail, k);
    var item := ItemOf(env, run[m].store, ids[m]);
    assert run[m + 1].rep.items == run[m].rep.items + [item];
  }

  lemma {:induction false} RunInTwo(env: Env, ids: seq<nat>, run: seq<Progress>, tail: seq<Progress>, a: nat, b: nat)
    requires IsRun(env, ids, run) && a + b <= |ids| && IsRun(env, ids[a..], tail)
    requires tail[0] == Progress(run[a].store, NOTHING)
    ensures run[a + b].store == tail[b].store
    ensures run[a + b].rep.items == run[a].rep.items + tail[b].rep.items
  {
    if b > 0 {
      RunInTwo(env, ids, run, tail, a, b - 1);
      assert ids[a..][b - 1] == ids[a + b - 1];
      StepInTwo(env, ids, run, a + b - 1, tail, ids[a..], b - 1);
    }
  }

  lemma Rejoined(env: Env, ids: seq<nat>, run: seq<Progress>, tail: seq<Progress>, before: Store, a: nat, mid: Store,
                 first: Report, b: nat, after: Store, second: Report) returns (rep: Report)
    requires Leads(env, ids, run, before, a, mid, first) && a + b <= |ids|
    requires Leads(env, ids[a..], tail, mid, b, after, second)
    ensures Leads(env, ids, run, before, a + b, after, rep) && rep.items == first.items + second.items
  {
    RunInTwo(env, ids, run, tail, a, b);
    rep := run[a + b].rep;
  }

  lemma LastLine(env: Env, ids: seq<nat>, run: seq<Progress>, before: Store, a: nat, mid: Store, first: Report)
    requires Leads(env, ids, run, before, a, mid, first)
    ensures |first.items| == a && (a > 0 ==> first.items[a - 1].document == ids[a - 1])
  {
    RunItems(env, ids, run, a);
    assert a > 0 ==> LineOf(ids, run, a, a - 1);
  }

  lemma ListedBeyond(env: Env, from: int, a: nat)
    requires 0 < a <= |Listed(env, from)|
    ensures Listed(env, Listed(env, from)[a - 1]) == Listed(env, from)[a..]
  {
    ResumeAfter(Matching(env.docs, env.query), from, a);
  }

  /** A limited run and one resumed from its last document are one longer run. */
  lemma ResumedIsLonger(env: Env, before: Store, from: int, limit: int, mid: Store, first: Report,
                        more: int, after: Store, second: Report)
    requires limit > 0 && first.items != []
    requires Handled(env, before, from, Quota(limit, |Listed(env, from)|), mid, first)
    requires var last := first.items[|first.items| - 1].document;
      Handled(env, mid, last, Quota(more, |Listed(env, last)|), after, second)
    ensures var total := if more <= 0 then 0 else limit + more; exists rep ::
      && Handled(env, before, from, Quota(total, |Listed(env, from)|), after, rep)
      && rep.items == first.items + second.items
  {
    var ids := Listed(env, from);
    var a := Quota(limit, |ids|);
    var run: seq<Progress> :| Leads(env, ids, run, before, a, mid, first);
    LastLine(env, ids, run, before, a, mid, first);
    ListedBeyond(env, from, a);
    var b := Quota(more, |ids| - a);
    var tail: seq<Progress> :| Leads(env, ids[a..], tail, mid, b, after, second);
    var rep := Rejoined(env, ids, run, tail, before, a, mid, first, b, after, second);
    var total := if more <= 0 then 0 else limit + more;
    assert a + b == Quota(total, |ids|);
    assert Handled(env, before, from, Quota(total, |ids|), after, rep);
  }

  // ----- on the documents themselves -----------------------------------------

  lemma ListedOnDocuments(env: Env, from: int, ids: seq<nat>)
    requires ids == Listed(env, from)
    ensures Ascending(ids)
    ensures forall d :: d in ids <==>
              && d in env.docs && d > from
              && if env.query == "" then env.docs[d].collection == None || env.docs[d].collection == Some("")
                 else env.docs[d].collection == Some(env.query)
  {
    ListedIsDistinct(env, from);
  }

  /** The lines of a report name the first n listed documents in order. */
  lemma LinesAreListed(env: Env, before: Store, from: int, n: nat, after: Store, rep: Report, ids: seq<nat>)
    requires Handled(env, before, from, n, after, rep) && ids == Listed(env, from)
    ensures n <= |ids| && |rep.items| == n && forall i | 0 <= i < n :: rep.items[i].document == ids[i]
    ensures forall d: nat | d !in ids[..n] :: RowsOf(after.pieces, d) == RowsOf(before.pieces, d)
  {
    var run: seq<Progress> :| Leads(env, ids, run, before, n, after, rep);
    RunItems(env, ids, run, n);
    forall i | 0 <= i < n
      ensures rep.items[i].document == ids[i]
    {
      assert LineOf(ids, run, n, i);
    }
    forall d: nat | d !in ids[..n]
      ensures RowsOf(after.pieces, d) == RowsOf(before.pieces, d)
    {
      assert forall i | 0 <= i < n :: ids[i] == ids[..n][i];
      RunLeavesOthers(env, ids, run, 0, n, d);
    }
  }

  /**
   * Which documents a run of the operator's command handles, told from their columns:
   * those of the named collection, or for "-" those without one, beyond the cursor, in
   * id order; all of them when it finishes without a limit, the first `limit` with one.
   * Every other document keeps its chunks.
   */
  lemma RechunkOnDocuments(env: Env, collection: string, before: Store, from: int, limit: int, after: Store,
      rep: Report, ok: bool, d: nat)
    requires collection != "" && env.query == (if collection == "-" then "" else collection)
    requires Outcome(env, before, from, limit, after, rep, ok)
    ensures forall i, j | 0 <= i < j < |rep.items| :: rep.items[i].document < rep.items[j].document
    ensures (exists i :: 0 <= i < |rep.items| && rep.items[i].document == d) ==>
              && d in env.docs && d > from
              && if collection == "-" then env.docs[d].collection == None || env.docs[d].collection == Some("")
                 else env.docs[d].collection == Some(collection)
    ensures !(exists i :: 0 <= i < |rep.items| && rep.items[i].document == d) ==>
              && (forall k :: k in before.pieces && before.pieces[k].info.document == d
                    <==> k in after.pieces && after.pieces[k].info.document == d)
              && (forall k | k in before.pieces && before.pieces[k].info.document == d ::
                    k in after.pieces && after.pieces[k] == before.pieces[k])
              && (ok && d in env.docs && d > from
                  && (if collection == "-" then env.docs[d].collection == None || env.docs[d].collection == Some("")
                      else env.docs[d].collection == Some(collection)) ==>
                    limit > 0 && |rep.items| == limit
                    && forall i | 0 <= i < |rep.items| :: rep.items[i].document < d)
  {
    var n :| Handled(env, before, from, n, after, rep) && (ok ==> n == Quota(limit, |Listed(env, from)|));
    var ids := Listed(env, from);
    ListedOnDocuments(env, from, ids);
    LinesAreListed(env, before, from, n, after, rep, ids);
    NamedIff(ids, n, rep, d);
    if d !in ids[..n] {
      SameRows(before.pieces, after.pieces, d);
      if d in ids {
        LaterThanAll(ids, n, d);
      }
    }
  }

  lemma NamedIff(ids: seq<nat>, n: nat, rep: Report, d: nat)
    requires n <= |ids| && |rep.items| == n && forall i | 0 <= i < n :: rep.items[i].document == ids[i]
    ensures (exists i :: 0 <= i < |rep.items| && rep.items[i].document == d) <==> d in ids[..n]
    ensures d in ids[..n] ==> d in ids
  {
    if i :| 0 <= i < n && rep.items[i].document == d {
      assert ids[..n][i] == d;
    }
    if d in ids[..n] {
      var i :| 0 <= i < n && ids[..n][i] == d;
      assert rep.items[i].document == d && ids[i] == d;
    }
  }

  lemma LaterThanAll(ids: seq<nat>, n: nat, d: nat)
    requires Ascending(ids) && n <= |ids| && d in ids && d !in ids[..n]
    ensures n < |ids| && forall i | 0 <= i < n :: ids[i] < d
  {
    var j :| 0 <= j < |ids| && ids[j] == d;
    assert forall m | 0 <= m < n :: ids[..n][m] == ids[m] && ids[..n][m] in ids[..n];
  }

  lemma SameRows(before: Pieces, after: Pieces, d: nat)
    requires RowsOf(after, d) == RowsOf(before, d)
    ensures forall k :: k in before && before[k].info.document == d <==> k in after && after[k].info.document == d
    ensures forall k | k in before && before[k].info.document == d :: k in after && after[k] == before[k]
  {
    forall k
      ensures k in before && before[k].info.document == d <==> k in RowsOf(before, d)
      ensures k in after && after[k].info.document == d <==> k in RowsOf(after, d)
      ensures k in RowsOf(before, d) ==> after[k] == RowsOf(after, d)[k] && before[k] == RowsOf(before, d)[k]
    {
    }
  }

  /** The chunks of a rebuilt document on their columns: Split's, in order, pending and unleased. */
  lemma RebuiltOnColumns(env: Env, rows: Pieces, d: nat, out: seq<Chunker.Chunk>)
    requires d in env.docs && HoldsSplit(env, rows, d)
    requires out == Chunker.Splitting(env.docs[d].text, env.cfg, env.tok)
    ensures forall i | 0 <= i < |out| ::
              && env.uuid(d, i) in rows
              && rows[env.uuid(d, i)] == Row(Core(Queued, None, None, None, 0),
                                             Piece(d, i, out[i].text, out[i].tokenCount, env.clock(d)))
    ensures forall k | k in rows && rows[k].info.document == d :: exists i | 0 <= i < |out| :: env.uuid(d, i) == k
  {
    forall i | 0 <= i < |out|
      ensures env.uuid(d, i) in RowsOf(rows, d) && out[i].index == i
    {
      IndexIs(env, d, i);
    }
    forall k | k in rows && rows[k].info.document == d
      ensures k in RowsOf(rows, d)
    {
    }
  }

  /** What one document costs: its line and the point store, by the run's settings and the two stores. */
  lemma LineOnColumns(env: Env, s: Store, d: nat, ids: seq<ChunkId>)
    requires d in env.docs && ids == IndexOrder(RowsOf(s.pieces, d))
    ensures var item, n := ItemOf(env, s, d), |Chunker.Splitting(env.docs[d].text, env.cfg, env.tok)|;
      var refused :=
        || (exists i, j :: 0 <= i < j < n && env.uuid(d, i) == env.uuid(d, j))
        || (exists i :: 0 <= i < n && env.uuid(d, i) in s.pieces && s.pieces[env.uuid(d, i)].info.document != d);
      && item.document == d && item.newCount == n
      && (env.dryRun ==> item == Item(d, [], n, false, 0, false) && One(env, s, d) == s)
      && (!env.dryRun ==>
            && (item.failed <==> refused)
            && item.oldIds == (if refused then [] else ids)
            && (item.pointsFailed <==> !refused && env.qdrant && env.query != "" && ids != [] && env.qdrantFails(d))
            && item.pointsDeleted
                 == (if !refused && env.qdrant && env.query != "" && !env.qdrantFails(d) then |ids| else 0)
            && One(env, s, d).points
                 == (if item.pointsDeleted > 0 then s.points - (set k | k in ids) else s.points))
  {
    if !env.dryRun {
      AcceptedOnColumns(env, s, d);
    }
  }

  lemma AcceptedOnColumns(env: Env, s: Store, d: nat)
    requires d in env.docs
    ensures var n := |NewChunks(env, d)|;
      !Accepted(env, s, d)
      <==> || (exists i, j :: 0 <= i < j < n && env.uuid(d, i) == env.uuid(d, j))
           || (exists i :: 0 <= i < n && env.uuid(d, i) in s.pieces && s.pieces[env.uuid(d, i)].info.document != d)
  {
    var kept, incoming, n := WithoutDocument(s.pieces, d), Incoming(env, d), |NewChunks(env, d)|;
    forall i | 0 <= i < n
      ensures incoming[i].id == env.uuid(d, i) && incoming[i].index == i
    {
      IndexIs(env, d, i);
    }
    if Accepted(env, s, d) {
      forall i, j | 0 <= i < j < n
        ensures env.uuid(d, i) != env.uuid(d, j)
      {
        assert incoming[i].id != incoming[j].id;
      }
      forall i | 0 <= i < n
        ensures env.uuid(d, i) in s.pieces ==> s.pieces[env.uuid(d, i)].info.document == d
      {
        assert incoming[i].id !in kept;
      }
    }
  }

  /** The totals start at zero and every line adds its own counts. */
  lemma TotalsOnLines(env: Env, ids: seq<nat>, run: seq<Progress>, k: nat)
    requires IsRun(env, ids, run) && k < |ids|
    ensures run[k + 1].rep.items != []
    ensures var t, item := run[k].rep.totals, run[k + 1].rep.items[|run[k + 1].rep.items| - 1];
      && run[k + 1].rep.totals
           == Totals(t.oldChunks + |item.oldIds|, t.newChunks + item.newCount, t.points + item.pointsDeleted,
                     t.pointErrors + (if item.pointsFailed then 1 else 0), t.errors + (if item.failed then 1 else 0))
      && (run[k].rep == NOTHING ==> run[k].rep == Report([], Totals(0, 0, 0, 0, 0)))
  {
    Stepped(env, ids, run, k);
  }
}

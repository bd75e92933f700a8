/**
 * AcceptResult as four commits that others may come between and a crash may cut
 * short: verify, store the blob, index it, complete the page.
 */
module IngestRuns {
  import opened Wrappers
  import opened Clock
  import opened LeaseTable
  import opened FrontierModel
  import F = FrontierRuns

  /** storageKey: the URL hash and an extension read off the content type. */
  datatype BlobKey = BlobKey(hash: Hash, ext: nat)

  /** A lake_objects row; its id is its position. */
  datatype LakeRow = LakeRow(hash: Hash, sha: nat, key: BlobKey)

  datatype Session =
    | Opened(token: Token<Hash>, verifiedAt: Time)
    | Stored(token: Token<Hash>, verifiedAt: Time, sha: nat, key: BlobKey)
    | Indexed(token: Token<Hash>, verifiedAt: Time, id: nat)
    | Accepted(token: Token<Hash>, id: nat)
    | Refused(token: Token<Hash>)

  datatype World = World(crawl: F.World, lake: seq<LakeRow>, blobs: map<BlobKey, nat>, sessions: map<nat, Session>)

  /** Crawl is any step of the queue but Complete, which only a session performs; Crash forgets a session. */
  datatype Step =
    | Crawl(crawl: F.Step)
    | Open(n: nat, token: Token<Hash>)
    | PutBlob(n: nat, sha: nat, ext: nat)
    | Index(n: nat)
    | Finish(n: nat)
    | Crash(n: nat)

  datatype Run = Start(world: World) | Then(before: Run, step: Step, at: Time)

  function CompleteOf(c: Session): F.Step
    requires c.Indexed?
  {
    F.Complete(c.token, c.verifiedAt)
  }

  ghost predicate Enabled(cfg: F.Config, w: World, s: Step, at: Time) {
    match s
    case Crawl(f) => !f.Complete? && F.Enabled(cfg, w.crawl, f, at)
    case Open(n, token) => n !in w.sessions && Verified(token, at) && w.crawl.clock <= at
    case PutBlob(n, _, _) => n in w.sessions && w.sessions[n].Opened?
    case Index(n) => n in w.sessions && w.sessions[n].Stored?
    case Finish(n) => n in w.sessions && w.sessions[n].Indexed?
        && F.Enabled(cfg, w.crawl, CompleteOf(w.sessions[n]), at)
    case Crash(n) => n in w.sessions
  }

  predicate SameContent(a: LakeRow, b: LakeRow) {
    a.hash == b.hash && a.sha == b.sha
  }

  /** The first row with this (content_sha256, url_hash), or the length. */
  function Find(lake: seq<LakeRow>, row: LakeRow, from: nat): (id: nat)
    requires from <= |lake|
    ensures from <= id <= |lake|
    ensures id < |lake| ==> SameContent(lake[id], row)
    ensures forall i | from <= i < id :: !SameContent(lake[i], row)
    decreases |lake| - from
  {
    if from == |lake| || SameContent(lake[from], row) then from else Find(lake, row, from + 1)
  }

  /** LakeRepo.Insert: on conflict do nothing, then read the id of the row that is there. */
  function Inserting(lake: seq<LakeRow>, row: LakeRow): (r: (seq<LakeRow>, nat))
  {
    var id := Find(lake, row, 0);
    if id < |lake| then (lake, id) else (lake + [row], |lake|)
  }

  function Next(cfg: F.Config, w: World, s: Step, at: Time): World {
    match s
    case Crawl(f) => w.(crawl := F.Next(cfg, w.crawl, f, at))
    case Open(n, token) => w.(sessions := w.sessions[n := Opened(token, at)])
    case PutBlob(n, sha, ext) =>
      if n !in w.sessions || !w.sessions[n].Opened? then w
      else
        var c := w.sessions[n];
        var key := BlobKey(c.token.item, ext);
        w.(blobs := w.blobs[key := sha], sessions := w.sessions[n := Stored(c.token, c.verifiedAt, sha, key)])
    case Index(n) =>
      if n !in w.sessions || !w.sessions[n].Stored? then w
      else
        var c := w.sessions[n];
        var (lake, id) := Inserting(w.lake, LakeRow(c.token.item, c.sha, c.key));
        w.(lake := lake, sessions := w.sessions[n := Indexed(c.token, c.verifiedAt, id)])
    case Finish(n) =>
      if n !in w.sessions || !w.sessions[n].Indexed? then w
      else
        var c := w.sessions[n];
        var held := c.token.item in w.crawl.rows && HeldWith(w.crawl.rows[c.token.item].core, c.token);
        w.(crawl := F.Next(cfg, w.crawl, CompleteOf(c), at),
           sessions := w.sessions[n := if held && Verified(c.token, c.verifiedAt) then Accepted(c.token, c.id)
                                       else Refused(c.token)])
    case Crash(n) => w.(sessions := w.sessions - {n})
  }

  ghost function Last(cfg: F.Config, run: Run): World {
    match run
    case Start(w) => w
    case Then(before, s, at) => Next(cfg, Last(cfg, before), s, at)
  }

  ghost predicate Legal(cfg: F.Config, run: Run) {
    match run
    case Start(w) => F.Initial(w.crawl) && w.lake == [] && w.sessions == map[]
    case Then(before, s, at) => Legal(cfg, before) && Enabled(cfg, Last(cfg, before), s, at)
  }

  // ----- what every run keeps ------------------------------------------------

  ghost predicate Unique(lake: seq<LakeRow>) {
    forall i, j | 0 <= i < j < |lake| :: !SameContent(lake[i], lake[j])
  }

  predicate Archived(lake: seq<LakeRow>, h: Hash) {
    exists id | 0 <= id < |lake| :: lake[id].hash == h
  }

  predicate GoodSession(w: World, c: Session) {
    match c
    case Stored(token, _, _, key) => key.hash == token.item && key in w.blobs
    case Indexed(token, _, id) => id < |w.lake| && w.lake[id].hash == token.item
    case Accepted(token, id) => id < |w.lake| && w.lake[id].hash == token.item
    case _ => true
  }

  ghost predicate Inv(w: World) {
    && F.Inv(w.crawl)
    && Unique(w.lake)
    && (forall id | 0 <= id < |w.lake| :: w.lake[id].key.hash == w.lake[id].hash && w.lake[id].key in w.blobs)
    && (forall n | n in w.sessions :: GoodSession(w, w.sessions[n]))
    && (forall h | h in w.crawl.rows :: w.crawl.rows[h].core.status == Done ==> Archived(w.lake, h))
  }

  /** Only Complete, with the held token, makes a page done. */
  lemma OnlyCompleteMakesDone(cfg: F.Config, w: F.World, s: F.Step, at: Time, h: Hash)
    requires F.Inv(w) && F.Enabled(cfg, w, s, at) && h in F.NextRows(cfg, w, s)
               && F.NextRows(cfg, w, s)[h].core.status == Done
    ensures (h in w.rows && w.rows[h].core.status == Done)
         || (s.Complete? && s.token.item == h && Verified(s.token, s.verifiedAt) && h in w.rows
              && HeldWith(w.rows[h].core, s.token))
  {
    if h in w.rows {
      assert Sound(w.rows[h].core, w.hist[h], w.rows[h].info.maxAttempts);
      F.StepIsActs(cfg, w, s, h);
    } else {
      F.NewRowsAreFresh(cfg, w, s, at, h);
    }
  }

  lemma InsertKeepsUnique(lake: seq<LakeRow>, row: LakeRow)
    requires Unique(lake)
    ensures var (lake', id) := Inserting(lake, row);
      && Unique(lake') && lake <= lake' && id < |lake'| && SameContent(lake'[id], row)
      && (forall i | 0 <= i < |lake'| :: lake'[i] == row || (i < |lake| && lake'[i] == lake[i]))
  {
  }

  lemma CrawlKeepsInv(cfg: F.Config, w: World, f: F.Step, at: Time)
    requires Inv(w) && !f.Complete? && F.Enabled(cfg, w.crawl, f, at)
    ensures Inv(Next(cfg, w, Crawl(f), at))
  {
    var w' := Next(cfg, w, Crawl(f), at);
    F.StepKeepsInv(cfg, w.crawl, f, at);
    forall h | h in w'.crawl.rows && w'.crawl.rows[h].core.status == Done
      ensures Archived(w'.lake, h)
    {
      OnlyCompleteMakesDone(cfg, w.crawl, f, at, h);
    }
    forall n | n in w'.sessions
      ensures GoodSession(w', w'.sessions[n])
    {
      assert GoodSession(w, w.sessions[n]);
    }
  }

  lemma FinishKeepsInv(cfg: F.Config, w: World, n: nat, at: Time)
    requires Inv(w) && Enabled(cfg, w, Finish(n), at)
    ensures Inv(Next(cfg, w, Finish(n), at))
  {
    var w', c := Next(cfg, w, Finish(n), at), w.sessions[n];
    F.StepKeepsInv(cfg, w.crawl, CompleteOf(c), at);
    assert GoodSession(w, c);
    forall h | h in F.NextRows(cfg, w.crawl, CompleteOf(c))
        && F.NextRows(cfg, w.crawl, CompleteOf(c))[h].core.status == Done
      ensures Archived(w.lake, h)
    {
      DoneWasIndexed(cfg, w, c, at, h);
    }
    forall m | m in w'.sessions
      ensures GoodSession(w', w'.sessions[m])
    {
      assert m != n ==> GoodSession(w, w.sessions[m]);
    }
  }

  lemma DoneWasIndexed(cfg: F.Config, w: World, c: Session, at: Time, h: Hash)
    requires Inv(w) && c.Indexed? && GoodSession(w, c) && F.Enabled(cfg, w.crawl, CompleteOf(c), at)
    requires var rows := F.NextRows(cfg, w.crawl, CompleteOf(c)); h in rows && rows[h].core.status == Done
    ensures Archived(w.lake, h)
  {
    OnlyCompleteMakesDone(cfg, w.crawl, CompleteOf(c), at, h);
  }

  lemma IndexKeepsInv(cfg: F.Config, w: World, n: nat, at: Time)
    requires Inv(w) && Enabled(cfg, w, Index(n), at)
    ensures Inv(Next(cfg, w, Index(n), at))
  {
    var w', c := Next(cfg, w, Index(n), at), w.sessions[n];
    assert GoodSession(w, c);
    InsertKeepsUnique(w.lake, LakeRow(c.token.item, c.sha, c.key));
    forall m | m in w'.sessions
      ensures GoodSession(w', w'.sessions[m])
    {
      assert m != n ==> GoodSession(w, w.sessions[m]);
    }
    forall h | h in w'.crawl.rows && w'.crawl.rows[h].core.status == Done
      ensures Archived(w'.lake, h)
    {
      var id :| 0 <= id < |w.lake| && w.lake[id].hash == h;
      assert w'.lake[id] == w.lake[id];
    }
  }

  lemma StepKeepsInv(cfg: F.Config, w: World, s: Step, at: Time)
    requires Inv(w) && Enabled(cfg, w, s, at)
    ensures Inv(Next(cfg, w, s, at))
  {
    match s
    case Crawl(f) => CrawlKeepsInv(cfg, w, f, at);
    case Finish(n) => FinishKeepsInv(cfg, w, n, at);
    case Index(n) => IndexKeepsInv(cfg, w, n, at);
    case _ =>
      var w' := Next(cfg, w, s, at);
      forall m | m in w'.sessions
        ensures GoodSession(w', w'.sessions[m])
      {
        assert m in w.sessions ==> GoodSession(w, w.sessions[m]);
      }
  }

  lemma {:induction false} EveryRunKeepsInv(cfg: F.Config, run: Run)
    requires Legal(cfg, run)
    ensures Inv(Last(cfg, run))
  {
    if run.Then? {
      EveryRunKeepsInv(cfg, run.before);
      StepKeepsInv(cfg, Last(cfg, run.before), run.step, run.at);
    }
  }

  // ----- the commits on the columns ------------------------------------------

  /** The blob goes under a key of the page's own hash; nothing else moves. */
  lemma PutBlobOnColumns(cfg: F.Config, w: World, n: nat, sha: nat, ext: nat, at: Time)
    requires Enabled(cfg, w, PutBlob(n, sha, ext), at)
    ensures var w', c := Next(cfg, w, PutBlob(n, sha, ext), at), w.sessions[n];
      var key := BlobKey(c.token.item, ext);
      && w'.blobs == w.blobs[key := sha] && w'.crawl == w.crawl && w'.lake == w.lake
      && w'.sessions == w.sessions[n := Stored(c.token, c.verifiedAt, sha, key)]
  {
  }

  /** A row of the same URL and content is found; without one a row is added. */
  lemma IndexOnColumns(cfg: F.Config, w: World, n: nat, at: Time, id: nat)
    requires Enabled(cfg, w, Index(n), at)
    requires var c := w.sessions[n];
      if id < |w.lake| then
        && w.lake[id].hash == c.token.item && w.lake[id].sha == c.sha
        && forall i | 0 <= i < id :: w.lake[i].hash != c.token.item || w.lake[i].sha != c.sha
      else
        && id == |w.lake|
        && forall i | 0 <= i < |w.lake| :: w.lake[i].hash != c.token.item || w.lake[i].sha != c.sha
    ensures var w', c := Next(cfg, w, Index(n), at), w.sessions[n];
      && w'.lake == (if id < |w.lake| then w.lake else w.lake + [LakeRow(c.token.item, c.sha, c.key)])
      && w'.blobs == w.blobs && w'.crawl == w.crawl
      && w'.sessions == w.sessions[n := Indexed(c.token, c.verifiedAt, id)]
  {
  }

  /** The result is accepted exactly when the page is still leased under its token, which then completes it. */
  lemma FinishOnColumns(cfg: F.Config, w: World, n: nat, at: Time)
    requires Enabled(cfg, w, Finish(n), at)
    ensures var w', c := Next(cfg, w, Finish(n), at), w.sessions[n];
      var h := c.token.item;
      var held :=
        && h in w.crawl.rows && w.crawl.rows[h].core.status == Leased
        && w.crawl.rows[h].core.token == Some(c.token) && c.verifiedAt <= c.token.expSec * SECOND;
      && w'.lake == w.lake && w'.blobs == w.blobs
      && w'.sessions == w.sessions[n := if held then Accepted(c.token, c.id) else Refused(c.token)]
      && w'.crawl.rows == if held then
                            w.crawl.rows[h := Row(Core(Done, None, None, None, w.crawl.rows[h].core.attempts),
                                                  w.crawl.rows[h].info)]
                          else w.crawl.rows
  {
  }

  // ----- main results --------------------------------------------------------

  /**
   * Whatever crashes, expires or overlaps: a page is done only with a lake row of
   * its URL behind it, every lake row's blob is in the store, no two rows share
   * content and URL, and an accepted result names a row of the accepted page.
   */
  lemma DoneMeansArchived(cfg: F.Config, run: Run, w: World, h: Hash)
    requires Legal(cfg, run) && w == Last(cfg, run)
    ensures forall i, j | 0 <= i < j < |w.lake| :: w.lake[i].hash != w.lake[j].hash || w.lake[i].sha != w.lake[j].sha
    ensures h in w.crawl.rows && w.crawl.rows[h].core.status == Done ==>
              exists id :: 0 <= id < |w.lake| && w.lake[id].hash == h && w.lake[id].key in w.blobs
    ensures forall n | n in w.sessions && w.sessions[n].Accepted? ::
              w.sessions[n].id < |w.lake| && w.lake[w.sessions[n].id].hash == w.sessions[n].token.item
  {
    EveryRunKeepsInv(cfg, run);
    if h in w.crawl.rows && w.crawl.rows[h].core.status == Done {
      var id :| 0 <= id < |w.lake| && w.lake[id].hash == h;
      assert w.lake[id].key in w.blobs;
    }
    forall n | n in w.sessions && w.sessions[n].Accepted?
      ensures w.sessions[n].id < |w.lake| && w.lake[w.sessions[n].id].hash == w.sessions[n].token.item
    {
      assert GoodSession(w, w.sessions[n]);
    }
  }

  /** Rows are never renumbered or lost. */
  lemma {:induction false} LakeOnlyGrows(cfg: F.Config, run: Run, longer: Run, id: nat)
    requires Legal(cfg, longer) && Extends(run, longer) && id < |Last(cfg, run).lake|
    ensures id < |Last(cfg, longer).lake| && Last(cfg, longer).lake[id] == Last(cfg, run).lake[id]
  {
    if longer != run {
      LakeOnlyGrows(cfg, run, longer.before, id);
      LakeStepGrows(cfg, Last(cfg, longer.before), longer.step, longer.at);
    }
  }

  ghost predicate Extends(run: Run, longer: Run) {
    run == longer || (longer.Then? && Extends(run, longer.before))
  }

  lemma LakeStepGrows(cfg: F.Config, w: World, s: Step, at: Time)
    ensures w.lake <= Next(cfg, w, s, at).lake
  {
  }

  /** A retry with the same bytes for the same URL, at any later time, gets the id of the first try and adds no row. */
  lemma RetryFindsTheRow(cfg: F.Config, run: Run, longer: Run, id: nat, n: nat, at: Time)
    requires Legal(cfg, longer) && Extends(run, longer) && id < |Last(cfg, run).lake|
    requires var w := Last(cfg, longer);
      && n in w.sessions && w.sessions[n].Stored?
      && w.sessions[n].token.item == Last(cfg, run).lake[id].hash && w.sessions[n].sha == Last(cfg, run).lake[id].sha
    ensures var w := Last(cfg, longer); var w' := Next(cfg, w, Index(n), at);
      w'.lake == w.lake && w'.sessions[n] == Indexed(w.sessions[n].token, w.sessions[n].verifiedAt, id)
  {
    var w := Last(cfg, longer);
    EveryRunKeepsInv(cfg, longer);
    LakeOnlyGrows(cfg, run, longer, id);
    var c := w.sessions[n];
    FindsFirst(w.lake, LakeRow(c.token.item, c.sha, c.key), id);
  }

  lemma FindsFirst(lake: seq<LakeRow>, row: LakeRow, id: nat)
    requires Unique(lake) && id < |lake| && SameContent(lake[id], row)
    ensures Inserting(lake, row) == (lake, id)
  {
    var found := Find(lake, row, 0);
    assert found <= id;
  }
}

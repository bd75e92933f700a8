/** Every run of the embed queue; chunks have no heartbeat and no backoff. */
module ChunkRuns {
  import opened Clock
  import opened LeaseTable
  import opened ChunkModel
  import opened Finite

  datatype Step =
    | Reserve(worker: int, batch: int, picks: seq<ChunkId>, readAt: Time)
    | MarkEmbedded(token: Token<ChunkId>, verifiedAt: Time)
    | MarkEmbedFailed(token: Token<ChunkId>, verifiedAt: Time)
    | Sweep(readAt: Time)
    | Requeue(filter: PieceFilter)
    | Replace(document: int, incoming: seq<Fresh>, readAt: Time)

  datatype World = World(rows: Pieces, hist: map<ChunkId, History<ChunkId>>)

  datatype Run = Start(world: World) | Then(before: Run, step: Step)

  ghost predicate Enabled(w: World, s: Step) {
    s.Reserve? ==> s.batch > 0 && Oldest(w.rows, s.batch, s.picks)
  }

  function NextRows(ttl: Time, w: World, s: Step): Pieces {
    match s
    case Reserve(worker, _, picks, readAt) =>
      if AllIn(picks, w.rows) then Leasing(w.rows, picks, worker, readAt + ttl) else w.rows
    case MarkEmbedded(token, verifiedAt) =>
      if Verified(token, verifiedAt) then Completing(w.rows, token.item, token) else w.rows
    case MarkEmbedFailed(token, verifiedAt) =>
      if Verified(token, verifiedAt) then EmbedFailing(w.rows, token.item, token) else w.rows
    case Sweep(readAt) => Swept(w.rows, readAt)
    case Requeue(f) => RequeueingPieces(w.rows, f)
    case Replace(document, incoming, readAt) => Replacing(w.rows, document, incoming, readAt)
  }

  /** The step deletes this row; a row inserted under the same id starts a new life. */
  predicate Deletes(w: World, s: Step, k: ChunkId)
    requires k in w.rows
  {
    s.Replace? && w.rows[k].info.document == s.document
    && Insertable(WithoutDocument(w.rows, s.document), s.document, s.incoming)
  }

  function ActOn(ttl: Time, w: World, s: Step, k: ChunkId): Act<ChunkId>
    requires k in w.rows
  {
    var c := w.rows[k].core;
    match s
    case Reserve(worker, _, picks, readAt) =>
      if Among(k, picks, |picks|) then Grant(TokenFor(k, worker, readAt + ttl), readAt + ttl, readAt) else Idle
    case MarkEmbedded(token, verifiedAt) =>
      if token.item == k && Verified(token, verifiedAt) && HeldWith(c, token) then End(Completed, Done) else Idle
    case MarkEmbedFailed(token, verifiedAt) =>
      if token.item == k && Verified(token, verifiedAt) && Stores(w.rows, k, token) then
        End(GaveUp, if c.attempts >= ATTEMPTS then Failed else Queued)
      else Idle
    case Sweep(readAt) => if Overdue(c, readAt) then End(Expired, Queued) else Idle
    case Requeue(f) => if HitsPiece(f, w.rows[k]) then End(Requeued, Queued) else Idle
    case Replace(_, _, _) => Idle
  }

  function Next(ttl: Time, w: World, s: Step): World {
    var rows := NextRows(ttl, w, s);
    World(rows,
          map k | k in rows ::
            if k in w.rows && k in w.hist && !Deletes(w, s, k) then
              Track(w.hist[k], w.rows[k].core, ActOn(ttl, w, s, k))
            else
              NewHistory())
  }

  ghost function Last(ttl: Time, run: Run): World {
    match run
    case Start(w) => w
    case Then(before, s) => Next(ttl, Last(ttl, before), s)
  }

  ghost predicate Initial(w: World) {
    && w.hist.Keys == w.rows.Keys
    && forall k | k in w.rows :: w.rows[k].core == Unleased(Queued, 0) && w.hist[k] == NewHistory()
  }

  ghost predicate Legal(ttl: Time, run: Run) {
    match run
    case Start(w) => Initial(w)
    case Then(before, s) => Legal(ttl, before) && Enabled(Last(ttl, before), s)
  }

  /** Sound, and the stored expiry is the one granted: nothing extends a chunk lease. */
  ghost predicate SoundPiece(ttl: Time, k: ChunkId, c: Core<ChunkId>, h: History<ChunkId>) {
    && Sound(c, h, ATTEMPTS)
    && (forall i | 0 <= i < |h.issued| :: h.issued[i].item == k)
    && (c.expiresAt.Some? ==>
         c.expiresAt.value == h.grantedAt + ttl && c.token.Some? && c.token.value.expSec == Unix(h.grantedAt + ttl))
  }

  ghost predicate Inv(ttl: Time, w: World) {
    && w.hist.Keys == w.rows.Keys
    && forall k | k in w.rows :: SoundPiece(ttl, k, w.rows[k].core, w.hist[k])
  }

  lemma StepIsActs(ttl: Time, w: World, s: Step, k: ChunkId)
    requires s.Reserve? ==>
               AllIn(s.picks, w.rows) && forall i | 0 <= i < |s.picks| :: w.rows[s.picks[i]].core.status == Queued
    requires k in w.rows && Shape(w.rows[k].core) && !Deletes(w, s, k)
    ensures k in NextRows(ttl, w, s)
    ensures NextRows(ttl, w, s)[k].core == Do(w.rows[k].core, ActOn(ttl, w, s, k))
    ensures Can(w.rows[k].core, ActOn(ttl, w, s, k), ATTEMPTS)
  {
    match s
    case Reserve(worker, _, picks, readAt) =>
      LeasingAt(w.rows, picks, |picks|, worker, readAt + ttl, k);
    case Replace(document, incoming, readAt) =>
      var kept := WithoutDocument(w.rows, document);
      if Insertable(kept, document, incoming) {
        InsertingAt(kept, document, incoming, |incoming|, readAt, k);
      }
    case _ =>
  }

  lemma NewRowsAreFresh(ttl: Time, w: World, s: Step, k: ChunkId)
    requires k in NextRows(ttl, w, s) && (k !in w.rows || Deletes(w, s, k))
    ensures NextRows(ttl, w, s)[k].core == Unleased(Queued, 0)
  {
    if s.Replace? {
      var kept := WithoutDocument(w.rows, s.document);
      InsertingAt(kept, s.document, s.incoming, |s.incoming|, s.readAt, k);
      var i :| 0 <= i < |s.incoming| && s.incoming[i].id == k;
      assert NextRows(ttl, w, s)[k] == FreshRow(s.document, s.incoming[i], s.readAt);
    }
  }

  lemma ActKeepsSoundPiece(ttl: Time, w: World, s: Step, k: ChunkId)
    requires k in w.rows && k in w.hist && SoundPiece(ttl, k, w.rows[k].core, w.hist[k])
    requires var a := ActOn(ttl, w, s, k); Can(w.rows[k].core, a, ATTEMPTS)
    ensures var a := ActOn(ttl, w, s, k); SoundPiece(ttl, k, Do(w.rows[k].core, a), Track(w.hist[k], w.rows[k].core, a))
  {
    ActKeepsSound(w.rows[k].core, w.hist[k], ActOn(ttl, w, s, k), ATTEMPTS);
  }

  /** What the next world holds of a chunk that stays. */
  lemma NextPiece(ttl: Time, w: World, s: Step, k: ChunkId)
    requires k in w.rows && k in w.hist && !Deletes(w, s, k) && k in NextRows(ttl, w, s)
    ensures k in Next(ttl, w, s).hist
    ensures Next(ttl, w, s).hist[k] == Track(w.hist[k], w.rows[k].core, ActOn(ttl, w, s, k))
  {
  }

  lemma StepKeepsPiece(ttl: Time, w: World, s: Step, k: ChunkId)
    requires Inv(ttl, w) && Enabled(w, s) && k in NextRows(ttl, w, s)
    ensures k in Next(ttl, w, s).hist
    ensures SoundPiece(ttl, k, NextRows(ttl, w, s)[k].core, Next(ttl, w, s).hist[k])
  {
    if k in w.rows && !Deletes(w, s, k) {
      assert SoundPiece(ttl, k, w.rows[k].core, w.hist[k]);
      StepIsActs(ttl, w, s, k);
      NextPiece(ttl, w, s, k);
      ActKeepsSoundPiece(ttl, w, s, k);
    } else {
      NewRowsAreFresh(ttl, w, s, k);
    }
  }

  lemma StepKeepsInv(ttl: Time, w: World, s: Step)
    requires Inv(ttl, w) && Enabled(w, s)
    ensures Inv(ttl, Next(ttl, w, s))
  {
    var w' := Next(ttl, w, s);
    forall k | k in w'.rows
      ensures k in w'.hist && SoundPiece(ttl, k, w'.rows[k].core, w'.hist[k])
    {
      StepKeepsPiece(ttl, w, s, k);
    }
  }

  lemma {:induction false} EveryRunIsSound(ttl: Time, run: Run)
    requires Legal(ttl, run)
    ensures Inv(ttl, Last(ttl, run))
  {
    if run.Then? {
      EveryRunIsSound(ttl, run.before);
      StepKeepsInv(ttl, Last(ttl, run.before), run.step);
    }
  }

  // ----- main results --------------------------------------------------------

  /** Conservation and the attempt law of the chunk queue, its constant being 3. */
  lemma AttemptsAreBudgeted(ttl: Time, run: Run, w: World, k: ChunkId)
    requires Legal(ttl, run) && w == Last(ttl, run) && k in w.rows && k in w.hist
    ensures var t := w.hist[k].tally;
      && |w.hist[k].issued| == t.granted == w.rows[k].core.attempts <= 3 + t.expired + t.requeued
      && t.granted == t.completed + t.gaveUp + t.expired + t.requeuedHeld
                      + if w.rows[k].core.status == Leased then 1 else 0
  {
    EveryRunIsSound(ttl, run);
    assert SoundPiece(ttl, k, w.rows[k].core, w.hist[k]);
  }

  /**
   * A chunk lease lives exactly TTL from the reading that granted it: a sweep takes it if
   * and only if it reads later.
   */
  lemma SweptExactlyAfterTtl(ttl: Time, run: Run, w: World, k: ChunkId, readAt: Time)
    requires Legal(ttl, run) && w == Last(ttl, run) && k in w.rows && k in w.hist && w.rows[k].core.status == Leased
    ensures Swept(w.rows, readAt)[k].core.status == Queued <==> readAt > w.hist[k].grantedAt + ttl
  {
    EveryRunIsSound(ttl, run);
    assert SoundPiece(ttl, k, w.rows[k].core, w.hist[k]);
  }

  predicate Presents(s: Step, token: Token<ChunkId>) {
    (s.MarkEmbedded? && s.token == token) || (s.MarkEmbedFailed? && s.token == token)
  }

  function VerifiedAt(s: Step): Time
    requires s.MarkEmbedded? || s.MarkEmbedFailed?
  {
    s.verifiedAt
  }

  /**
   * Exactly when a token issued for a chunk still acts on it: the chunk is
   * leased, the signed expiry has not passed, and the token's bytes are those of
   * the last lease, be it this one or a later one.
   */
  lemma TokenActsIff(ttl: Time, run: Run, w: World, k: ChunkId, i: nat, s: Step)
    requires Legal(ttl, run) && w == Last(ttl, run) && k in w.rows && k in w.hist
    requires i < |w.hist[k].issued| && Presents(s, w.hist[k].issued[i])
    ensures NextRows(ttl, w, s) != w.rows
       <==> && w.rows[k].core.status == Leased && VerifiedAt(s) <= s.token.expSec * SECOND
            && w.hist[k].issued[i] == w.hist[k].issued[|w.hist[k].issued| - 1]
  {
    EveryRunIsSound(ttl, run);
    assert SoundPiece(ttl, k, w.rows[k].core, w.hist[k]);
    ActsIff(ttl, w, k, s);
  }

  lemma ActsIff(ttl: Time, w: World, k: ChunkId, s: Step)
    requires k in w.rows && k in w.hist && SoundPiece(ttl, k, w.rows[k].core, w.hist[k]) && w.hist[k].issued != []
    requires (s.MarkEmbedded? || s.MarkEmbedFailed?) && s.token.item == k
    ensures NextRows(ttl, w, s) != w.rows
       <==> && w.rows[k].core.status == Leased && Verified(s.token, VerifiedAt(s))
            && s.token == w.hist[k].issued[|w.hist[k].issued| - 1]
  {
    var rows' := NextRows(ttl, w, s);
    if HeldWith(w.rows[k].core, s.token) && Verified(s.token, VerifiedAt(s)) {
      assert rows'[k].core.status != Leased;
    } else {
      assert rows' == w.rows;
    }
  }

  /** What a step does to the list of grants of chunk k: a deleted chunk loses them. */
  function NextGrants(ttl: Time, w: World, s: Step, k: ChunkId, grants: seq<Issue>): seq<Issue> {
    if k !in w.rows || Deletes(w, s, k) then []
    else if s.Reserve? && Among(k, s.picks, |s.picks|) then grants + [Issue(s.worker, s.readAt + ttl)]
    else grants
  }

  /** The grants of chunk k in its present life, oldest first. */
  ghost function Grants(ttl: Time, run: Run, k: ChunkId): seq<Issue> {
    match run
    case Start(_) => []
    case Then(before, s) => NextGrants(ttl, Last(ttl, before), s, k, Grants(ttl, before, k))
  }

  lemma StepKeepsIssuedBy(ttl: Time, w: World, s: Step, k: ChunkId, grants: seq<Issue>)
    requires w.hist.Keys == w.rows.Keys && k in NextRows(ttl, w, s)
    requires k in w.rows ==> IssuedBy(k, w.hist[k].issued, grants)
    ensures k in Next(ttl, w, s).hist
    ensures IssuedBy(k, Next(ttl, w, s).hist[k].issued, NextGrants(ttl, w, s, k, grants))
  {
    if k in w.rows && !Deletes(w, s, k) {
      NextPiece(ttl, w, s, k);
    }
  }

  lemma {:induction false} GrantsAreIssued(ttl: Time, run: Run, w: World, k: ChunkId)
    requires Legal(ttl, run) && w == Last(ttl, run) && k in w.rows && k in w.hist
    ensures IssuedBy(k, w.hist[k].issued, Grants(ttl, run, k))
  {
    if run.Then? {
      var was := Last(ttl, run.before);
      EveryRunIsSound(ttl, run.before);
      if k in was.rows {
        GrantsAreIssued(ttl, run.before, was, k);
      }
      StepKeepsIssuedBy(ttl, was, run.step, k, Grants(ttl, run.before, k));
    }
  }

  /**
   * The tokens issued for a chunk are pairwise distinct exactly when no worker was
   * granted it twice inside one expiry second; grants a second apart are enough.
   */
  lemma TokensAreDistinctIff(ttl: Time, run: Run, w: World, k: ChunkId)
    requires Legal(ttl, run) && w == Last(ttl, run) && k in w.rows && k in w.hist
    ensures NoDup(w.hist[k].issued) <==> AllUnlike(Grants(ttl, run, k))
    ensures SecondsApart(Grants(ttl, run, k)) ==> NoDup(w.hist[k].issued)
  {
    GrantsAreIssued(ttl, run, w, k);
    var issued, grants := w.hist[k].issued, Grants(ttl, run, k);
    forall i, j | 0 <= i < j < |grants|
      ensures Alike(grants[i], grants[j]) <==> issued[i] == issued[j]
    {
    }
    if SecondsApart(grants) {
      SecondsApartAreUnlike(grants);
    }
  }

  /** Some presentation of the token changes a row. */
  ghost predicate StillActs(ttl: Time, w: World, token: Token<ChunkId>) {
    exists s :: Presents(s, token) && NextRows(ttl, w, s) != w.rows
  }

  /** A token still acts exactly when the chunk is leased and the token has the bytes of the last grant. */
  lemma StillActsIff(ttl: Time, w: World, k: ChunkId, token: Token<ChunkId>)
    requires k in w.rows && k in w.hist && SoundPiece(ttl, k, w.rows[k].core, w.hist[k]) && w.hist[k].issued != []
    requires token.item == k
    ensures StillActs(ttl, w, token)
       <==> w.rows[k].core.status == Leased && token == w.hist[k].issued[|w.hist[k].issued| - 1]
  {
    var done := MarkEmbedded(token, token.expSec * SECOND);
    ActsIff(ttl, w, k, done);
    assert Presents(done, token);
    forall s | Presents(s, token) && NextRows(ttl, w, s) != w.rows
      ensures w.rows[k].core.status == Leased && token == w.hist[k].issued[|w.hist[k].issued| - 1]
    {
      ActsIff(ttl, w, k, s);
    }
  }

  lemma GrantActsIff(ttl: Time, w: World, k: ChunkId, grants: seq<Issue>, i: nat)
    requires k in w.rows && k in w.hist && SoundPiece(ttl, k, w.rows[k].core, w.hist[k])
    requires IssuedBy(k, w.hist[k].issued, grants) && i < |grants|
    ensures StillActs(ttl, w, TokenOf(k, grants[i]))
       <==> w.rows[k].core.status == Leased && Alike(grants[i], grants[|grants| - 1])
  {
    StillActsIff(ttl, w, k, TokenOf(k, grants[i]));
  }

  lemma PieceIsSound(ttl: Time, run: Run, w: World, k: ChunkId)
    requires Legal(ttl, run) && w == Last(ttl, run) && k in w.rows && k in w.hist
    ensures SoundPiece(ttl, k, w.rows[k].core, w.hist[k])
  {
    EveryRunIsSound(ttl, run);
  }

  /**
   * Exactly when some step can still act under the token of a superseded grant: the
   * chunk is leased to the same worker, inside the same expiry second.
   */
  lemma SupersededActsIff(ttl: Time, run: Run, w: World, k: ChunkId, i: nat)
    requires Legal(ttl, run) && w == Last(ttl, run) && k in w.rows && k in w.hist
    requires i + 1 < |Grants(ttl, run, k)|
    ensures var grants := Grants(ttl, run, k);
      StillActs(ttl, w, TokenOf(k, grants[i]))
      <==> w.rows[k].core.status == Leased && Alike(grants[i], grants[|grants| - 1])
  {
    PieceIsSound(ttl, run, w, k);
    GrantsAreIssued(ttl, run, w, k);
    GrantActsIff(ttl, w, k, Grants(ttl, run, k), i);
  }

  /**
   * Chunk tokens are not fresh: MarkEmbedFailed requeues at once, so the same
   * worker can be issued the same bytes twice within one second, and the first
   * lease's holder then completes the second lease.
   */
  lemma TokensCanRepeat(ttl: Time)
    requires ttl >= SECOND
    ensures exists run, s ::
              && Legal(ttl, run) && 0 in Last(ttl, run).hist
              && |Last(ttl, run).hist[0].issued| == 2
              && Last(ttl, run).hist[0].issued[0] == Last(ttl, run).hist[0].issued[1]
              && Presents(s, Last(ttl, run).hist[0].issued[0])
              && NextRows(ttl, Last(ttl, run), s) != Last(ttl, run).rows
  {
    var run, token := TwoEqualGrants(ttl);
    var w, done := Last(ttl, run), MarkEmbedded(token, 0);
    assert NextRows(ttl, w, done)[0].core.status == Done;
    assert Presents(done, w.hist[0].issued[0]);
  }

  lemma TwoEqualGrants(ttl: Time) returns (run: Run, token: Token<ChunkId>)
    requires ttl >= SECOND
    ensures Legal(ttl, run) && 0 in Last(ttl, run).hist && Last(ttl, run).hist[0].issued == [token, token]
    ensures 0 in Last(ttl, run).rows && HeldWith(Last(ttl, run).rows[0].core, token)
    ensures token.item == 0 && Verified(token, 0)
  {
    token := TokenFor(0, 7, ttl);
    UnixGap(0, ttl, 1);
    var given, w := GivenBack(ttl, token);
    var again, w' := GrantAgain(ttl, given, w, token);
    run := again;
    assert w'.hist[0].issued == [token] + [token];
  }

  /** The only chunk, granted once and given back at once. */
  lemma GivenBack(ttl: Time, token: Token<ChunkId>) returns (run: Run, w: World)
    requires token == TokenFor(0, 7, ttl) && Verified(token, 0)
    ensures Legal(ttl, run) && w == Last(ttl, run)
    ensures w.rows.Keys == {0} && w.hist.Keys == {0} && w.rows[0].core.status == Queued && w.hist[0].issued == [token]
  {
    var piece := Row(Unleased(Queued, 0), Piece(1, 0, "", 1, 0));
    var w0 := World(map[0 := piece], map[0 := NewHistory()]);
    var held, w1 := GrantAgain(ttl, Start(w0), w0, token);
    FailOnlyChunk(ttl, w1, token);
    run := Extend(ttl, held, MarkEmbedFailed(token, 0));
    w := Next(ttl, w1, MarkEmbedFailed(token, 0));
  }

  lemma GrantAgain(ttl: Time, run: Run, w: World, token: Token<ChunkId>) returns (more: Run, w': World)
    requires Legal(ttl, run) && w == Last(ttl, run) && token == TokenFor(0, 7, ttl)
    requires w.rows.Keys == {0} && w.hist.Keys == {0} && w.rows[0].core.status == Queued
    ensures Legal(ttl, more) && w' == Last(ttl, more)
    ensures w'.rows == map[0 := LeasedRow(w.rows[0], 0, 7, ttl)]
    ensures w'.hist.Keys == {0} && w'.hist[0].issued == w.hist[0].issued + [token]
  {
    GrantOnlyChunk(ttl, w, 7);
    more := Extend(ttl, run, Reserve(7, 1, [0], 0));
    w' := Next(ttl, w, Reserve(7, 1, [0], 0));
  }

  lemma GrantOnlyChunk(ttl: Time, w: World, worker: int)
    requires w.rows.Keys == {0} && w.hist.Keys == {0} && w.rows[0].core.status == Queued
    ensures Enabled(w, Reserve(worker, 1, [0], 0))
    ensures Next(ttl, w, Reserve(worker, 1, [0], 0)).rows == map[0 := LeasedRow(w.rows[0], 0, worker, ttl)]
    ensures var h := Next(ttl, w, Reserve(worker, 1, [0], 0)).hist;
      h.Keys == {0} && h[0].issued == w.hist[0].issued + [TokenFor(0, worker, ttl)]
  {
    var picks := [0];
    LeasingAt(w.rows, picks, 1, worker, ttl, 0);
    assert picks[0] == 0 && Among(0, picks, 1);
    assert Oldest(w.rows, 1, picks);
  }

  lemma FailOnlyChunk(ttl: Time, w: World, token: Token<ChunkId>)
    requires w.rows.Keys == {0} && w.hist.Keys == {0} && token.item == 0 && HeldWith(w.rows[0].core, token)
    requires Verified(token, 0) && w.rows[0].core.attempts < ATTEMPTS
    ensures Next(ttl, w, MarkEmbedFailed(token, 0)).rows
              == map[0 := w.rows[0].(core := Cleared(w.rows[0].core, Queued))]
    ensures var h := Next(ttl, w, MarkEmbedFailed(token, 0)).hist; h.Keys == {0} && h[0].issued == w.hist[0].issued
  {
  }

  lemma Extend(ttl: Time, run: Run, s: Step) returns (more: Run)
    requires Legal(ttl, run) && Enabled(Last(ttl, run), s)
    ensures more == Then(run, s) && Legal(ttl, more)
    ensures Last(ttl, more) == Next(ttl, Last(ttl, run), s)
  {
    more := Then(run, s);
  }
}

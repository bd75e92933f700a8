/** document_chunks: the embed queue, its statements and its runs. */
module ChunkModel {
  import opened Wrappers
  import opened Clock
  import opened LeaseTable
  import opened Finite

  /** A chunk UUID, read as a number. */
  type ChunkId = nat

  datatype Piece = Piece(document: int, index: int, text: string, tokens: int, createdAt: Time)

  type PieceRow = Row<ChunkId, Piece>

  type Pieces = Table<ChunkId, Piece>

  datatype Fresh = Fresh(id: ChunkId, index: int, text: string, tokens: int)

  /** No status, zero worker and zero document mean "no constraint". */
  datatype PieceFilter = PieceFilter(status: Option<Status>, worker: int, document: int)

  /** A chunk fails for good at its third attempt. */
  const ATTEMPTS: int := 3

  function Pending(rows: Pieces): set<ChunkId> {
    set k | k in rows && rows[k].core.status == Queued
  }

  /** WHERE embed_status = 'pending' ORDER BY created_at ASC LIMIT batch; ties are the engine's. */
  ghost predicate Oldest(rows: Pieces, batch: int, picks: seq<ChunkId>) {
    && NoDup(picks)
    && AllIn(picks, rows)
    && (forall i | 0 <= i < |picks| :: rows[picks[i]].core.status == Queued)
    && (forall i, j | 0 <= i < j < |picks| :: rows[picks[i]].info.createdAt <= rows[picks[j]].info.createdAt)
    && |picks| <= batch
    && (forall k | k in Pending(rows) && !Among(k, picks, |picks|) ::
          |picks| == batch && forall i | 0 <= i < |picks| :: rows[picks[i]].info.createdAt <= rows[k].info.createdAt)
  }

  /** The picks on the columns: distinct, pending, oldest first, at most batch; who is left out is no older. */
  lemma OldestOnColumns(rows: Pieces, batch: int, picks: seq<ChunkId>)
    requires Oldest(rows, batch, picks)
    ensures |picks| <= batch && forall i, j | 0 <= i < j < |picks| :: picks[i] != picks[j]
    ensures forall i | 0 <= i < |picks| :: picks[i] in rows && rows[picks[i]].core.status == Queued
    ensures forall i, j | 0 <= i < j < |picks| :: rows[picks[i]].info.createdAt <= rows[picks[j]].info.createdAt
    ensures forall k | k in rows && rows[k].core.status == Queued && k !in picks ::
              |picks| == batch
              && forall i | 0 <= i < |picks| :: rows[picks[i]].info.createdAt <= rows[k].info.createdAt
  {
    forall k | k in rows && rows[k].core.status == Queued && k !in picks
      ensures k in Pending(rows) && !Among(k, picks, |picks|)
    {
    }
  }

  function EmbedFailing(rows: Pieces, id: ChunkId, token: Token<ChunkId>): Pieces {
    if Stores(rows, id, token) then
      var c := rows[id].core;
      rows[id := rows[id].(core := Cleared(c, if c.attempts >= ATTEMPTS then Failed else Queued))]
    else
      rows
  }

  predicate HitsPiece(f: PieceFilter, r: PieceRow) {
    && (f.status.Some? ==> r.core.status == f.status.value)
    && (f.worker > 0 ==> r.core.worker == Some(f.worker))
    && (f.document > 0 ==> r.info.document == f.document)
  }

  function RequeueingPieces(rows: Pieces, f: PieceFilter): (r: Pieces)
    ensures r.Keys == rows.Keys
  {
    map k | k in rows ::
      if HitsPiece(f, rows[k]) then rows[k].(core := Cleared(rows[k].core, Queued)) else rows[k]
  }

  // ----- replacing the chunks of one document --------------------------------

  function RowsOf(rows: Pieces, document: int): Pieces {
    map k | k in rows && rows[k].info.document == document :: rows[k]
  }

  /** The row ORDER BY chunk_index ASC lists first; ids break ties, which UNIQUE(document_id, chunk_index) excludes. */
  predicate Foremost(rows: Pieces, k: ChunkId) {
    && k in rows
    && forall j | j in rows ::
         || rows[k].info.index < rows[j].info.index
         || (rows[k].info.index == rows[j].info.index && k <= j)
  }

  lemma {:induction false} SomeForemost(rows: Pieces, ids: set<ChunkId>) returns (k: ChunkId)
    requires ids != {} && ids <= rows.Keys
    ensures k in ids
    ensures forall j | j in ids ::
              || rows[k].info.index < rows[j].info.index
              || (rows[k].info.index == rows[j].info.index && k <= j)
  {
    k :| k in ids;
    if ids != {k} {
      var other := SomeForemost(rows, ids - {k});
      if rows[other].info.index < rows[k].info.index || (rows[other].info.index == rows[k].info.index && other < k) {
        k := other;
      }
    }
  }

  lemma ForemostExists(rows: Pieces)
    requires rows != map[]
    ensures exists k :: Foremost(rows, k)
  {
    var k := SomeForemost(rows, rows.Keys);
    assert Foremost(rows, k);
  }

  /** The ids by ascending chunk_index. */
  function IndexOrder(rows: Pieces): seq<ChunkId>
    decreases |rows|
  {
    if rows == map[] then []
    else
      ForemostExists(rows);
      var k :| Foremost(rows, k);
      [k] + IndexOrder(rows - {k})
  }

  /** The document's chunk ids, each once, by ascending chunk_index. */
  ghost predicate InIndexOrder(rows: Pieces, ids: seq<ChunkId>) {
    && NoDup(ids) && (forall k :: k in ids <==> k in rows)
    && forall i, j | 0 <= i < j < |ids| :: rows[ids[i]].info.index <= rows[ids[j]].info.index
  }

  lemma OneForemost(rows: Pieces, k: ChunkId, j: ChunkId)
    requires Foremost(rows, k) && Foremost(rows, j)
    ensures j == k
  {
  }

  lemma IndexOrderPops(rows: Pieces, k: ChunkId)
    requires Foremost(rows, k)
    ensures IndexOrder(rows) == [k] + IndexOrder(rows - {k})
  {
    var j: ChunkId :| Foremost(rows, j) && IndexOrder(rows) == [j] + IndexOrder(rows - {j});
    OneForemost(rows, k, j);
  }

  lemma ConsNoDup(k: ChunkId, rest: seq<ChunkId>)
    requires NoDup(rest) && k !in rest
    ensures NoDup([k] + rest)
  {
    forall i, j | 0 <= i < j < 1 + |rest|
      ensures ([k] + rest)[i] != ([k] + rest)[j]
    {
      assert rest[j - 1] in rest;
    }
  }

  lemma ForemostFirst(rows: Pieces, k: ChunkId, rest: seq<ChunkId>)
    requires Foremost(rows, k) && InIndexOrder(rows - {k}, rest)
    ensures InIndexOrder(rows, [k] + rest)
  {
    var ids := [k] + rest;
    ConsNoDup(k, rest);
    forall j
      ensures j in ids <==> j in rows
    {
      assert j in rest <==> j in rows - {k};
    }
    forall i, j | 0 <= i < j < |ids|
      ensures rows[ids[i]].info.index <= rows[ids[j]].info.index
    {
      assert ids[j] == rest[j - 1] && rest[j - 1] in rest;
      if i > 0 {
        assert rest[i - 1] in rest && (rows - {k})[rest[i - 1]].info.index <= (rows - {k})[rest[j - 1]].info.index;
      }
    }
  }

  lemma {:induction false} IndexOrderLists(rows: Pieces)
    ensures InIndexOrder(rows, IndexOrder(rows))
    decreases |rows|
  {
    if rows != map[] {
      ForemostExists(rows);
      var k :| Foremost(rows, k);
      IndexOrderPops(rows, k);
      IndexOrderLists(rows - {k});
      ForemostFirst(rows, k, IndexOrder(rows - {k}));
    }
  }

  function WithoutDocument(rows: Pieces, document: int): Pieces {
    map k | k in rows && rows[k].info.document != document :: rows[k]
  }

  function FreshRow(document: int, f: Fresh, now: Time): PieceRow {
    Row(Unleased(Queued, 0), Piece(document, f.index, f.text, f.tokens, now))
  }

  /** The first n inserts of CREATE(&rows). */
  function InsertingPieces(rows: Pieces, document: int, incoming: seq<Fresh>, n: nat, now: Time): Pieces
    requires n <= |incoming|
  {
    if n == 0 then rows
    else
      var f := incoming[n - 1];
      InsertingPieces(rows, document, incoming, n - 1, now)[f.id := FreshRow(document, f, now)]
  }

  /** The primary key and UNIQUE(document_id, chunk_index) admit the whole batch. */
  predicate Insertable(rows: Pieces, document: int, incoming: seq<Fresh>) {
    && (forall i | 0 <= i < |incoming| :: incoming[i].id !in rows)
    && (forall i, j | 0 <= i < j < |incoming| ::
         incoming[i].id != incoming[j].id && incoming[i].index != incoming[j].index)
    && (forall k, i | k in rows && rows[k].info.document == document && 0 <= i < |incoming| ::
          rows[k].info.index != incoming[i].index)
  }

  /** ReplaceByDocument: delete then insert in one transaction, or nothing at all. */
  function Replacing(rows: Pieces, document: int, incoming: seq<Fresh>, now: Time): Pieces {
    var kept := WithoutDocument(rows, document);
    if Insertable(kept, document, incoming) then InsertingPieces(kept, document, incoming, |incoming|, now) else rows
  }

  predicate FreshAmong(incoming: seq<Fresh>, n: nat, k: ChunkId)
    requires n <= |incoming|
  {
    exists i | 0 <= i < n :: incoming[i].id == k
  }

  /** Rows of other documents are untouched; the document's rows are exactly the new ones. */
  lemma {:induction false} InsertingAt(rows: Pieces, document: int, incoming: seq<Fresh>, n: nat, now: Time, k: ChunkId)
    requires n <= |incoming| && Insertable(rows, document, incoming)
    ensures k in InsertingPieces(rows, document, incoming, n, now) <==> k in rows || FreshAmong(incoming, n, k)
    ensures k in rows ==> InsertingPieces(rows, document, incoming, n, now)[k] == rows[k]
    ensures forall i | 0 <= i < n && incoming[i].id == k ::
              InsertingPieces(rows, document, incoming, n, now)[k] == FreshRow(document, incoming[i], now)
  {
    if n > 0 {
      InsertingAt(rows, document, incoming, n - 1, now, k);
    }
  }
}

module ChunkRepository {
  import opened Wrappers
  import opened Clock
  import opened LeaseTable
  import opened Finite
  import opened ChunkModel

  datatype LeasedChunk = LeasedChunk(id: ChunkId, token: Token<ChunkId>, expires: Time)

  class ChunkRepo {
    var pieces: Pieces

    constructor ()
      ensures pieces == map[]
    {
      pieces := map[];
    }

    /** The pending chunk created first. */
    method EarliestOf(rest: set<ChunkId>) returns (m: ChunkId)
      requires rest != {} && rest <= pieces.Keys
      ensures m in rest && forall k | k in rest :: pieces[m].info.createdAt <= pieces[k].info.createdAt
    {
      m :| m in rest;
      var left := rest - {m};
      while left != {}
        invariant m in rest && left <= rest
        invariant forall k | k in rest && k !in left :: pieces[m].info.createdAt <= pieces[k].info.createdAt
        decreases |left|
      {
        var k :| k in left;
        if pieces[k].info.createdAt < pieces[m].info.createdAt {
          m := k;
        }
        left := left - {k};
      }
    }

    method PickOldest(batch: int) returns (picks: seq<ChunkId>)
      requires batch > 0
      ensures Oldest(pieces, batch, picks)
    {
      picks := [];
      var rest := Pending(pieces);
      while |picks| < batch && rest != {}
        invariant |picks| <= batch && NoDup(picks) && AllIn(picks, pieces)
        invariant forall k | k in Pending(pieces) :: k in rest <==> !Among(k, picks, |picks|)
        invariant rest <= Pending(pieces)
        invariant forall i | 0 <= i < |picks| :: pieces[picks[i]].core.status == Queued
        invariant forall i, k | 0 <= i < |picks| && k in rest ::
                    pieces[picks[i]].info.createdAt <= pieces[k].info.createdAt
        invariant forall i, j | 0 <= i < j < |picks| ::
                    pieces[picks[i]].info.createdAt <= pieces[picks[j]].info.createdAt
        decreases |rest|
      {
        var m := EarliestOf(rest);
        ghost var before := picks;
        picks := picks + [m];
        rest := rest - {m};
        forall k | k in Pending(pieces)
          ensures k in rest <==> !Among(k, picks, |picks|)
        {
          AmongOneMore(before, m, k);
        }
      }
    }

    method ReserveBatch(worker: int, batch: int, ttl: Time, now: Time) returns (leased: seq<LeasedChunk>)
      modifies this
      ensures batch <= 0 ==> leased == [] && pieces == old(pieces)
      ensures batch > 0 ==> exists picks ::
                Oldest(old(pieces), batch, picks) && Reserved(old(pieces), picks, worker, now + ttl, pieces, leased)
    {
      leased := [];
      if batch <= 0 {
        return;
      }
      var expires := now + ttl;
      ghost var rows := pieces;
      var picks := PickOldest(batch);
      for i := 0 to |picks|
        invariant pieces == LeasingFirst(rows, picks, i, worker, expires)
        invariant |leased| == i
        invariant forall n | 0 <= n < i ::
                    leased[n] == LeasedChunk(picks[n], TokenFor(picks[n], worker, expires), expires)
      {
        var id := picks[i];
        LeasingAt(rows, picks, i, worker, expires, id);
        var r := pieces[id];
        if r.core.status == Queued {
          pieces := pieces[id := LeasedRow(r, id, worker, expires)];
          leased := leased + [LeasedChunk(id, TokenFor(id, worker, expires), expires)];
        }
      }
      assert Reserved(rows, picks, worker, expires, pieces, leased);
    }

    method MarkEmbedded(id: ChunkId, token: Token<ChunkId>) returns (ok: bool)
      modifies this
      ensures pieces == Completing(old(pieces), id, token)
      ensures ok <==>
                id in old(pieces) && old(pieces)[id].core.status == Leased && old(pieces)[id].core.token == Some(token)
      ensures ok ==>
                pieces == old(pieces)[id := Row(Core(Done, None, None, None, old(pieces)[id].core.attempts),
                                                old(pieces)[id].info)]
      ensures !ok ==> pieces == old(pieces)
    {
      ok := id in pieces && HeldWith(pieces[id].core, token);
      if ok {
        pieces := pieces[id := pieces[id].(core := Unleased(Done, pieces[id].core.attempts))];
      }
    }

    method MarkEmbedFailed(id: ChunkId, token: Token<ChunkId>) returns (ok: bool)
      modifies this
      ensures pieces == EmbedFailing(old(pieces), id, token)
      ensures ok <==> id in old(pieces) && old(pieces)[id].core.token == Some(token)
      ensures ok ==>
                var r := old(pieces)[id];
                pieces == old(pieces)[id := Row(
                  Core(if r.core.attempts < 3 then Queued else Failed, None, None, None, r.core.attempts), r.info)]
      ensures !ok ==> pieces == old(pieces)
    {
      if id !in pieces || pieces[id].core.token.None? || pieces[id].core.token.value != token {
        return false;
      }
      var m := pieces[id];
      var status := Queued;
      if m.core.attempts >= 3 {
        status := Failed;
      }
      pieces := pieces[id := m.(core := Unleased(status, m.core.attempts))];
      ok := true;
    }

    method SweepExpired(now: Time) returns (affected: nat)
      modifies this
      ensures pieces == Swept(old(pieces), now)
      ensures forall k | k in pieces :: !Overdue(pieces[k].core, now)
      ensures affected == |Changed(old(pieces), pieces)|
      ensures affected == |OverdueIn(old(pieces), now)|
      ensures pieces.Keys == old(pieces).Keys
      ensures forall k | k in pieces ::
                var r := old(pieces)[k];
                if r.core.status == Leased && r.core.expiresAt.Some? && r.core.expiresAt.value < now then
                  pieces[k] == Row(Core(Queued, None, None, None, r.core.attempts), r.info)
                else pieces[k] == r
    {
      SweepTakesTheOverdue(pieces, now);
      affected := |OverdueIn(pieces, now)|;
      pieces := map k | k in pieces ::
        if Overdue(pieces[k].core, now) then pieces[k].(core := Unleased(Queued, pieces[k].core.attempts))
        else pieces[k];
    }

    method RequeueByFilter(f: PieceFilter) returns (affected: nat)
      modifies this
      ensures pieces == RequeueingPieces(old(pieces), f)
      ensures pieces.Keys == old(pieces).Keys
      ensures forall k | k in pieces ::
                var r := old(pieces)[k];
                if (f.status == None || f.status == Some(r.core.status))
                   && (f.worker <= 0 || r.core.worker == Some(f.worker))
                   && (f.document <= 0 || r.info.document == f.document)
                then pieces[k] == Row(Core(Queued, None, None, None, r.core.attempts), r.info)
                else pieces[k] == r
      ensures affected == |set k | k in old(pieces) && HitsPiece(f, old(pieces)[k])|
    {
      affected := |set k | k in pieces && HitsPiece(f, pieces[k])|;
      pieces := map k | k in pieces ::
        if HitsPiece(f, pieces[k]) then pieces[k].(core := Unleased(Queued, pieces[k].core.attempts)) else pieces[k];
    }

    /** SELECT id FROM document_chunks WHERE document_id = ? ORDER BY chunk_index ASC */
    method IdsOf(document: int) returns (ids: seq<ChunkId>)
      ensures ids == IndexOrder(RowsOf(pieces, document))
    {
      ids := [];
      var rest := map k | k in pieces && pieces[k].info.document == document :: pieces[k];
      while rest != map[]
        invariant ids + IndexOrder(rest) == IndexOrder(RowsOf(pieces, document))
        decreases |rest|
      {
        var k := FirstOf(rest);
        IndexOrderPops(rest, k);
        ids := ids + [k];
        rest := rest - {k};
      }
    }

    /** Delete-then-insert; a refused insert rolls the delete back. The ids deleted come back in index order. */
    method ReplaceByDocument(document: int, incoming: seq<Fresh>, now: Time)
        returns (replaced: Result<seq<ChunkId>, string>)
      modifies this
      ensures pieces == Replacing(old(pieces), document, incoming, now)
      ensures replaced.Ok? <==> Insertable(WithoutDocument(old(pieces), document), document, incoming)
      ensures replaced.Ok? ==>
                && replaced.value == IndexOrder(RowsOf(old(pieces), document))
                && InIndexOrder(RowsOf(old(pieces), document), replaced.value)
    {
      var before := pieces;
      var ids := IdsOf(document);
      IndexOrderLists(RowsOf(pieces, document));
      pieces := map k | k in pieces && pieces[k].info.document != document :: pieces[k];
      ghost var kept := pieces;
      assert kept == WithoutDocument(before, document);
      if !Insertable(pieces, document, incoming) {
        pieces := before;
        return Err("rechunk: insert new");
      }
      for i := 0 to |incoming|
        invariant pieces == InsertingPieces(kept, document, incoming, i, now)
      {
        pieces := pieces[incoming[i].id := FreshRow(document, incoming[i], now)];
      }
      replaced := Ok(ids);
    }
  }

  /** A scan for the first row. */
  method FirstOf(rows: Pieces) returns (k: ChunkId)
    requires rows != map[]
    ensures Foremost(rows, k)
  {
    k :| k in rows;
    var left := rows.Keys - {k};
    while left != {}
      invariant k in rows && left <= rows.Keys
      invariant forall j | j in rows && j !in left ::
                  || rows[k].info.index < rows[j].info.index
                  || (rows[k].info.index == rows[j].info.index && k <= j)
      decreases |left|
    {
      var j :| j in left;
      if rows[j].info.index < rows[k].info.index || (rows[j].info.index == rows[k].info.index && j < k) {
        k := j;
      }
      left := left - {j};
    }
  }

  lemma AmongOneMore(picks: seq<ChunkId>, m: ChunkId, k: ChunkId)
    ensures Among(k, picks + [m], |picks| + 1) <==> Among(k, picks, |picks|) || k == m
  {
    if k == m {
      assert (picks + [m])[|picks|] == k;
    }
    if Among(k, picks, |picks|) {
      var i :| 0 <= i < |picks| && picks[i] == k;
      assert (picks + [m])[i] == k;
    }
  }

  ghost predicate Reserved(rows: Pieces, picks: seq<ChunkId>, worker: int, expires: Time, rows': Pieces,
      leased: seq<LeasedChunk>)
  {
    && AllIn(picks, rows)
    && rows' == Leasing(rows, picks, worker, expires)
    && |leased| == |picks|
    && forall i | 0 <= i < |picks| :: leased[i] == LeasedChunk(picks[i], TokenFor(picks[i], worker, expires), expires)
  }

  /** The same on the columns: exactly the picks are leased to the worker, and the reply says so. */
  lemma ReservedOnColumns(rows: Pieces, picks: seq<ChunkId>, worker: int, expires: Time, rows': Pieces,
      leased: seq<LeasedChunk>)
    requires Reserved(rows, picks, worker, expires, rows', leased)
    ensures rows'.Keys == rows.Keys && |leased| == |picks|
    ensures forall k | k in rows ::
              rows'[k] == if k in picks then
                            Row(Core(Leased, Some(worker), Some(Token(k, worker, expires / SECOND)), Some(expires),
                                     rows[k].core.attempts + 1), rows[k].info)
                          else rows[k]
    ensures forall i | 0 <= i < |picks| ::
              leased[i] == LeasedChunk(picks[i], Token(picks[i], worker, expires / SECOND), expires)
  {
    forall k | k in rows
      ensures rows'[k] == if k in picks then
                            Row(Core(Leased, Some(worker), Some(Token(k, worker, expires / SECOND)), Some(expires),
                                     rows[k].core.attempts + 1), rows[k].info)
                          else rows[k]
    {
      LeasingOnColumns(rows, picks, worker, expires, k);
    }
  }
}

/**
 * The lease columns shared by crawl_frontier, document_chunks and
 * processing_jobs, the per-row acts that change them, and what every act keeps.
 *
 * A queue's own module says which act each of its statements performs on each
 * row; everything proved here is then inherited by whole runs of that queue.
 */
module LeaseTable {
  import opened Wrappers
  import opened Clock

  /** Leased stands for 'leased' and 'running', Queued for 'queued' and 'pending'. */
  datatype Status = Queued | Leased | Done | Failed | Dead | Skipped

  /**
   * A lease token by what its bytes say: the item, the worker and the expiry in
   * whole seconds. Module LeaseToken proves that the stored bytes are equal
   * exactly when these three are.
   */
  datatype Token<K> = Token(item: K, worker: int, expSec: int)

  datatype Core<K> = Core(
    status: Status,
    worker: Option<int>,
    token: Option<Token<K>>,
    expiresAt: Option<Time>,
    attempts: int)

  datatype Row<K, I> = Row(core: Core<K>, info: I)

  type Table<K(==), I> = map<K, Row<K, I>>

  function Unleased<K>(status: Status, attempts: int): Core<K> {
    Core(status, None, None, None, attempts)
  }

  /** The SET clause of every statement that takes a lease away. */
  function Cleared<K>(c: Core<K>, status: Status): Core<K> {
    Unleased(status, c.attempts)
  }

  /** The SET clause of the three reserve statements. */
  function Granted<K>(c: Core<K>, token: Token<K>, expires: Time): Core<K> {
    Core(Leased, Some(token.worker), Some(token), Some(expires), c.attempts + 1)
  }

  predicate HeldWith<K(==)>(c: Core<K>, token: Token<K>) {
    c.status == Leased && c.token == Some(token)
  }

  /** lease.Verify: the signed expiry has not passed. */
  predicate Verified<K>(token: Token<K>, at: Time) {
    at <= token.expSec * SECOND
  }

  // ----- statements over a whole table --------------------------------------

  predicate Overdue<K>(c: Core<K>, now: Time) {
    c.status == Leased && c.expiresAt.Some? && c.expiresAt.value < now
  }

  /** SweepExpired: a NULL expiry never compares as smaller. */
  function Swept<K, I>(rows: Table<K, I>, now: Time): (r: Table<K, I>)
    ensures r.Keys == rows.Keys
  {
    map k | k in rows ::
      if Overdue(rows[k].core, now) then rows[k].(core := Cleared(rows[k].core, Queued)) else rows[k]
  }

  function OverdueIn<K, I>(rows: Table<K, I>, now: Time): set<K> {
    set k | k in rows && Overdue(rows[k].core, now)
  }

  /** The rows that are not what they were. */
  function Changed<K, I(==)>(was: Table<K, I>, now: Table<K, I>): set<K>
    requires was.Keys == now.Keys
  {
    set k | k in was && now[k] != was[k]
  }

  /** A sweep changes exactly the overdue rows and leaves none. */
  lemma SweepTakesTheOverdue<K, I>(rows: Table<K, I>, now: Time)
    ensures Changed(rows, Swept(rows, now)) == OverdueIn(rows, now)
    ensures forall k | k in rows :: !Overdue(Swept(rows, now)[k].core, now)
  {
    forall k | k in rows
      ensures Swept(rows, now)[k] != rows[k] <==> Overdue(rows[k].core, now)
    {
      assert Overdue(rows[k].core, now) ==> Swept(rows, now)[k].core.status == Queued;
    }
  }

  /** The leases a worker holds, as CountHeldLeases counts them for one table. */
  function HeldBy<K, I>(rows: Table<K, I>, worker: int): set<K> {
    set k | k in rows && rows[k].core.status == Leased && rows[k].core.worker == Some(worker)
  }

  /** What signLease puts in a token: the item, the worker and the truncated expiry. */
  function TokenFor<K>(item: K, worker: int, expires: Time): Token<K> {
    Token(item, worker, Unix(expires))
  }

  function LeasedRow<K, I>(r: Row<K, I>, k: K, worker: int, expires: Time): Row<K, I> {
    r.(core := Granted(r.core, TokenFor(k, worker, expires), expires))
  }

  predicate AllIn<K, I>(picks: seq<K>, rows: Table<K, I>) {
    forall i | 0 <= i < |picks| :: picks[i] in rows
  }

  /** The table after one UPDATE for each of the first n picks. */
  function LeasingFirst<K, I>(rows: Table<K, I>, picks: seq<K>, n: nat, worker: int, expires: Time): (r: Table<K, I>)
    requires n <= |picks| && AllIn(picks, rows)
    ensures r.Keys == rows.Keys
  {
    if n == 0 then rows
    else
      var k := picks[n - 1];
      LeasingFirst(rows, picks, n - 1, worker, expires)[k := LeasedRow(rows[k], k, worker, expires)]
  }

  function Leasing<K, I>(rows: Table<K, I>, picks: seq<K>, worker: int, expires: Time): (r: Table<K, I>)
    requires AllIn(picks, rows)
    ensures r.Keys == rows.Keys
  {
    LeasingFirst(rows, picks, |picks|, worker, expires)
  }

  predicate Among<K(==)>(k: K, picks: seq<K>, n: nat)
    requires n <= |picks|
  {
    exists i | 0 <= i < n :: picks[i] == k
  }

  /** Read off row by row: exactly the picked rows are leased. */
  lemma {:induction false} LeasingAt<K, I>(rows: Table<K, I>, picks: seq<K>, n: nat, worker: int, expires: Time, k: K)
    requires n <= |picks| && AllIn(picks, rows)
    requires k in rows
    ensures LeasingFirst(rows, picks, n, worker, expires)[k]
         == if Among(k, picks, n) then LeasedRow(rows[k], k, worker, expires) else rows[k]
  {
    if n > 0 {
      LeasingAt(rows, picks, n - 1, worker, expires, k);
    }
  }

  /** The columns after a reserve: exactly the picks are leased, one attempt up, under a token of their own. */
  lemma LeasingOnColumns<K, I>(rows: Table<K, I>, picks: seq<K>, worker: int, expires: Time, k: K)
    requires AllIn(picks, rows) && k in rows
    ensures Leasing(rows, picks, worker, expires)[k]
         == if k in picks then
              Row(Core(Leased, Some(worker), Some(Token(k, worker, expires / SECOND)), Some(expires),
                       rows[k].core.attempts + 1), rows[k].info)
            else rows[k]
  {
    LeasingAt(rows, picks, |picks|, worker, expires, k);
    assert Among(k, picks, |picks|) <==> k in picks;
  }

  /** UPDATE ... SET lease_expires_at = ? WHERE id = ? AND leased AND lease_token = ? */
  function Beating<K, I>(rows: Table<K, I>, k: K, token: Token<K>, newExpiry: Time): Table<K, I> {
    if k in rows && HeldWith(rows[k].core, token) then
      rows[k := rows[k].(core := rows[k].core.(expiresAt := Some(newExpiry)))]
    else
      rows
  }

  /** UPDATE ... SET status = 'done', lease cleared WHERE id = ? AND leased AND lease_token = ? */
  function Completing<K, I>(rows: Table<K, I>, k: K, token: Token<K>): Table<K, I> {
    if k in rows && HeldWith(rows[k].core, token) then
      rows[k := rows[k].(core := Cleared(rows[k].core, Done))]
    else
      rows
  }

  /** The failure paths compare the stored token only; they do not look at the status. */
  predicate Stores<K, I>(rows: Table<K, I>, k: K, token: Token<K>) {
    k in rows && rows[k].core.token == Some(token)
  }

  // ----- per-row acts --------------------------------------------------------

  datatype Why = Completed | GaveUp | Expired | Requeued

  datatype Act<K> =
    | Idle
    | Grant(token: Token<K>, expires: Time, readAt: Time)
    | Beat(expires: Time)
    | End(why: Why, next: Status)

  function Do<K>(c: Core<K>, a: Act<K>): Core<K> {
    match a
    case Idle => c
    case Grant(token, expires, _) => Granted(c, token, expires)
    case Beat(expires) => c.(expiresAt := Some(expires))
    case End(_, next) => Cleared(c, next)
  }

  /** What the WHERE clauses let through; cap is the attempt limit of the queue or row. */
  predicate Can<K>(c: Core<K>, a: Act<K>, cap: int) {
    match a
    case Idle => true
    case Grant(_, _, _) => c.status == Queued
    case Beat(_) => c.status == Leased
    case End(Completed, next) => c.status == Leased && next == Done
    case End(GaveUp, next) => c.status == Leased && next != Leased && (next == Queued ==> c.attempts < cap)
    case End(Expired, next) => c.status == Leased && next == Queued
    case End(Requeued, next) => next == Queued
  }

  // ----- history of one row --------------------------------------------------

  datatype Tally = Tally(
    granted: nat, completed: nat, gaveUp: nat, expired: nat, requeuedHeld: nat, requeued: nat)

  /** Every token issued for the row, the clock reading of the last grant, and the event counts. */
  datatype History<K> = History(issued: seq<Token<K>>, grantedAt: Time, tally: Tally)

  const BLANK: Tally := Tally(0, 0, 0, 0, 0, 0)

  function NewHistory<K>(): History<K> {
    History([], 0, BLANK)
  }

  function Counted<K>(t: Tally, c: Core<K>, a: Act<K>): Tally {
    match a
    case Idle => t
    case Beat(_) => t
    case Grant(_, _, _) => t.(granted := t.granted + 1)
    case End(Completed, _) => t.(completed := t.completed + 1)
    case End(GaveUp, _) => t.(gaveUp := t.gaveUp + 1)
    case End(Expired, _) => t.(expired := t.expired + 1)
    case End(Requeued, _) =>
      t.(requeued := t.requeued + 1,
         requeuedHeld := t.requeuedHeld + if c.status == Leased then 1 else 0)
  }

  function Track<K>(h: History<K>, c: Core<K>, a: Act<K>): History<K> {
    var tally := Counted(h.tally, c, a);
    if a.Grant? then History(h.issued + [a.token], a.readAt, tally) else h.(tally := tally)
  }

  // ----- what every act keeps ------------------------------------------------

  /** Leased exactly when all three lease columns are set; otherwise all three are NULL. */
  predicate Shape<K>(c: Core<K>) {
    && (c.status == Leased <==> c.token.Some?)
    && (c.token.Some? <==> c.worker.Some?)
    && (c.token.Some? <==> c.expiresAt.Some?)
  }

  /** Every lease granted ended exactly once, or is the one held now. */
  predicate Conserved<K>(c: Core<K>, t: Tally) {
    && c.attempts == t.granted
    && t.granted == t.completed + t.gaveUp + t.expired + t.requeuedHeld + if c.status == Leased then 1 else 0
  }

  /** The attempts a row gets when nothing but its own failures requeues it. */
  function Limit(cap: int): int {
    if cap < 1 then 1 else cap
  }

  function Budget(cap: int, t: Tally): int {
    Limit(cap) + t.expired + t.requeued
  }

  /** A queued row still has a grant left inside its budget. */
  predicate WithinBudget<K>(c: Core<K>, t: Tally, cap: int) {
    && t.granted <= Budget(cap, t)
    && (c.status == Queued ==> t.granted < Budget(cap, t))
  }

  /** The row holds the token issued last, or none. */
  ghost predicate HoldsLast<K>(c: Core<K>, h: History<K>) {
    && |h.issued| == h.tally.granted
    && (c.token.Some? ==>
          && h.issued != [] && c.token.value == h.issued[|h.issued| - 1]
          && c.worker == Some(c.token.value.worker))
  }

  ghost predicate Sound<K>(c: Core<K>, h: History<K>, cap: int) {
    Shape(c) && Conserved(c, h.tally) && WithinBudget(c, h.tally, cap) && HoldsLast(c, h)
  }

  /** One act, whichever queue performs it, keeps shape, conservation, budget and last-token. */
  lemma ActKeepsSound<K>(c: Core<K>, h: History<K>, a: Act<K>, cap: int)
    requires Sound(c, h, cap) && Can(c, a, cap)
    ensures Sound(Do(c, a), Track(h, c, a), cap)
  {
    assert a.Grant? ==> Track(h, c, a).issued[|h.issued|] == a.token;
  }

  // ----- tokens issued twice -------------------------------------------------

  /** A grant of one item: to whom and until when. */
  datatype Issue = Issue(worker: int, expires: Time)

  function TokenOf<K>(k: K, g: Issue): Token<K> {
    TokenFor(k, g.worker, g.expires)
  }

  /** The same worker inside the same expiry second. */
  predicate Alike(a: Issue, b: Issue) {
    a.worker == b.worker && Unix(a.expires) == Unix(b.expires)
  }

  /** The tokens of these grants, in order. */
  ghost predicate IssuedBy<K>(k: K, issued: seq<Token<K>>, grants: seq<Issue>) {
    |issued| == |grants| && forall i | 0 <= i < |grants| :: issued[i] == TokenOf(k, grants[i])
  }

  ghost predicate AllUnlike(grants: seq<Issue>) {
    forall i, j | 0 <= i < j < |grants| :: !Alike(grants[i], grants[j])
  }

  /** Every worker's next grant of the item expires a second or more after its last. */
  ghost predicate SecondsApart(grants: seq<Issue>) {
    forall i, j | 0 <= i < j < |grants| && grants[i].worker == grants[j].worker ::
      grants[j].expires >= grants[i].expires + SECOND
  }

  lemma SecondsApartAreUnlike(grants: seq<Issue>)
    requires SecondsApart(grants)
    ensures AllUnlike(grants)
  {
    forall i, j | 0 <= i < j < |grants|
      ensures !Alike(grants[i], grants[j])
    {
      UnixGap(grants[i].expires, grants[j].expires, 1);
    }
  }

  // ----- the attempt limit ---------------------------------------------------

  /** Within the limit, and a queued row can still be granted within it. */
  predicate UnderLimit<K>(c: Core<K>, cap: int) {
    c.attempts <= Limit(cap) && (c.status == Queued ==> c.attempts < Limit(cap))
  }

  /** A sweep or an operator puts back a row that has no attempt left. */
  predicate Overdraws<K>(c: Core<K>, a: Act<K>, cap: int) {
    a.End? && (a.why == Expired || a.why == Requeued) && c.attempts >= Limit(cap)
  }

  /** One act takes a row over its limit exactly when it overdraws it. */
  lemma UnderLimitIff<K>(c: Core<K>, a: Act<K>, cap: int)
    requires UnderLimit(c, cap) && Can(c, a, cap)
    ensures UnderLimit(Do(c, a), cap) <==> !Overdraws(c, a, cap)
  {
  }
}

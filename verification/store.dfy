/** The store as a value: its tables, and what each of its calls does to them.
    One call is one atomic step (crates/kuatia-storage/src/store.rs). */
module Store {
  import opened Wrappers
  import opened Domain
  import opened Amounts
  import opened Events

  datatype Held = Held(posting: Posting, reservation: ReservationId)

  /** A cache point: the balance of one (account, asset) up to a commit time. */
  datatype BalanceProjection = BalanceProjection(id: i64, balance: Cent, watermark: i64)

  datatype State = State(
    immutable: map<PostingId, Posting>,
    active: map<PostingId, Posting>,
    reserved: map<PostingId, Held>,
    accounts: map<AccountId, seq<Account>>,
    transfers: map<EnvelopeId, EnvelopeRecord>,
    participation: map<EnvelopeId, seq<AccountId>>,
    events: seq<LedgerEvent>,
    books: map<BookId, Book>,
    projections: map<(AccountId, AssetId), seq<BalanceProjection>>)

  const EMPTY: State := State(map[], map[], map[], map[], map[], map[], [], map[], map[])

  datatype StoreError = NotFound | Internal

  // ----- reads -----

  function Head(s: State, a: AccountId): Option<Account> {
    if a in s.accounts && s.accounts[a] != [] then Some(s.accounts[a][|s.accounts[a]| - 1]) else None
  }

  function ReservedRows(reserved: map<PostingId, Held>): map<PostingId, Posting> {
    map id | id in reserved :: reserved[id].posting
  }

  /** Active or reserved: everything that still counts toward a balance. */
  function Live(s: State): map<PostingId, Posting> { s.active + ReservedRows(s.reserved) }

  ghost function LiveSum(s: State, sl: Slice): int { SumRows(sl, Live(s)) }

  datatype PostingState = Active | Reserved(reservation: ReservationId) | Spent | Missing

  function StateOf(s: State, id: PostingId): PostingState {
    if id in s.active then Active
    else if id in s.reserved then Reserved(s.reserved[id].reservation)
    else if id in s.immutable then Spent
    else Missing
  }

  // ----- posting lifecycle primitives -----

  function Reserve(s: State, ids: seq<PostingId>, rid: ReservationId): (State, nat) {
    if ids == [] then (s, 0)
    else
      var (t, n) := Reserve(s, ids[..|ids| - 1], rid);
      var id := ids[|ids| - 1];
      if id in t.active
      then (t.(active := t.active - {id}, reserved := t.reserved[id := Held(t.active[id], rid)]), n + 1)
      else (t, n)
  }

  function Release(s: State, ids: seq<PostingId>, rid: ReservationId): (State, nat) {
    if ids == [] then (s, 0)
    else
      var (t, n) := Release(s, ids[..|ids| - 1], rid);
      var id := ids[|ids| - 1];
      if id in t.reserved && t.reserved[id].reservation == rid
      then (t.(reserved := t.reserved - {id}, active := t.active[id := t.reserved[id].posting]), n + 1)
      else (t, n)
  }

  function Deactivate(s: State, ids: seq<PostingId>, rid: Option<ReservationId>): (State, nat) {
    if ids == [] then (s, 0)
    else
      var (t, n) := Deactivate(s, ids[..|ids| - 1], rid);
      var id := ids[|ids| - 1];
      match rid
      case None => if id in t.active then (t.(active := t.active - {id}), n + 1) else (t, n)
      case Some(r) =>
        if id in t.reserved && t.reserved[id].reservation == r
        then (t.(reserved := t.reserved - {id}), n + 1) else (t, n)
  }

  function InsertPostings(s: State, ps: seq<Posting>): (State, nat) {
    if ps == [] then (s, 0)
    else
      var (t, n) := InsertPostings(s, ps[..|ps| - 1]);
      var p := ps[|ps| - 1];
      if p.id in t.immutable then (t, n)
      else (t.(immutable := t.immutable[p.id := p], active := t.active[p.id := p]), n + 1)
  }

  // ----- accounts, events, books -----

  function CreateAccount(s: State, account: Account): (State, nat) {
    if account.id in s.accounts then (s, 0)
    else (s.(accounts := s.accounts[account.id := [account]]), 1)
  }

  function AppendEvent(s: State, event: LedgerEvent): State {
    s.(events := Append(s.events, event))
  }

  function CreateBook(s: State, book: Book): (State, nat) {
    if book.id in s.books then (s, 0) else (s.(books := s.books[book.id := book]), 1)
  }

  function PointsOf(s: State, a: AccountId, asset: AssetId): seq<BalanceProjection> {
    if (a, asset) in s.projections then s.projections[(a, asset)] else []
  }

  function AppendProjection(s: State, a: AccountId, asset: AssetId, p: BalanceProjection): State {
    s.(projections := s.projections[(a, asset) := PointsOf(s, a, asset) + [p]])
  }

  // ----- the atomic commit -----

  datatype CommitRequest = CommitRequest(
    transferId: EnvelopeId,
    consume: seq<PostingId>,
    create: seq<Posting>,
    record: EnvelopeRecord,
    involved: seq<AccountId>,
    event: LedgerEvent)

  datatype CommitRejection =
    | DoubleSpend(id: PostingId)
    | FrozenAccount(account: AccountId)
    | ClosedAccount(account: AccountId)
    | Overdraft(account: AccountId, asset: AssetId, projected: Cent)

  datatype CommitOutcome =
    | Committed(receipt: Receipt)
    | AlreadyCommitted(receipt: Receipt)
    | Rejected(reason: CommitRejection)

  type CommitResult = Result<CommitOutcome, StoreError>

  /** The first involved account that is missing, frozen or closed decides. */
  function LifecycleGuard(s: State, involved: seq<AccountId>): Option<CommitResult> {
    if involved == [] then None
    else
      match Head(s, involved[0])
      case None => Some(Err(Internal))
      case Some(account) =>
        if account.IsFrozen() then Some(Ok(Rejected(FrozenAccount(involved[0]))))
        else if account.IsClosed() then Some(Ok(Rejected(ClosedAccount(involved[0]))))
        else LifecycleGuard(s, involved[1..])
  }

  /** The first consumed id that is not active decides. */
  function DoubleSpendGuard(s: State, consume: seq<PostingId>): Option<CommitResult> {
    if consume == [] then None
    else if consume[0] !in s.active then Some(Ok(Rejected(DoubleSpend(consume[0]))))
    else DoubleSpendGuard(s, consume[1..])
  }

  /** Idempotency, then freeze/close, then double spend. */
  function Guard(s: State, req: CommitRequest): Option<CommitResult> {
    if req.transferId in s.transfers
    then Some(Ok(AlreadyCommitted(s.transfers[req.transferId].receipt)))
    else
      var g := LifecycleGuard(s, req.involved);
      if g.Some? then g else DoubleSpendGuard(s, req.consume)
  }

  predicate Forbids(s: State, a: AccountId) { Head(s, a).Some? && Head(s, a).value.ForbidsOverdraft() }

  /** The assets whose floor is checked for one account. */
  function FloorAssets(s: State, req: CommitRequest, a: AccountId): set<AssetId> {
    (set i | 0 <= i < |req.create| && req.create[i].owner == a :: req.create[i].asset)
    + (set i | 0 <= i < |req.consume| && req.consume[i] in s.active && s.active[req.consume[i]].owner == a
       :: s.active[req.consume[i]].asset)
  }

  /** The balance a commit would leave, as the in-memory store projects it: what
      stays active plus what is created (reserved rows are not counted). */
  ghost function Projected(s: State, req: CommitRequest, a: AccountId, asset: AssetId): int {
    SumRows(OfHolder(a, asset), s.active - IdSet(req.consume)) + SumPostings(OfHolder(a, asset), req.create)
  }

  ghost predicate FloorHolds(s: State, req: CommitRequest) {
    forall a, asset :: a in req.involved && Forbids(s, a) && asset in FloorAssets(s, req, a) ==>
      0 <= Projected(s, req, a, asset)
  }

  ghost predicate FloorBreached(s: State, req: CommitRequest, a: AccountId, asset: AssetId, projected: int) {
    && a in req.involved && Forbids(s, a) && asset in FloorAssets(s, req, a)
    && projected == Projected(s, req, a, asset) < 0
  }

  /** No checked addition on the way to a projected balance can overflow, whatever order
      the surviving rows come in. */
  ghost predicate FloorSafe(s: State, req: CommitRequest) {
    forall a, asset :: a in req.involved && Forbids(s, a) && asset in FloorAssets(s, req, a) ==>
      && Summable(OfHolder(a, asset), s.active - IdSet(req.consume))
      && RunningSumsFit(OfHolder(a, asset), req.create)
      && Fits(Projected(s, req, a, asset))
  }

  /** `entry(id).or_insert(row)` for each row in turn. */
  function PutAbsent(rows: map<PostingId, Posting>, ps: seq<Posting>): map<PostingId, Posting> {
    if ps == [] then rows
    else
      var t := PutAbsent(rows, ps[..|ps| - 1]);
      var p := ps[|ps| - 1];
      if p.id in t then t else t[p.id := p]
  }

  function Applied(s: State, req: CommitRequest): State {
    s.(immutable := PutAbsent(s.immutable, req.create),
       active := Put(s.active - IdSet(req.consume), req.create),
       participation := s.participation[req.transferId := req.involved],
       transfers := s.transfers[req.transferId := req.record],
       events := Append(s.events, req.event))
  }

  /** Everything `commit_envelope` may do.  Only which floor breach is reported, and
      whether a sum that leaves 64 bits on the way is noticed, depend on the
      iteration order of its hash maps; nothing is written unless it commits. */
  ghost predicate Commits(s: State, req: CommitRequest, s': State, r: CommitResult) {
    match Guard(s, req)
    case Some(g) => s' == s && r == g
    case None =>
      || (r == Ok(Committed(req.record.receipt)) && FloorHolds(s, req) && s' == Applied(s, req))
      || (s' == s && r == Err(Internal) && !FloorSafe(s, req))
      || (s' == s && r.Ok? && r.value.Rejected? && r.value.reason.Overdraft?
          && var o := r.value.reason; FloorBreached(s, req, o.account, o.asset, o.projected))
  }

  // ----- account-version transitions -----

  datatype TransitionRejection =
    | AlreadyClosed(account: AccountId)
    | VersionConflict(account: AccountId, expected: u64)

  datatype TransitionOutcome = TransitionApplied | AlreadyApplied | TransitionRejected(reason: TransitionRejection)

  function CommitTransition(s: State, next: Account, event: LedgerEvent)
    : (State, Result<TransitionOutcome, StoreError>)
  {
    match Head(s, next.id)
    case None => (s, Err(Internal))
    case Some(current) =>
      if current.IsClosed() then (s, Ok(TransitionRejected(AlreadyClosed(next.id))))
      else if current.version >= next.version then (AppendEvent(s, event), Ok(AlreadyApplied))
      else if next.version != current.version + 1
      then (s, Ok(TransitionRejected(VersionConflict(next.id, next.version))))
      else
        (AppendEvent(s.(accounts := s.accounts[next.id := s.accounts[next.id] + [next]]), event),
         Ok(TransitionApplied))
  }
}

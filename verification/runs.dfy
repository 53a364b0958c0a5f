/** Every interleaving of ledger clients over one store.  A client reads the store
    call by call, plans purely from what it read, and applies the plan later; a
    commit here may use reads taken in any earlier states, each in its own. */
module Runs {
  import opened Wrappers
  import opened Domain
  import opened Totals
  import opened Amounts
  import opened Events
  import opened Store
  import opened Canonical
  import opened Validate

  // ----- what a client does with what it read -----

  datatype Loaded = Loaded(
    consumed: seq<Posting>,
    accounts: map<AccountId, Account>,
    balances: map<BalanceKey, Cent>,
    book: Option<Book>)

  function InputOf(e: Envelope, l: Loaded): PlanInput {
    PlanInput(e, l.consumed, l.accounts, l.balances, l.book)
  }

  /** The request the ledger hands the store for a validated envelope. */
  function RequestOf(digest: Digest, e: Envelope, l: Loaded, ts: i64): CommitRequest {
    var tid := EnvelopeIdOf(digest, e);
    CommitRequest(
      tid, e.consumes, PlannedPostings(tid, e.creates),
      EnvelopeRecord(e, Receipt(tid), ts),
      Owners(e, l.consumed),
      LedgerEvent(ts, TransferCommitted(tid)))
  }

  /** `get_postings`: the immutable rows, in request order. */
  predicate PostingsRead(s: State, ids: seq<PostingId>, ps: seq<Posting>) {
    && |ps| == |ids|
    && forall i :: 0 <= i < |ids| ==> ids[i] in s.immutable && ps[i] == s.immutable[ids[i]]
  }

  /** Everything a client loaded was read from some state of the past. */
  ghost predicate LoadedFrom(past: seq<State>, e: Envelope, l: Loaded) {
    var required := Required(e, l.consumed);
    && (exists q :: 0 <= q < |past| && PostingsRead(past[q], e.consumes, l.consumed))
    && l.accounts.Keys == (set a | a in required.accounts)
    && (forall a :: a in l.accounts ==> exists q :: 0 <= q < |past| && Head(past[q], a) == Some(l.accounts[a]))
    && l.balances.Keys == (set key | key in required.balances)
    && (forall key :: key in l.balances ==>
          exists q :: 0 <= q < |past| && l.balances[key] == LiveSum(past[q], Holding(key)))
    && (l.book.Some? ==> exists q :: 0 <= q < |past| && e.book in past[q].books && past[q].books[e.book] == l.book.value)
  }

  datatype Lifecycle = Freeze | Unfreeze | Close

  function Mutated(m: Lifecycle, a: Account): Account
    requires a.version + 1 < TWO64
  {
    var flags := match m
      case Freeze => SetFrozen(a.flags)
      case Unfreeze => ClearFrozen(a.flags)
      case Close => ClearFrozen(SetClosed(a.flags));
    a.(version := a.version + 1, flags := flags)
  }

  function EventFor(m: Lifecycle, a: AccountId, version: u64): EventKind {
    match m
    case Freeze => EventKind.AccountFrozen(a, version)
    case Unfreeze => EventKind.AccountUnfrozen(a, version)
    case Close => EventKind.AccountClosed(a, version)
  }

  // ----- steps and runs -----

  datatype Step =
    | DoCommit(envelope: Envelope, loaded: Loaded, ts: i64)
    | DoTransition(mutation: Lifecycle, base: Account, ts: i64)
    | DoCreateAccount(registered: Account)
    | DoAppendCreated(account: AccountId, ts: i64)
    | DoReserve(ids: seq<PostingId>, rid: ReservationId)
    | DoRelease(ids: seq<PostingId>, rid: ReservationId)
    | DoCreateBook(book: Book)
    | DoCachePoint(account: AccountId, asset: AssetId, point: BalanceProjection)

  /** One store call, by a client whose reads lie anywhere in `past`. */
  ghost predicate StepTo(digest: Digest, past: seq<State>, step: Step, s': State)
    requires past != []
  {
    var s := past[|past| - 1];
    match step
    case DoCommit(e, l, ts) =>
      && LoadedFrom(past, e, l)
      && Acceptable(digest, InputOf(e, l))
      && |e.creates| <= TWO16
      && exists r :: Commits(s, RequestOf(digest, e, l, ts), s', r)
    case DoTransition(m, base, ts) =>
      && (exists q :: 0 <= q < |past| && Head(past[q], base.id) == Some(base))
      && !base.IsClosed() && base.version + 1 < TWO64
      && s' == CommitTransition(s, Mutated(m, base), LedgerEvent(ts, EventFor(m, base.id, base.version + 1))).0
    case DoCreateAccount(account) => s' == CreateAccount(s, account).0
    case DoAppendCreated(a, ts) => s' == AppendEvent(s, LedgerEvent(ts, AccountCreated(a)))
    case DoReserve(ids, rid) => s' == Reserve(s, ids, rid).0
    case DoRelease(ids, rid) => s' == Release(s, ids, rid).0
    case DoCreateBook(book) => s' == CreateBook(s, book).0
    case DoCachePoint(a, asset, p) => s' == AppendProjection(s, a, asset, p)
  }

  ghost predicate IsRun(digest: Digest, states: seq<State>, steps: seq<Step>) {
    && |states| == |steps| + 1
    && states[0] == EMPTY
    && forall i {:trigger steps[i]} :: 0 <= i < |steps| ==> StepTo(digest, states[..i + 1], steps[i], states[i + 1])
  }

  // ----- the invariant -----

  /** Active and reserved are disjoint parts of the immutable table. */
  ghost predicate TablesOk(s: State) {
    && (forall id :: id in s.immutable ==> s.immutable[id].id == id)
    && (forall id :: id in s.active ==> id in s.immutable && s.active[id] == s.immutable[id] && id !in s.reserved)
    && (forall id :: id in s.reserved ==> id in s.immutable && s.reserved[id].posting == s.immutable[id])
  }

  predicate CreatedBy(s: State, t: EnvelopeId, i: nat)
    requires t in s.transfers && i < |s.transfers[t].envelope.creates|
  {
    var id := PostingId(t, i % 0x1_0000);
    id in s.immutable && s.immutable[id] == PlannedPosting(t, i, s.transfers[t].envelope.creates[i])
  }

  /** The immutable table is exactly what the stored transfers created. */
  ghost predicate ProvenanceOk(s: State) {
    && (forall id :: id in s.immutable ==>
          id.transfer in s.transfers && id.index < |s.transfers[id.transfer].envelope.creates|)
    && (forall t :: t in s.transfers ==>
          |s.transfers[t].envelope.creates| <= TWO16 && s.transfers[t].receipt == Receipt(t))
    && (forall t, i :: t in s.transfers && 0 <= i < |s.transfers[t].envelope.creates| ==> CreatedBy(s, t, i))
  }

  function Consumes(s: State, t: EnvelopeId): seq<PostingId>
    requires t in s.transfers
  {
    s.transfers[t].envelope.consumes
  }

  /** Each posting is consumed by at most one stored transfer, and the postings that
      are no longer live are exactly the consumed ones. */
  ghost predicate SpentOk(s: State) {
    && (forall t :: t in s.transfers ==> Distinct(Consumes(s, t)))
    && (forall t, id :: t in s.transfers && id in Consumes(s, t) ==> id in s.immutable && id !in Live(s))
    && (forall t, u, id :: t in s.transfers && u in s.transfers && id in Consumes(s, t) && id in Consumes(s, u) ==> t == u)
    && (forall id :: id in s.immutable && id !in Live(s) ==> exists t :: t in s.transfers && id in Consumes(s, t))
  }

  /** `a` owns something `e` creates or consumes. */
  predicate Touches(rows: map<PostingId, Posting>, e: Envelope, a: AccountId) {
    || (exists i :: 0 <= i < |e.creates| && e.creates[i].owner == a)
    || (exists i :: 0 <= i < |e.consumes| && e.consumes[i] in rows && rows[e.consumes[i]].owner == a)
  }

  /** A transfer is indexed under exactly the accounts it touches. */
  ghost predicate IndexOk(s: State) {
    && s.participation.Keys == s.transfers.Keys
    && forall t, a :: t in s.transfers ==>
      (a in s.participation[t] <==> Touches(s.immutable, s.transfers[t].envelope, a))
  }

  /** What one stored transfer adds to a slice. */
  function Delta(s: State, t: EnvelopeId, sl: Slice): int
    requires t in s.transfers
  {
    SumNew(sl, s.transfers[t].envelope.creates) - SumIds(sl, s.immutable, s.transfers[t].envelope.consumes)
  }

  ghost function Deltas(s: State, sl: Slice): map<EnvelopeId, int> {
    map t | t in s.transfers :: Delta(s, t, sl)
  }

  /** Every stored transfer conserves every asset, and the live postings are the sum
      of the whole log. */
  ghost predicate SumsOk(s: State) {
    && (forall t, asset: AssetId :: t in s.transfers ==> Delta(s, t, OfAsset(asset)) == 0)
    && (forall sl: Slice :: LiveSum(s, sl) == Total(Deltas(s, sl)))
  }

  /** Postings belong to registered accounts; one that forbids overdraft never owned
      a negative posting. */
  ghost predicate OwnershipOk(s: State) {
    forall id :: id in s.immutable ==>
      && Head(s, s.immutable[id].owner).Some?
      && (Forbids(s, s.immutable[id].owner) ==> s.immutable[id].value >= 0)
  }

  /** Version logs: consecutive, about one account, never past a closed version, and
      never touching the overdraft flag. */
  ghost predicate LogOk(a: AccountId, log: seq<Account>) {
    && log != []
    && (forall k :: 0 <= k < |log| ==> log[k].id == a && log[k].version == log[0].version + k)
    && (forall k :: 0 <= k < |log| ==> log[k].ForbidsOverdraft() == log[0].ForbidsOverdraft())
    && (forall k :: 0 <= k < |log| - 1 ==> !log[k].IsClosed())
  }

  ghost predicate AccountsOk(s: State) {
    forall a :: a in s.accounts ==> LogOk(a, s.accounts[a])
  }

  /** The event says how `next` was made from `prev`. */
  predicate Describes(kind: EventKind, prev: Account, next: Account) {
    prev.version + 1 < TWO64 &&
    exists m: Lifecycle :: next == Mutated(m, prev) && kind == EventFor(m, next.id, next.version)
  }

  ghost predicate Announced(s: State, a: AccountId, k: nat)
    requires a in s.accounts && 1 <= k < |s.accounts[a]|
  {
    exists i :: 0 <= i < |s.events| && Describes(s.events[i].kind, s.accounts[a][k - 1], s.accounts[a][k])
  }

  predicate HasVersion(s: State, a: AccountId, v: u64) {
    a in s.accounts && exists k :: 1 <= k < |s.accounts[a]| && s.accounts[a][k].version == v
  }

  /** No two events are about the same transfer or the same account version. */
  predicate UniqueSubjects(events: seq<LedgerEvent>) {
    forall i, j :: 0 <= i < j < |events| && SubjectOf(events[i].kind) == SubjectOf(events[j].kind) ==>
      SubjectOf(events[i].kind).Recurring?
  }

  ghost predicate TransfersAnnounced(s: State) {
    forall t: EnvelopeId :: t in s.transfers <==> Mentions(s.events, OfTransfer(t))
  }

  ghost predicate VersionsMentioned(s: State) {
    forall a, v :: Mentions(s.events, OfVersion(a, v)) <==> HasVersion(s, a, v)
  }

  ghost predicate VersionsAnnounced(s: State) {
    forall a, k :: a in s.accounts && 1 <= k < |s.accounts[a]| ==> Announced(s, a, k)
  }

  /** Stored transfers and committed events correspond one to one, and so do later
      account versions and the lifecycle events that describe them. */
  ghost predicate EventsOk(s: State) {
    UniqueSubjects(s.events) && TransfersAnnounced(s) && VersionsMentioned(s) && VersionsAnnounced(s)
  }

  ghost predicate Inv(s: State) {
    && TablesOk(s) && ProvenanceOk(s) && SpentOk(s) && IndexOk(s) && SumsOk(s)
    && AccountsOk(s) && OwnershipOk(s) && EventsOk(s)
  }

  // ----- what never changes -----

  ghost predicate RowsKept(s: State, t: State) {
    && (forall id :: id in s.immutable ==> id in t.immutable && t.immutable[id] == s.immutable[id])
    && (forall x :: x in s.transfers ==> x in t.transfers && t.transfers[x] == s.transfers[x])
    && (forall x :: x in s.participation ==> x in t.participation && t.participation[x] == s.participation[x])
    && s.events <= t.events
  }

  ghost predicate LogsKept(s: State, t: State) {
    forall a :: a in s.accounts ==> a in t.accounts && s.accounts[a] <= t.accounts[a]
  }

  /** Spent is final. */
  ghost predicate SpentKept(s: State, t: State) {
    forall id :: id in s.immutable && id !in Live(s) ==> id !in Live(t)
  }

  predicate ClosedIn(s: State, a: AccountId) { Head(s, a).Some? && Head(s, a).value.IsClosed() }

  /** Closed is final: neither the history nor the live postings change again. */
  ghost predicate ClosedKept(s: State, t: State) {
    forall a :: ClosedIn(s, a) ==>
      && a in t.accounts && t.accounts[a] == s.accounts[a]
      && (forall id :: id in Live(s) && Live(s)[id].owner == a ==> id in Live(t))
      && (forall id :: id in Live(t) && Live(t)[id].owner == a ==> id in Live(s))
  }

  ghost predicate Grows(s: State, t: State) {
    RowsKept(s, t) && LogsKept(s, t) && SpentKept(s, t) && ClosedKept(s, t)
  }

  lemma GrowsRefl(s: State)
    requires AccountsOk(s)
    ensures Grows(s, s)
  {
  }

  lemma LiveRows(s: State)
    requires TablesOk(s)
    ensures Live(s).Keys == s.active.Keys + s.reserved.Keys
    ensures forall id :: id in Live(s) ==> id in s.immutable && Live(s)[id] == s.immutable[id]
  {
  }

  lemma GrowsTrans(s: State, t: State, u: State)
    requires TablesOk(s) && TablesOk(t) && TablesOk(u)
    requires Grows(s, t) && Grows(t, u)
    ensures Grows(s, u)
  {
    RowsKeptTrans(s, t, u);
    ClosedKeptTrans(s, t, u);
    hide RowsKept, SpentKept, ClosedKept;
  }

  lemma RowsKeptTrans(s: State, t: State, u: State)
    requires RowsKept(s, t) && RowsKept(t, u) && SpentKept(s, t) && SpentKept(t, u)
    ensures RowsKept(s, u) && SpentKept(s, u)
  {
    hide Live;
    forall id | id in s.immutable && id !in Live(s) ensures id !in Live(u) {
      assert id in t.immutable && id !in Live(t);
    }
  }

  lemma ClosedKeptTrans(s: State, t: State, u: State)
    requires TablesOk(s) && TablesOk(t) && TablesOk(u) && RowsKept(s, t) && RowsKept(t, u)
    requires ClosedKept(s, t) && ClosedKept(t, u)
    ensures ClosedKept(s, u)
  {
    LiveRows(s);
    LiveRows(t);
    LiveRows(u);
    hide Live, TablesOk;
    forall a | ClosedIn(s, a)
      ensures a in u.accounts && u.accounts[a] == s.accounts[a]
      ensures forall id :: id in Live(s) && Live(s)[id].owner == a ==> id in Live(u)
      ensures forall id :: id in Live(u) && Live(u)[id].owner == a ==> id in Live(s)
    {
      assert ClosedIn(t, a);
    }
  }
}

/** The SQL store's tables as values, the statements its calls are made of as set
    operations on them, and the relation to the in-memory store's tables. */
module SqlTables {
  import opened Wrappers
  import opened Domain
  import opened Amounts
  import opened Events
  import opened Store

  /** A row of `live_postings`: active while `reservation` is NULL. */
  datatype LiveRow = LiveRow(posting: Posting, reservation: Option<ReservationId>)

  type LiveTable = map<PostingId, LiveRow>

  datatype Tables = Tables(
    postings: map<PostingId, Posting>,
    live: LiveTable,
    accounts: map<(AccountId, u64), Account>,
    heads: map<AccountId, u64>,
    transfers: map<EnvelopeId, EnvelopeRecord>,
    participants: set<(EnvelopeId, AccountId)>,
    events: seq<LedgerEvent>)

  // ----- statements on the live table -----

  /** The rows an id list and a reservation state select. */
  function Matching(live: LiveTable, ids: set<PostingId>, state: Option<ReservationId>): set<PostingId> {
    set id | id in live && id in ids && live[id].reservation == state
  }

  /** UPDATE .. SET reservation = `next` WHERE id IN `ids` AND reservation IS `state`. */
  function Updated(live: LiveTable, ids: set<PostingId>, state: Option<ReservationId>, next: Option<ReservationId>): LiveTable {
    map id | id in live ::
      if id in ids && live[id].reservation == state then live[id].(reservation := next) else live[id]
  }

  /** DELETE .. WHERE id IN `ids` AND reservation IS `state`. */
  function Deleted(live: LiveTable, ids: set<PostingId>, state: Option<ReservationId>): LiveTable {
    map id | id in live && !(id in ids && live[id].reservation == state) :: live[id]
  }

  /** INSERT .. ON CONFLICT DO NOTHING for each posting in turn, as an active row. */
  function InsertedLive(live: LiveTable, ps: seq<Posting>): LiveTable {
    if ps == [] then live
    else
      var t := InsertedLive(live, ps[..|ps| - 1]);
      var p := ps[|ps| - 1];
      if p.id in t then t else t[p.id := LiveRow(p, None)]
  }

  // ----- the relation -----

  function ActiveRows(live: LiveTable): map<PostingId, Posting> {
    map id | id in live && live[id].reservation.None? :: live[id].posting
  }

  function HeldRows(live: LiveTable): map<PostingId, Held> {
    map id | id in live && live[id].reservation.Some? :: Held(live[id].posting, live[id].reservation.value)
  }

  function LivePostings(live: LiveTable): map<PostingId, Posting> {
    map id | id in live :: live[id].posting
  }

  ghost predicate PostingsRelated(t: Tables, s: State) {
    s.immutable == t.postings && s.active == ActiveRows(t.live) && s.reserved == HeldRows(t.live)
  }

  type Versions = map<AccountId, seq<Account>>

  ghost predicate HeadsRelated(heads: map<AccountId, u64>, logs: Versions) {
    && (forall a :: a in heads <==> a in logs && logs[a] != [])
    && (forall a :: a in heads ==> heads[a] == logs[a][|logs[a]| - 1].version)
  }

  ghost predicate VersionsStored(rows: map<(AccountId, u64), Account>, logs: Versions) {
    forall a, i :: a in logs && 0 <= i < |logs[a]| ==>
      (a, logs[a][i].version) in rows && rows[(a, logs[a][i].version)] == logs[a][i]
  }

  ghost predicate HasVersionRow(logs: Versions, a: AccountId, v: u64) {
    a in logs && exists i :: 0 <= i < |logs[a]| && logs[a][i].version == v
  }

  ghost predicate VersionsLogged(rows: map<(AccountId, u64), Account>, logs: Versions) {
    forall a, v :: (a, v) in rows ==> HasVersionRow(logs, a, v)
  }

  /** One row per version, and the head names the last version. */
  ghost predicate AccountsRelated(t: Tables, s: State) {
    HeadsRelated(t.heads, s.accounts) && VersionsStored(t.accounts, s.accounts) && VersionsLogged(t.accounts, s.accounts)
  }

  ghost predicate IndexRelated(rows: set<(EnvelopeId, AccountId)>, index: map<EnvelopeId, seq<AccountId>>) {
    forall id, a :: (id, a) in rows <==> id in index && a in index[id]
  }

  ghost predicate LogRelated(t: Tables, s: State) {
    t.transfers == s.transfers && t.events == s.events && IndexRelated(t.participants, s.participation)
  }

  ghost predicate Related(t: Tables, s: State) {
    PostingsRelated(t, s) && AccountsRelated(t, s) && LogRelated(t, s)
  }

  /** Live rows are copies of immutable ones. */
  ghost predicate Copies(t: Tables) {
    forall id :: id in t.live ==> id in t.postings && t.live[id].posting == t.postings[id]
  }

  // ----- the lifecycle primitives refine the in-memory ones -----

  lemma IdSetPush(ids: seq<PostingId>)
    requires ids != []
    ensures IdSet(ids) == IdSet(ids[..|ids| - 1]) + {ids[|ids| - 1]}
  {
    assert ids == ids[..|ids| - 1] + [ids[|ids| - 1]];
  }

  predicate Matches(live: LiveTable, id: PostingId, state: Option<ReservationId>) {
    id in live && live[id].reservation == state
  }

  /** A statement over one more id touches one more row exactly if that row still matches
      after the statement over the others. */
  lemma UpdatePush(live: LiveTable, ids: set<PostingId>, id: PostingId, state: Option<ReservationId>, next: Option<ReservationId>)
    requires state != next
    ensures var u := Updated(live, ids, state, next);
      && Updated(live, ids + {id}, state, next) == (if Matches(u, id, state) then u[id := u[id].(reservation := next)] else u)
      && |Matching(live, ids + {id}, state)| == |Matching(live, ids, state)| + (if Matches(u, id, state) then 1 else 0)
  {
    var u, before := Updated(live, ids, state, next), Matching(live, ids, state);
    if Matches(u, id, state) {
      assert Updated(live, ids + {id}, state, next) == u[id := u[id].(reservation := next)];
      assert Matching(live, ids + {id}, state) == before + {id};
    } else {
      assert Updated(live, ids + {id}, state, next) == u;
      assert Matching(live, ids + {id}, state) == before;
    }
  }

  lemma DeletePush(live: LiveTable, ids: set<PostingId>, id: PostingId, state: Option<ReservationId>)
    ensures var u := Deleted(live, ids, state);
      && Deleted(live, ids + {id}, state) == (if Matches(u, id, state) then u - {id} else u)
      && |Matching(live, ids + {id}, state)| == |Matching(live, ids, state)| + (if Matches(u, id, state) then 1 else 0)
  {
    var u, before := Deleted(live, ids, state), Matching(live, ids, state);
    if Matches(u, id, state) {
      assert Deleted(live, ids + {id}, state) == u - {id};
      assert Matching(live, ids + {id}, state) == before + {id};
    } else {
      assert Deleted(live, ids + {id}, state) == u;
      assert Matching(live, ids + {id}, state) == before;
    }
  }

  lemma NoIds(live: LiveTable, state: Option<ReservationId>, next: Option<ReservationId>)
    ensures Updated(live, {}, state, next) == live && Deleted(live, {}, state) == live
    ensures Matching(live, {}, state) == {}
  {
  }

  /** The two halves of the live table after one row changes hands or goes. */
  lemma RowsMoved(live: LiveTable, id: PostingId, next: Option<ReservationId>)
    requires id in live
    ensures var p := live[id].posting; var moved := live[id := live[id].(reservation := next)];
      && ActiveRows(moved) == (if next.None? then ActiveRows(live)[id := p] else ActiveRows(live) - {id})
      && HeldRows(moved) == (if next.None? then HeldRows(live) - {id} else HeldRows(live)[id := Held(p, next.value)])
  {
  }

  lemma RowsGone(live: LiveTable, id: PostingId)
    ensures ActiveRows(live - {id}) == ActiveRows(live) - {id}
    ensures HeldRows(live - {id}) == HeldRows(live) - {id}
  {
  }

  lemma RowsMatch(live: LiveTable, id: PostingId, rid: ReservationId)
    ensures Matches(live, id, None) <==> id in ActiveRows(live)
    ensures Matches(live, id, Some(rid)) <==> id in HeldRows(live) && HeldRows(live)[id].reservation == rid
    ensures id in ActiveRows(live) ==> id !in HeldRows(live) && ActiveRows(live)[id] == live[id].posting
    ensures id in HeldRows(live) ==> id !in ActiveRows(live) && HeldRows(live)[id].posting == live[id].posting
  {
  }

  lemma RowsAbsent(live: LiveTable, id: PostingId)
    ensures id !in HeldRows(live) ==> HeldRows(live) - {id} == HeldRows(live)
    ensures id !in ActiveRows(live) ==> ActiveRows(live) - {id} == ActiveRows(live)
  {
  }

  lemma {:induction false} ReserveRefines(t: Tables, s: State, ids: seq<PostingId>, rid: ReservationId)
    requires PostingsRelated(t, s)
    ensures Reserve(s, ids, rid).1 == |Matching(t.live, IdSet(ids), None)|
    ensures Reserve(s, ids, rid).0 == s.(
      active := ActiveRows(Updated(t.live, IdSet(ids), None, Some(rid))),
      reserved := HeldRows(Updated(t.live, IdSet(ids), None, Some(rid))))
  {
    hide Updated, Matching, ActiveRows, HeldRows, Matches;
    if ids == [] {
      assert IdSet(ids) == {};
      NoIds(t.live, None, Some(rid));
    } else {
      var front, id := ids[..|ids| - 1], ids[|ids| - 1];
      ReserveRefines(t, s, front, rid);
      IdSetPush(ids);
      hide IdSet;
      UpdatePush(t.live, IdSet(front), id, None, Some(rid));
      var u := Updated(t.live, IdSet(front), None, Some(rid));
      RowsMatch(u, id, rid);
      if id in ActiveRows(u) {
        assert Matches(u, id, None) ==> id in u by {
          MatchIn(u, id, None);
        }
        RowsMoved(u, id, Some(rid));
      }
    }
  }

  lemma MatchIn(live: LiveTable, id: PostingId, state: Option<ReservationId>)
    requires Matches(live, id, state)
    ensures id in live
  {
  }

  lemma {:induction false} ReleaseRefines(t: Tables, s: State, ids: seq<PostingId>, rid: ReservationId)
    requires PostingsRelated(t, s)
    ensures Release(s, ids, rid).1 == |Matching(t.live, IdSet(ids), Some(rid))|
    ensures Release(s, ids, rid).0 == s.(
      active := ActiveRows(Updated(t.live, IdSet(ids), Some(rid), None)),
      reserved := HeldRows(Updated(t.live, IdSet(ids), Some(rid), None)))
  {
    hide Updated, Matching, ActiveRows, HeldRows, Matches;
    if ids == [] {
      assert IdSet(ids) == {};
      NoIds(t.live, Some(rid), None);
    } else {
      var front, id := ids[..|ids| - 1], ids[|ids| - 1];
      ReleaseRefines(t, s, front, rid);
      IdSetPush(ids);
      hide IdSet;
      UpdatePush(t.live, IdSet(front), id, Some(rid), None);
      var u := Updated(t.live, IdSet(front), Some(rid), None);
      RowsMatch(u, id, rid);
      if Matches(u, id, Some(rid)) {
        MatchIn(u, id, Some(rid));
        RowsMoved(u, id, None);
      }
    }
  }

  lemma {:induction false} DeactivateRefines(t: Tables, s: State, ids: seq<PostingId>, rid: Option<ReservationId>)
    requires PostingsRelated(t, s)
    ensures Deactivate(s, ids, rid).1 == |Matching(t.live, IdSet(ids), rid)|
    ensures Deactivate(s, ids, rid).0 == s.(
      active := ActiveRows(Deleted(t.live, IdSet(ids), rid)),
      reserved := HeldRows(Deleted(t.live, IdSet(ids), rid)))
  {
    hide Deleted, Matching, ActiveRows, HeldRows, Matches;
    if ids == [] {
      assert IdSet(ids) == {};
      NoIds(t.live, rid, rid);
    } else {
      var front, id := ids[..|ids| - 1], ids[|ids| - 1];
      DeactivateRefines(t, s, front, rid);
      IdSetPush(ids);
      hide IdSet;
      DeletePush(t.live, IdSet(front), id, rid);
      var u := Deleted(t.live, IdSet(front), rid);
      RowsMatch(u, id, if rid.Some? then rid.value else 0);
      RowsGone(u, id);
      RowsAbsent(u, id);
    }
  }

  function SqlStateOf(t: Tables, id: PostingId): PostingState {
    if id in t.live then
      match t.live[id].reservation
      case None => Active
      case Some(rid) => Reserved(rid)
    else if id in t.postings then Spent
    else Missing
  }

  lemma StatesAgree(t: Tables, s: State, id: PostingId)
    requires PostingsRelated(t, s)
    ensures SqlStateOf(t, id) == StateOf(s, id)
  {
  }

  /** `insert_postings` of the SQL store: activate only what was newly inserted. */
  function SqlInsert(t: Tables, ps: seq<Posting>): (Tables, nat) {
    if ps == [] then (t, 0)
    else
      var (u, n) := SqlInsert(t, ps[..|ps| - 1]);
      var p := ps[|ps| - 1];
      if p.id in u.postings then (u, n)
      else (u.(postings := u.postings[p.id := p], live := if p.id in u.live then u.live else u.live[p.id := LiveRow(p, None)]), n + 1)
  }

  lemma NewRow(live: LiveTable, p: Posting)
    requires p.id !in live
    ensures ActiveRows(live[p.id := LiveRow(p, None)]) == ActiveRows(live)[p.id := p]
    ensures HeldRows(live[p.id := LiveRow(p, None)]) == HeldRows(live)
    ensures LivePostings(live[p.id := LiveRow(p, None)]) == LivePostings(live)[p.id := p]
  {
  }

  lemma {:induction false} InsertRefines(t: Tables, s: State, ps: seq<Posting>)
    requires PostingsRelated(t, s) && Copies(t)
    ensures Copies(SqlInsert(t, ps).0)
    ensures SqlInsert(t, ps).1 == InsertPostings(s, ps).1
    ensures PostingsRelated(SqlInsert(t, ps).0, InsertPostings(s, ps).0)
    ensures InsertPostings(s, ps).0 == s.(immutable := InsertPostings(s, ps).0.immutable, active := InsertPostings(s, ps).0.active)
    ensures SqlInsert(t, ps).0 == t.(postings := SqlInsert(t, ps).0.postings, live := SqlInsert(t, ps).0.live)
  {
    hide ActiveRows, HeldRows;
    if ps != [] {
      var front, p := ps[..|ps| - 1], ps[|ps| - 1];
      InsertRefines(t, s, front);
      var u := SqlInsert(t, front).0;
      if p.id !in u.postings {
        NewRow(u.live, p);
      }
    }
  }

  /** Two chunks of one statement do what a single one over both would. */
  lemma UpdateChunks(live: LiveTable, a: set<PostingId>, b: set<PostingId>, state: Option<ReservationId>, next: Option<ReservationId>)
    requires state != next
    ensures Updated(Updated(live, a, state, next), b, state, next) == Updated(live, a + b, state, next)
    ensures |Matching(live, a, state)| + |Matching(Updated(live, a, state, next), b, state)| == |Matching(live, a + b, state)|
  {
    var first, second := Matching(live, a, state), Matching(Updated(live, a, state, next), b, state);
    assert Matching(live, a + b, state) == first + second;
    assert first !! second;
  }

  lemma DeleteChunks(live: LiveTable, a: set<PostingId>, b: set<PostingId>, state: Option<ReservationId>)
    ensures Deleted(Deleted(live, a, state), b, state) == Deleted(live, a + b, state)
    ensures |Matching(live, a, state)| + |Matching(Deleted(live, a, state), b, state)| == |Matching(live, a + b, state)|
  {
    var first, second := Matching(live, a, state), Matching(Deleted(live, a, state), b, state);
    assert Matching(live, a + b, state) == first + second;
    assert first !! second;
  }

  lemma IdSetAppend(a: seq<PostingId>, b: seq<PostingId>)
    ensures IdSet(a + b) == IdSet(a) + IdSet(b)
  {
  }

  // ----- the commit transaction -----

  /** The head of an account: its row at the version the head table names. */
  function SqlHead(t: Tables, a: AccountId): Option<Account> {
    if a in t.heads && (a, t.heads[a]) in t.accounts then Some(t.accounts[(a, t.heads[a])]) else None
  }

  /** The tables as the guards read them: heads only, no index, no books. */
  function Guarded(t: Tables): State {
    State(
      t.postings, ActiveRows(t.live), HeldRows(t.live),
      map a | a in t.heads && (a, t.heads[a]) in t.accounts :: [t.accounts[(a, t.heads[a])]],
      t.transfers, map[], t.events, map[], map[])
  }

  lemma GuardedHead(t: Tables, a: AccountId)
    ensures Head(Guarded(t), a) == SqlHead(t, a)
  {
  }

  function SqlApplied(t: Tables, req: CommitRequest): Tables {
    t.(postings := PutAbsent(t.postings, req.create),
       live := InsertedLive(Deleted(t.live, IdSet(req.consume), None), req.create),
       transfers := t.transfers[req.transferId := req.record],
       participants := t.participants + (set a | a in req.involved :: (req.transferId, a)),
       events := Append(t.events, req.event))
  }

  /** The holdings whose floor the transaction checks: of consumed and created rows,
      whether or not the request lists the owner as involved. */
  function Touched(t: Tables, req: CommitRequest): set<(AccountId, AssetId)> {
    (set id | id in req.consume && id in ActiveRows(t.live) :: (t.live[id].posting.owner, t.live[id].posting.asset))
    + (set p | p in req.create :: (p.owner, p.asset))
  }

  predicate SqlForbids(t: Tables, a: AccountId) { SqlHead(t, a).Some? && SqlHead(t, a).value.ForbidsOverdraft() }

  /** The balance as read back after the writes: every live row, reserved ones too. */
  ghost function SqlProjected(live: LiveTable, a: AccountId, asset: AssetId): int {
    SumRows(OfHolder(a, asset), LivePostings(live))
  }

  ghost predicate SqlFloorHolds(t: Tables, req: CommitRequest) {
    forall a, asset :: (a, asset) in Touched(t, req) && SqlForbids(t, a) ==>
      0 <= SqlProjected(SqlApplied(t, req).live, a, asset)
  }

  ghost predicate SqlFloorBreached(t: Tables, req: CommitRequest, a: AccountId, asset: AssetId, projected: int) {
    && (a, asset) in Touched(t, req) && SqlForbids(t, a)
    && projected == SqlProjected(SqlApplied(t, req).live, a, asset) < 0
  }

  /** The live rows of one holding add up in any order. */
  ghost predicate Addable(live: LiveTable, a: AccountId, asset: AssetId) { Summable(OfHolder(a, asset), LivePostings(live)) }

  ghost predicate SqlFloorSafe(t: Tables, req: CommitRequest) {
    forall a, asset :: (a, asset) in Touched(t, req) && SqlForbids(t, a) ==> Addable(SqlApplied(t, req).live, a, asset)
  }

  /** Everything the SQL `commit_envelope` may do; a return without COMMIT rolls back. */
  ghost predicate SqlCommits(t: Tables, req: CommitRequest, t': Tables, r: CommitResult) {
    match Guard(Guarded(t), req)
    case Some(g) => t' == t && r == g
    case None =>
      || (r == Ok(Committed(req.record.receipt)) && SqlFloorHolds(t, req) && t' == SqlApplied(t, req))
      || (t' == t && r == Err(Internal) && !SqlFloorSafe(t, req))
      || (t' == t && r.Ok? && r.value.Rejected? && r.value.reason.Overdraft?
          && var o := r.value.reason; SqlFloorBreached(t, req, o.account, o.asset, o.projected))
  }

  // ----- account-version transitions -----

  function SqlTransition(t: Tables, next: Account, event: LedgerEvent): (Tables, Result<TransitionOutcome, StoreError>) {
    match SqlHead(t, next.id)
    case None => (t, Err(Internal))
    case Some(current) =>
      if current.IsClosed() then (t, Ok(TransitionRejected(AlreadyClosed(next.id))))
      else if current.version >= next.version then (t.(events := Append(t.events, event)), Ok(AlreadyApplied))
      else if next.version != current.version + 1
      then (t, Ok(TransitionRejected(VersionConflict(next.id, next.version))))
      else
        var key := (next.id, next.version);
        (t.(accounts := if key in t.accounts then t.accounts else t.accounts[key := next],
            heads := t.heads[next.id := next.version],
            events := Append(t.events, event)),
         Ok(TransitionApplied))
  }

  /** `create_account`: the head table decides, then version row and head. */
  function SqlCreate(t: Tables, account: Account): (Tables, nat) {
    if account.id in t.heads then (t, 0)
    else
      var key := (account.id, account.version);
      (t.(accounts := if key in t.accounts then t.accounts else t.accounts[key := account],
          heads := t.heads[account.id := account.version]), 1)
  }
}

/** The SQL store: chunked statements inside one transaction per call
    (crates/kuatia-storage-sql/src/posting.rs, crates/kuatia-storage-sql/src/commit.rs). */
module SqlStorage {
  import opened Wrappers
  import opened Domain
  import opened Amounts
  import opened Events
  import opened Store
  import opened MemStore
  import opened SqlTables

  /** How many ids one statement may name; every chunk size gives the same result. */
  type ChunkSize = n: nat | n >= 1 witness 1

  class SqlStore {
    const maxIdsPerQuery: ChunkSize
    var postings: map<PostingId, Posting>
    var live: LiveTable
    var accounts: map<(AccountId, u64), Account>
    var heads: map<AccountId, u64>
    var transfers: map<EnvelopeId, EnvelopeRecord>
    var participants: set<(EnvelopeId, AccountId)>
    var events: seq<LedgerEvent>

    function View(): Tables
      reads this
    {
      Tables(postings, live, accounts, heads, transfers, participants, events)
    }

    constructor (maxIdsPerQuery: ChunkSize)
      ensures Related(View(), EMPTY) && Copies(View())
    {
      this.maxIdsPerQuery := maxIdsPerQuery;
      postings, live, accounts, heads := map[], map[], map[], map[];
      transfers, participants, events := map[], {}, [];
    }

    function ChunkEnd(i: nat, n: nat): (j: nat)
      requires i < n
      ensures i < j <= n
    {
      if i + maxIdsPerQuery <= n then i + maxIdsPerQuery else n
    }

    static lemma NextChunk(ids: seq<PostingId>, i: nat, j: nat)
      requires i <= j <= |ids|
      ensures IdSet(ids[..j]) == IdSet(ids[..i]) + IdSet(ids[i..j])
    {
      assert ids[..j] == ids[..i] + ids[i..j];
      IdSetAppend(ids[..i], ids[i..j]);
    }

    method UpdateReservation(ids: seq<PostingId>, state: Option<ReservationId>, next: Option<ReservationId>) returns (count: nat)
      requires state != next
      modifies this`live
      ensures live == Updated(old(live), IdSet(ids), state, next)
      ensures count == |Matching(old(live), IdSet(ids), state)|
    {
      hide Updated, Matching, IdSet;
      count := 0;
      var i := 0;
      NoIdsYet(ids, state, next);
      while i < |ids|
        invariant 0 <= i <= |ids|
        invariant live == Updated(old(live), IdSet(ids[..i]), state, next)
        invariant count == |Matching(old(live), IdSet(ids[..i]), state)|
      {
        var j := ChunkEnd(i, |ids|);
        var chunk := IdSet(ids[i..j]);
        NextChunk(ids, i, j);
        UpdateChunks(old(live), IdSet(ids[..i]), chunk, state, next);
        count := count + |Matching(live, chunk, state)|;
        live := Updated(live, chunk, state, next);
        i := j;
      }
      assert ids[..|ids|] == ids;
    }

    lemma NoIdsYet(ids: seq<PostingId>, state: Option<ReservationId>, next: Option<ReservationId>)
      ensures Updated(live, IdSet(ids[..0]), state, next) == live == Deleted(live, IdSet(ids[..0]), state)
      ensures |Matching(live, IdSet(ids[..0]), state)| == 0
    {
      assert IdSet(ids[..0]) == {};
      NoIds(live, state, next);
    }

    method DeleteLive(ids: seq<PostingId>, state: Option<ReservationId>) returns (count: nat)
      modifies this`live
      ensures live == Deleted(old(live), IdSet(ids), state)
      ensures count == |Matching(old(live), IdSet(ids), state)|
    {
      hide Deleted, Matching, IdSet;
      count := 0;
      var i := 0;
      NoIdsYet(ids, state, state);
      while i < |ids|
        invariant 0 <= i <= |ids|
        invariant live == Deleted(old(live), IdSet(ids[..i]), state)
        invariant count == |Matching(old(live), IdSet(ids[..i]), state)|
      {
        var j := ChunkEnd(i, |ids|);
        var chunk := IdSet(ids[i..j]);
        NextChunk(ids, i, j);
        DeleteChunks(old(live), IdSet(ids[..i]), chunk, state);
        count := count + |Matching(live, chunk, state)|;
        live := Deleted(live, chunk, state);
        i := j;
      }
      assert ids[..|ids|] == ids;
    }

    /** Claims what is still active; for any related in-memory state, the same count and a
        related state. */
    method ReservePostings(ids: seq<PostingId>, rid: ReservationId) returns (count: nat)
      modifies this`live
      ensures live == Updated(old(live), IdSet(ids), None, Some(rid)) && count == |Matching(old(live), IdSet(ids), None)|
      ensures forall s {:trigger PostingsRelated(old(View()), s)} :: PostingsRelated(old(View()), s) ==>
        count == Reserve(s, ids, rid).1 && PostingsRelated(View(), Reserve(s, ids, rid).0)
    {
      ghost var before := View();
      count := UpdateReservation(ids, None, Some(rid));
      forall s | PostingsRelated(before, s)
        ensures count == Reserve(s, ids, rid).1 && PostingsRelated(View(), Reserve(s, ids, rid).0)
      {
        ReserveRefines(before, s, ids, rid);
      }
    }

    method ReleasePostings(ids: seq<PostingId>, rid: ReservationId) returns (count: nat)
      modifies this`live
      ensures live == Updated(old(live), IdSet(ids), Some(rid), None) && count == |Matching(old(live), IdSet(ids), Some(rid))|
      ensures forall s {:trigger PostingsRelated(old(View()), s)} :: PostingsRelated(old(View()), s) ==>
        count == Release(s, ids, rid).1 && PostingsRelated(View(), Release(s, ids, rid).0)
    {
      ghost var before := View();
      count := UpdateReservation(ids, Some(rid), None);
      forall s | PostingsRelated(before, s)
        ensures count == Release(s, ids, rid).1 && PostingsRelated(View(), Release(s, ids, rid).0)
      {
        ReleaseRefines(before, s, ids, rid);
      }
    }

    method DeactivatePostings(ids: seq<PostingId>, rid: Option<ReservationId>) returns (count: nat)
      modifies this`live
      ensures forall s {:trigger PostingsRelated(old(View()), s)} :: PostingsRelated(old(View()), s) ==>
        count == Deactivate(s, ids, rid).1 && PostingsRelated(View(), Deactivate(s, ids, rid).0)
    {
      ghost var before := View();
      count := DeleteLive(ids, rid);
      forall s | PostingsRelated(before, s)
        ensures count == Deactivate(s, ids, rid).1 && PostingsRelated(View(), Deactivate(s, ids, rid).0)
      {
        DeactivateRefines(before, s, ids, rid);
      }
    }

    method InsertPostings(ps: seq<Posting>) returns (count: nat)
      requires Copies(View())
      modifies this`postings, this`live
      ensures Copies(View())
      ensures forall s {:trigger PostingsRelated(old(View()), s)} :: PostingsRelated(old(View()), s) ==>
        count == Store.InsertPostings(s, ps).1 && PostingsRelated(View(), Store.InsertPostings(s, ps).0)
    {
      ghost var before := View();
      count := 0;
      for i := 0 to |ps|
        invariant (View(), count) == SqlInsert(before, ps[..i])
      {
        assert ps[..i + 1][..i] == ps[..i];
        var p := ps[i];
        if p.id !in postings {
          postings := postings[p.id := p];
          if p.id !in live {
            live := live[p.id := LiveRow(p, None)];
          }
          count := count + 1;
        }
      }
      assert ps[..|ps|] == ps;
      InsertKeepsCopies(before, ps);
      forall s | PostingsRelated(before, s)
        ensures count == Store.InsertPostings(s, ps).1 && PostingsRelated(View(), Store.InsertPostings(s, ps).0)
      {
        InsertRefines(before, s, ps);
      }
    }

    static lemma InsertKeepsCopies(t: Tables, ps: seq<Posting>)
      requires Copies(t)
      ensures Copies(SqlInsert(t, ps).0)
    {
      InsertRefines(t, Guarded(t), ps);
    }

    /** Two queries per chunk, then each id's state in request order. */
    method GetPostingStates(ids: seq<PostingId>) returns (out: seq<PostingState>)
      ensures |out| == |ids| && forall i :: 0 <= i < |ids| ==> out[i] == SqlStateOf(View(), ids[i])
    {
      var found: map<PostingId, Option<ReservationId>> := map[];
      var present: set<PostingId> := {};
      var i := 0;
      while i < |ids|
        invariant 0 <= i <= |ids|
        invariant found == map id | id in live && id in IdSet(ids[..i]) :: live[id].reservation
        invariant present == set id | id in postings && id in IdSet(ids[..i])
      {
        var j := ChunkEnd(i, |ids|);
        NextChunk(ids, i, j);
        found := found + map id | id in live && id in IdSet(ids[i..j]) :: live[id].reservation;
        present := present + set id | id in postings && id in IdSet(ids[i..j]);
        i := j;
      }
      assert ids[..|ids|] == ids;
      out := seq(|ids|, k requires 0 <= k < |ids| =>
        if ids[k] in found then
          (match found[ids[k]] case None => Active case Some(rid) => Reserved(rid))
        else if ids[k] in present then Spent
        else Missing);
    }

    // ----- commit_envelope -----

    method LockedAccount(a: AccountId) returns (r: Option<Account>)
      ensures r == SqlHead(View(), a)
    {
      if a !in heads || (a, heads[a]) !in accounts {
        return None;
      }
      return Some(accounts[(a, heads[a])]);
    }

    method CheckInvolved(involved: seq<AccountId>) returns (r: Option<CommitResult>)
      ensures r == LifecycleGuard(Guarded(View()), involved)
    {
      for i := 0 to |involved|
        invariant LifecycleGuard(Guarded(View()), involved) == LifecycleGuard(Guarded(View()), involved[i..])
      {
        GuardedHead(View(), involved[i]);
        assert involved[i..][1..] == involved[i + 1..];
        var account := LockedAccount(involved[i]);
        if account.None? { return Some(Err(Internal)); }
        if account.value.IsFrozen() { return Some(Ok(Rejected(FrozenAccount(involved[i])))); }
        if account.value.IsClosed() { return Some(Ok(Rejected(ClosedAccount(involved[i])))); }
      }
      return None;
    }

    /** The consumed rows that are still active, and the holdings they belong to. */
    method SelectActive(ids: seq<PostingId>) returns (present: set<PostingId>, touched: set<(AccountId, AssetId)>)
      ensures present == Matching(live, IdSet(ids), None)
      ensures touched == set id | id in present :: (live[id].posting.owner, live[id].posting.asset)
    {
      present, touched := {}, {};
      var i := 0;
      while i < |ids|
        invariant 0 <= i <= |ids|
        invariant present == Matching(live, IdSet(ids[..i]), None)
        invariant touched == set id | id in present :: (live[id].posting.owner, live[id].posting.asset)
      {
        var j := ChunkEnd(i, |ids|);
        NextChunk(ids, i, j);
        var rows := Matching(live, IdSet(ids[i..j]), None);
        present := present + rows;
        touched := touched + set id | id in rows :: (live[id].posting.owner, live[id].posting.asset);
        i := j;
      }
      assert ids[..|ids|] == ids;
    }

    /** The first consumed id that is not among the active rows found. */
    method FirstMissing(ids: seq<PostingId>, present: set<PostingId>) returns (r: Option<CommitResult>)
      requires present == Matching(live, IdSet(ids), None)
      ensures r == DoubleSpendGuard(Guarded(View()), ids)
    {
      for i := 0 to |ids|
        invariant DoubleSpendGuard(Guarded(View()), ids) == DoubleSpendGuard(Guarded(View()), ids[i..])
      {
        assert ids[i] in present <==> ids[i] in ActiveRows(live);
        assert ids[i..][1..] == ids[i + 1..];
        if ids[i] !in present { return Some(Ok(Rejected(DoubleSpend(ids[i])))); }
      }
      return None;
    }

    method InsertCreated(ps: seq<Posting>)
      modifies this`postings, this`live
      ensures postings == PutAbsent(old(postings), ps)
      ensures live == InsertedLive(old(live), ps)
    {
      for i := 0 to |ps|
        invariant postings == PutAbsent(old(postings), ps[..i])
        invariant live == InsertedLive(old(live), ps[..i])
      {
        assert ps[..i + 1][..i] == ps[..i];
        if ps[i].id !in postings {
          postings := postings[ps[i].id := ps[i]];
        }
        if ps[i].id !in live {
          live := live[ps[i].id := LiveRow(ps[i], None)];
        }
      }
      assert ps[..|ps|] == ps;
    }

    /** Checked addition of one holding's live values, in whatever order they come. */
    method LiveBalance(a: AccountId, asset: AssetId) returns (r: Option<Cent>)
      ensures r.Some? ==> r.value == SqlProjected(live, a, asset)
      ensures r.None? ==> !Addable(live, a, asset)
    {
      var rows := LivePostings(live);
      r := InMemoryStore.SurvivingSum(rows, {}, a, asset);
      assert rows - {} == rows;
    }

    /** What the floor check may answer for the tables as it finds them. */
    ghost predicate FloorVerdict(touched: set<(AccountId, AssetId)>, r: Option<CommitResult>)
      reads this
    {
      match r
      case None => forall a, asset :: (a, asset) in touched && SqlForbids(View(), a) ==> 0 <= SqlProjected(live, a, asset)
      case Some(Err(e)) =>
        e == Internal && exists a, asset :: (a, asset) in touched && SqlForbids(View(), a) && !Addable(live, a, asset)
      case Some(Ok(outcome)) =>
        && outcome.Rejected? && outcome.reason.Overdraft?
        && var o := outcome.reason;
           (o.account, o.asset) in touched && SqlForbids(View(), o.account) && o.projected == SqlProjected(live, o.account, o.asset) < 0
    }

    /** The floor of every touched holding whose owner forbids overdraft, read back from
        the tables as the transaction has left them. */
    method CheckFloors(touched: set<(AccountId, AssetId)>) returns (r: Option<CommitResult>)
      ensures FloorVerdict(touched, r)
    {
      var todo := touched;
      while todo != {}
        invariant todo <= touched
        invariant forall a, asset :: (a, asset) in touched && (a, asset) !in todo && SqlForbids(View(), a) ==> 0 <= SqlProjected(live, a, asset)
        decreases |todo|
      {
        var key :| key in todo;
        todo := todo - {key};
        var (a, asset) := key;
        var account := LockedAccount(a);
        if account.Some? && account.value.ForbidsOverdraft() {
          var projected := LiveBalance(a, asset);
          if projected.None? {
            assert (a, asset) in touched && SqlForbids(View(), a) && !Addable(live, a, asset);
            return Some(Err(Internal));
          }
          if projected.value < 0 { return Some(Ok(Rejected(Overdraft(a, asset, projected.value)))); }
        }
      }
      return None;
    }

    /** The posting writes of a commit, then the floor over what they leave. */
    method WritePostings(req: CommitRequest, consumed: set<(AccountId, AssetId)>) returns (f: Option<CommitResult>)
      requires consumed == set id | id in Matching(live, IdSet(req.consume), None) :: (live[id].posting.owner, live[id].posting.asset)
      modifies this`postings, this`live
      ensures View() == old(View()).(postings := SqlApplied(old(View()), req).postings, live := SqlApplied(old(View()), req).live)
      ensures FloorVerdict(Touched(old(View()), req), f)
    {
      hide FloorVerdict;
      TouchedRows(View(), req, Matching(live, IdSet(req.consume), None));
      var _ := DeleteLive(req.consume, None);
      InsertCreated(req.create);
      var touched := consumed + set p | p in req.create :: (p.owner, p.asset);
      f := CheckFloors(touched);
    }

    lemma VerdictBeforeLog(t: Tables, req: CommitRequest, f: Option<CommitResult>)
      requires FloorVerdict(Touched(t, req), f)
      requires View() == t.(postings := SqlApplied(t, req).postings, live := SqlApplied(t, req).live)
      ensures f.None? ==> SqlFloorHolds(t, req)
      ensures f.Some? && f.value.Err? ==> f.value.error == Internal && !SqlFloorSafe(t, req)
      ensures f.Some? && f.value.Ok? ==> f.value.value.Rejected? && f.value.value.reason.Overdraft?
      ensures f.Some? && f.value.Ok? ==>
        var o := f.value.value.reason; SqlFloorBreached(t, req, o.account, o.asset, o.projected)
    {
      hide SqlApplied, Touched, SqlProjected, Addable;
      assert forall a :: SqlForbids(View(), a) == SqlForbids(t, a);
    }

    method CommitEnvelope(req: CommitRequest) returns (r: CommitResult)
      modifies this
      ensures SqlCommits(old(View()), req, View(), r)
    {
      ghost var before := View();
      hide FloorVerdict, LifecycleGuard, DoubleSpendGuard, Guarded, SqlFloorHolds, SqlFloorSafe, SqlFloorBreached, PutAbsent, InsertedLive, Deleted,
        Append, Touched, Matching;
      assert Guarded(before).transfers == transfers by {
        GuardedTransfers(before);
      }
      if req.transferId in transfers {
        return Ok(AlreadyCommitted(transfers[req.transferId].receipt));
      }
      var g := CheckInvolved(req.involved);
      if g.Some? { return g.value; }
      var present, consumed := SelectActive(req.consume);
      var m := FirstMissing(req.consume, present);
      if m.Some? { return m.value; }
      var begunPostings, begunLive := postings, live;
      var f := WritePostings(req, consumed);
      VerdictBeforeLog(before, req, f);
      if f.Some? {
        postings, live := begunPostings, begunLive;
        return f.value;
      }
      transfers := transfers[req.transferId := req.record];
      participants := participants + set a | a in req.involved :: (req.transferId, a);
      AppendEvent(req.event);
      return Ok(Committed(req.record.receipt));
    }

    static lemma GuardedTransfers(t: Tables)
      ensures Guarded(t).transfers == t.transfers
    {
    }

    static lemma TouchedRows(t: Tables, req: CommitRequest, present: set<PostingId>)
      requires present == Matching(t.live, IdSet(req.consume), None)
      ensures Touched(t, req) ==
        (set id | id in present :: (t.live[id].posting.owner, t.live[id].posting.asset)) + (set p | p in req.create :: (p.owner, p.asset))
    {
    }

    /** INSERT .. ON CONFLICT (dedup_key) DO NOTHING. */
    method AppendEvent(event: LedgerEvent)
      modifies this`events
      ensures events == Append(old(events), event)
    {
      var key := DedupKey(event.kind);
      if key.None? || forall i :: 0 <= i < |events| ==> DedupKey(events[i].kind) != key {
        events := events + [event];
      }
    }

    method CommitTransition(next: Account, event: LedgerEvent) returns (r: Result<TransitionOutcome, StoreError>)
      modifies this`accounts, this`heads, this`events
      ensures (View(), r) == SqlTransition(old(View()), next, event)
    {
      var found := LockedAccount(next.id);
      if found.None? { return Err(Internal); }
      var current := found.value;
      if current.IsClosed() { return Ok(TransitionRejected(AlreadyClosed(next.id))); }
      if current.version >= next.version {
        AppendEvent(event);
        return Ok(AlreadyApplied);
      }
      if next.version != current.version + 1 {
        return Ok(TransitionRejected(VersionConflict(next.id, next.version)));
      }
      if (next.id, next.version) !in accounts {
        accounts := accounts[(next.id, next.version) := next];
      }
      heads := heads - {next.id};
      heads := heads[next.id := next.version];
      assert heads == old(heads)[next.id := next.version];
      AppendEvent(event);
      return Ok(TransitionApplied);
    }

    /** The head decides whether the account is new. */
    method CreateAccount(account: Account) returns (count: nat)
      modifies this`accounts, this`heads
      ensures (View(), count) == SqlCreate(old(View()), account)
    {
      if account.id in heads { return 0; }
      if (account.id, account.version) !in accounts {
        accounts := accounts[(account.id, account.version) := account];
      }
      heads := heads[account.id := account.version];
      return 1;
    }
  }
}

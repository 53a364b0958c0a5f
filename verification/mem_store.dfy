/** The in-memory store: tables changed in place, call by call
    (crates/kuatia-storage/src/mem_store.rs).  Each method is proved to do to the
    tables exactly what the value-level store says. */
module MemStore {
  import opened Wrappers
  import opened Domain
  import opened Totals
  import opened Amounts
  import opened Events
  import opened Store

  class InMemoryStore {
    var immutable: map<PostingId, Posting>
    var active: map<PostingId, Posting>
    var reserved: map<PostingId, Held>
    var accounts: map<AccountId, seq<Account>>
    var transfers: map<EnvelopeId, EnvelopeRecord>
    var participation: map<EnvelopeId, seq<AccountId>>
    var events: seq<LedgerEvent>
    var books: map<BookId, Book>
    var projections: map<(AccountId, AssetId), seq<BalanceProjection>>

    function View(): State
      reads this
    {
      State(immutable, active, reserved, accounts, transfers, participation, events, books, projections)
    }

    constructor ()
      ensures View() == EMPTY
    {
      immutable, active, reserved := map[], map[], map[];
      accounts, transfers, participation := map[], map[], map[];
      events, books, projections := [], map[], map[];
    }

    method ReservePostings(ids: seq<PostingId>, rid: ReservationId) returns (count: nat)
      modifies this`active, this`reserved
      ensures (View(), count) == Reserve(old(View()), ids, rid)
    {
      count := 0;
      for i := 0 to |ids|
        invariant (View(), count) == Reserve(old(View()), ids[..i], rid)
      {
        assert ids[..i + 1][..i] == ids[..i];
        if ids[i] in active {
          var p := active[ids[i]];
          active := active - {ids[i]};
          reserved := reserved[ids[i] := Held(p, rid)];
          count := count + 1;
        }
      }
      assert ids[..|ids|] == ids;
    }

    method ReleasePostings(ids: seq<PostingId>, rid: ReservationId) returns (count: nat)
      modifies this`active, this`reserved
      ensures (View(), count) == Release(old(View()), ids, rid)
    {
      count := 0;
      for i := 0 to |ids|
        invariant (View(), count) == Release(old(View()), ids[..i], rid)
      {
        assert ids[..i + 1][..i] == ids[..i];
        if ids[i] in reserved && reserved[ids[i]].reservation == rid {
          var p := reserved[ids[i]].posting;
          reserved := reserved - {ids[i]};
          active := active[ids[i] := p];
          count := count + 1;
        }
      }
      assert ids[..|ids|] == ids;
    }

    method DeactivatePostings(ids: seq<PostingId>, rid: Option<ReservationId>) returns (count: nat)
      modifies this`active, this`reserved
      ensures (View(), count) == Deactivate(old(View()), ids, rid)
    {
      count := 0;
      for i := 0 to |ids|
        invariant (View(), count) == Deactivate(old(View()), ids[..i], rid)
      {
        assert ids[..i + 1][..i] == ids[..i];
        match rid {
          case None =>
            if ids[i] in active {
              active := active - {ids[i]};
              count := count + 1;
            }
          case Some(r) =>
            if ids[i] in reserved && reserved[ids[i]].reservation == r {
              reserved := reserved - {ids[i]};
              count := count + 1;
            }
        }
      }
      assert ids[..|ids|] == ids;
    }

    method InsertPostings(ps: seq<Posting>) returns (count: nat)
      modifies this`immutable, this`active
      ensures (View(), count) == Store.InsertPostings(old(View()), ps)
    {
      count := 0;
      for i := 0 to |ps|
        invariant (View(), count) == Store.InsertPostings(old(View()), ps[..i])
      {
        assert ps[..i + 1][..i] == ps[..i];
        if ps[i].id !in immutable {
          immutable := immutable[ps[i].id := ps[i]];
          active := active[ps[i].id := ps[i]];
          count := count + 1;
        }
      }
      assert ps[..|ps|] == ps;
    }

    method CreateAccount(account: Account) returns (count: nat)
      modifies this`accounts
      ensures (View(), count) == Store.CreateAccount(old(View()), account)
    {
      if account.id in accounts { return 0; }
      accounts := accounts[account.id := [account]];
      return 1;
    }

    method AppendEvent(event: LedgerEvent)
      modifies this`events
      ensures View() == Store.AppendEvent(old(View()), event)
    {
      hide DedupKey;
      var key := DedupKey(event.kind);
      if key.Some? {
        for i := 0 to |events|
          invariant events == old(events)
          invariant forall j :: 0 <= j < i ==> DedupKey(events[j].kind) != key
        {
          if DedupKey(events[i].kind) == key { return; }
        }
      }
      events := events + [event];
    }

    method AppendBalanceProjection(a: AccountId, asset: AssetId, p: BalanceProjection)
      modifies this`projections
      ensures View() == AppendProjection(old(View()), a, asset, p)
    {
      var points := if (a, asset) in projections then projections[(a, asset)] else [];
      projections := projections[(a, asset) := points + [p]];
    }

    /** Add up one holder's amount in the rows that survive `spent`, in whatever
        order the map iterates, stopping at the first sum that leaves 64 bits. */
    static method SurvivingSum(rows: map<PostingId, Posting>, spent: set<PostingId>, a: AccountId, asset: AssetId)
      returns (r: Option<Cent>)
      ensures r.Some? ==> r.value == SumRows(OfHolder(a, asset), rows - spent)
      ensures r.None? ==> !Summable(OfHolder(a, asset), rows - spent)
    {
      var sl := OfHolder(a, asset);
      var todo := rows.Keys;
      var sum: Cent := 0;
      ghost var seen: map<PostingId, Posting> := map[];
      while todo != {}
        invariant todo <= rows.Keys
        invariant seen == map id | id in rows && id !in todo && id !in spent :: rows[id]
        invariant sum == SumRows(sl, seen)
        decreases |todo|
      {
        var id :| id in todo;
        todo := todo - {id};
        if id !in spent {
          SumRowsInsert(sl, seen, id, rows[id]);
          ghost var grown := seen[id := rows[id]];
          if rows[id].owner == a && rows[id].asset == asset {
            var next := Checked(sum + rows[id].value);
            if next.Err? {
              assert PartOf(grown, rows - spent);
              return None;
            }
            sum := next.value;
          }
          seen := grown;
        }
      }
      assert seen == rows - spent;
      return Some(sum);
    }

    /** Add up what a request creates for one holder, in request order. */
    static method CreatedSum(create: seq<Posting>, a: AccountId, asset: AssetId) returns (r: Option<Cent>)
      ensures r.Some? ==> r.value == SumPostings(OfHolder(a, asset), create)
      ensures r.None? ==> !RunningSumsFit(OfHolder(a, asset), create)
    {
      var sl := OfHolder(a, asset);
      var sum: Cent := 0;
      for i := 0 to |create|
        invariant sum == SumPostings(sl, create[..i])
      {
        assert create[..i + 1][..i] == create[..i];
        if create[i].owner == a && create[i].asset == asset {
          var next := Checked(sum + create[i].value);
          if next.Err? { return None; }
          sum := next.value;
        }
      }
      assert create[..|create|] == create;
      return Some(sum);
    }

    /** One (account, asset) floor: `None` is an overflow on the way. */
    method ProjectBalance(req: CommitRequest, a: AccountId, asset: AssetId) returns (r: Option<Cent>)
      requires a in req.involved && Forbids(View(), a) && asset in FloorAssets(View(), req, a)
      ensures r.Some? ==> r.value == Projected(View(), req, a, asset)
      ensures r.None? ==> !FloorSafe(View(), req)
    {
      var live := SurvivingSum(active, IdSet(req.consume), a, asset);
      if live.None? { return None; }
      var created := CreatedSum(req.create, a, asset);
      if created.None? { return None; }
      var projected := Checked(live.value as int + created.value as int);
      if projected.Err? { return None; }
      return Some(projected.value);
    }

    /** One account's floor: every asset the request touches for it. */
    method CheckFloor(req: CommitRequest, a: AccountId) returns (r: Option<CommitResult>)
      requires a in req.involved && Forbids(View(), a)
      ensures r.None? ==> forall asset :: asset in FloorAssets(View(), req, a) ==> 0 <= Projected(View(), req, a, asset)
      ensures r.Some? && r.value.Err? ==> r.value.error == Internal && !FloorSafe(View(), req)
      ensures r.Some? && r.value.Ok? ==>
        && r.value.value.Rejected? && r.value.value.reason.Overdraft?
        && var o := r.value.value.reason; FloorBreached(View(), req, o.account, o.asset, o.projected)
    {
      var assets := FloorAssets(View(), req, a);
      var todo := assets;
      while todo != {}
        invariant todo <= assets
        invariant forall asset :: asset in assets && asset !in todo ==> 0 <= Projected(View(), req, a, asset)
        decreases |todo|
      {
        var asset :| asset in todo;
        var projected := ProjectBalance(req, a, asset);
        if projected.None? { return Some(Err(Internal)); }
        if projected.value < 0 { return Some(Ok(Rejected(Overdraft(a, asset, projected.value)))); }
        todo := todo - {asset};
      }
      return None;
    }

    method CheckGuards(req: CommitRequest) returns (r: Option<CommitResult>)
      ensures r == Guard(View(), req)
    {
      if req.transferId in transfers {
        return Some(Ok(AlreadyCommitted(transfers[req.transferId].receipt)));
      }
      for i := 0 to |req.involved|
        invariant LifecycleGuard(View(), req.involved) == LifecycleGuard(View(), req.involved[i..])
      {
        var a := req.involved[i];
        if a !in accounts || accounts[a] == [] { return Some(Err(Internal)); }
        var account := accounts[a][|accounts[a]| - 1];
        if account.IsFrozen() { return Some(Ok(Rejected(FrozenAccount(a)))); }
        if account.IsClosed() { return Some(Ok(Rejected(ClosedAccount(a)))); }
        assert req.involved[i..][1..] == req.involved[i + 1..];
      }
      for i := 0 to |req.consume|
        invariant DoubleSpendGuard(View(), req.consume) == DoubleSpendGuard(View(), req.consume[i..])
      {
        if req.consume[i] !in active { return Some(Ok(Rejected(DoubleSpend(req.consume[i])))); }
        assert req.consume[i..][1..] == req.consume[i + 1..];
      }
      return None;
    }

    method CheckFloors(req: CommitRequest) returns (r: Option<CommitResult>)
      ensures r.None? ==> FloorHolds(View(), req)
      ensures r.Some? && r.value.Err? ==> r.value.error == Internal && !FloorSafe(View(), req)
      ensures r.Some? && r.value.Ok? ==>
        && r.value.value.Rejected? && r.value.value.reason.Overdraft?
        && var o := r.value.value.reason; FloorBreached(View(), req, o.account, o.asset, o.projected)
    {
      for i := 0 to |req.involved|
        invariant forall j, asset :: 0 <= j < i && Forbids(View(), req.involved[j]) ==>
          asset in FloorAssets(View(), req, req.involved[j]) ==> 0 <= Projected(View(), req, req.involved[j], asset)
      {
        var a := req.involved[i];
        if a in accounts && accounts[a] != [] && accounts[a][|accounts[a]| - 1].ForbidsOverdraft() {
          var f := CheckFloor(req, a);
          if f.Some? { return f; }
        }
      }
      return None;
    }

    /** `commit_envelope`: guards, floor, then the writes, all under one lock. */
    method CommitEnvelope(req: CommitRequest) returns (r: CommitResult)
      modifies this
      ensures Commits(old(View()), req, View(), r)
    {
      var g := CheckGuards(req);
      if g.Some? { return g.value; }
      var f := CheckFloors(req);
      if f.Some? { return f.value; }
      Apply(req);
      return Ok(Committed(req.record.receipt));
    }

    method Apply(req: CommitRequest)
      modifies this
      ensures View() == Applied(old(View()), req)
    {
      Spend(req.consume);
      Activate(req.create);
      participation := participation[req.transferId := req.involved];
      transfers := transfers[req.transferId := req.record];
      AppendEvent(req.event);
    }

    method Spend(ids: seq<PostingId>)
      modifies this`active
      ensures active == old(active) - IdSet(ids)
    {
      for i := 0 to |ids|
        invariant active == old(active) - IdSet(ids[..i])
      {
        assert IdSet(ids[..i + 1]) == IdSet(ids[..i]) + {ids[i]};
        active := active - {ids[i]};
      }
      assert ids[..|ids|] == ids;
    }

    method Activate(ps: seq<Posting>)
      modifies this`immutable, this`active
      ensures immutable == PutAbsent(old(immutable), ps)
      ensures active == Put(old(active), ps)
    {
      for i := 0 to |ps|
        invariant immutable == PutAbsent(old(immutable), ps[..i])
        invariant active == Put(old(active), ps[..i])
      {
        assert ps[..i + 1][..i] == ps[..i];
        if ps[i].id !in immutable {
          immutable := immutable[ps[i].id := ps[i]];
        }
        active := active[ps[i].id := ps[i]];
      }
      assert ps[..|ps|] == ps;
    }

    method CommitTransition(next: Account, event: LedgerEvent) returns (r: Result<TransitionOutcome, StoreError>)
      modifies this`accounts, this`events
      ensures (View(), r) == Store.CommitTransition(old(View()), next, event)
    {
      if next.id !in accounts || accounts[next.id] == [] { return Err(Internal); }
      var versions := accounts[next.id];
      var current := versions[|versions| - 1];
      if current.IsClosed() { return Ok(TransitionRejected(AlreadyClosed(next.id))); }
      if current.version >= next.version {
        AppendEvent(event);
        return Ok(AlreadyApplied);
      }
      if next.version != current.version + 1 {
        return Ok(TransitionRejected(VersionConflict(next.id, next.version)));
      }
      accounts := accounts[next.id := versions + [next]];
      AppendEvent(event);
      return Ok(TransitionApplied);
    }
  }
}

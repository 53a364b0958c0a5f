/** The two stores project a balance differently: the in-memory one leaves reserved rows out,
    the SQL one reads every live row back after writing.  When that matters, and when it does
    not (crates/kuatia-storage/src/mem_store.rs, crates/kuatia-storage-sql/src/commit.rs). */
module SqlFloors {
  import opened Wrappers
  import opened Domain
  import opened Totals
  import opened Amounts
  import opened Events
  import opened Store
  import opened SqlTables
  import opened SqlTheorems

  // ----- when the verdicts agree -----

  /** No row of the holding is reserved. */
  ghost predicate NoneHeld(s: State, a: AccountId, asset: AssetId) {
    forall id :: id in s.reserved ==> !Covers(OfHolder(a, asset), s.reserved[id].posting.owner, s.reserved[id].posting.asset)
  }

  lemma {:induction false} InsertedPostings(live: LiveTable, ps: seq<Posting>)
    requires FreshIds(LivePostings(live), ps)
    ensures LivePostings(InsertedLive(live, ps)) == Put(LivePostings(live), ps)
  {
    if ps != [] {
      var front, p := ps[..|ps| - 1], ps[|ps| - 1];
      assert FreshIds(LivePostings(live), front);
      InsertedPostings(live, front);
      PutFresh(LivePostings(live), front);
      assert p.id !in IdsOf(front);
      hide ActiveRows, HeldRows, FreshIds;
      NewRow(InsertedLive(live, front), p);
    }
  }

  /** Without reserved rows, what stays live of a holding is what stays active of it. */
  lemma SurvivorsAlike(t: Tables, s: State, spent: set<PostingId>, a: AccountId, asset: AssetId)
    requires PostingsRelated(t, s) && NoneHeld(s, a, asset)
    ensures SumRows(OfHolder(a, asset), LivePostings(Deleted(t.live, spent, None))) == SumRows(OfHolder(a, asset), s.active - spent)
  {
    var sl := OfHolder(a, asset);
    var all, part := Weights(sl, LivePostings(Deleted(t.live, spent, None))), Weights(sl, s.active - spent);
    forall id | id in part ensures id in all && part[id] == all[id] {
    }
    forall id | id in all && id !in part ensures all[id] == 0 {
      assert id in t.live && t.live[id].reservation.Some?;
      assert id in s.reserved && s.reserved[id].posting == t.live[id].posting;
    }
    TotalRestrict(all, part);
  }

  /** The two projections of one holding are the same number. */
  lemma ProjectionsAlike(t: Tables, s: State, req: CommitRequest, a: AccountId, asset: AssetId)
    requires PostingsRelated(t, s) && FreshIds(LivePostings(t.live), req.create) && NoneHeld(s, a, asset)
    ensures SqlProjected(SqlApplied(t, req).live, a, asset) == Projected(s, req, a, asset)
  {
    var kept := Deleted(t.live, IdSet(req.consume), None);
    assert FreshIds(LivePostings(kept), req.create);
    SurvivorsAlike(t, s, IdSet(req.consume), a, asset);
    hide FreshIds, NoneHeld, PostingsRelated, Deleted, IdSet;
    InsertedPostings(kept, req.create);
    PutSum(OfHolder(a, asset), LivePostings(kept), req.create);
  }

  /** The holdings the two stores check are the same, as far as the request lists their
      owners as involved. */
  lemma TouchedAlike(t: Tables, s: State, req: CommitRequest, a: AccountId, asset: AssetId)
    requires PostingsRelated(t, s)
    ensures (a, asset) in Touched(t, req) <==> asset in FloorAssets(s, req, a)
  {
    assert forall id :: id in ActiveRows(t.live) ==> s.active[id] == t.live[id].posting;
    if (a, asset) in Touched(t, req) {
      if id :| id in req.consume && id in ActiveRows(t.live) && (t.live[id].posting.owner, t.live[id].posting.asset) == (a, asset) {
        var i :| 0 <= i < |req.consume| && req.consume[i] == id;
        assert asset in FloorAssets(s, req, a);
      } else {
        var p :| p in req.create && (p.owner, p.asset) == (a, asset);
        var i :| 0 <= i < |req.create| && req.create[i] == p;
        assert asset in FloorAssets(s, req, a);
      }
    }
  }

  /** The request lists every owner it touches, and no holding it touches of an account that
      forbids overdraft has a reserved row. */
  ghost predicate Unreserved(t: Tables, s: State, req: CommitRequest) {
    forall a, asset :: (a, asset) in Touched(t, req) && Forbids(s, a) ==> a in req.involved && NoneHeld(s, a, asset)
  }

  /** On any related tables, reachable or not: with the touched holdings free of reservations
      and new ids for what is created, one store's floor holds exactly when the other's does,
      and a breach is the same breach. */
  lemma FloorsAgree(t: Tables, s: State, req: CommitRequest)
    requires Related(t, s) && FreshIds(LivePostings(t.live), req.create) && Unreserved(t, s, req)
    ensures SqlFloorHolds(t, req) <==> FloorHolds(s, req)
    ensures forall a, asset, projected :: SqlFloorBreached(t, req, a, asset, projected) <==> FloorBreached(s, req, a, asset, projected)
  {
    RelatedAccounts(t, s);
    assert PostingsRelated(t, s);
    hide Related, AccountsRelated, PostingsRelated, FreshIds, Touched, FloorAssets, NoneHeld, SqlApplied, SqlProjected, Projected, SqlForbids, Forbids;
    forall a, asset
      ensures SqlForbids(t, a) == Forbids(s, a)
      ensures (a, asset) in Touched(t, req) <==> asset in FloorAssets(s, req, a)
      ensures (a, asset) in Touched(t, req) && Forbids(s, a) ==>
        SqlProjected(SqlApplied(t, req).live, a, asset) == Projected(s, req, a, asset) && a in req.involved
    {
      HeadsAgree(t, s, a);
      TouchedAlike(t, s, req, a, asset);
      if (a, asset) in Touched(t, req) && Forbids(s, a) {
        ProjectionsAlike(t, s, req, a, asset);
      }
    }
  }

  // ----- when they do not -----

  function Guardian(a: AccountId): Account { Account(a, 1, 8, 0, []) }

  /** One account that forbids overdraft, and one reserved row of it below zero. */
  function HeldBelow(a: AccountId, p: Posting, rid: ReservationId): State {
    EMPTY.(immutable := map[p.id := p], reserved := map[p.id := Held(p, rid)], accounts := map[a := [Guardian(a)]])
  }

  function HeldBelowTables(a: AccountId, p: Posting, rid: ReservationId): Tables {
    Tables(map[p.id := p], map[p.id := LiveRow(p, Some(rid))], map[(a, 1) := Guardian(a)], map[a := 1], map[], {}, [])
  }

  /** A request that gives the account one posting. */
  function Gift(tid: EnvelopeId, a: AccountId, x: AssetId, v: Cent): CommitRequest {
    CommitRequest(tid, [], [Posting(PostingId(tid, 0), a, x, v)],
      EnvelopeRecord(Envelope([], [NewPosting(a, x, v, None)], [], 0, []), Receipt(tid), 0), [a], LedgerEvent(0, TransferCommitted(tid)))
  }

  lemma GiftGuard(a: AccountId, p: Posting, rid: ReservationId, tid: EnvelopeId, x: AssetId, v: Cent)
    ensures Guard(HeldBelow(a, p, rid), Gift(tid, a, x, v)).None? && Forbids(HeldBelow(a, p, rid), a)
    ensures Related(HeldBelowTables(a, p, rid), HeldBelow(a, p, rid))
  {
    var s, req := HeldBelow(a, p, rid), Gift(tid, a, x, v);
    assert LifecycleGuard(s, [a]) == LifecycleGuard(s, [a][1..]);
    assert [a][1..] == [];
  }

  lemma OnePostingSum(sl: Slice, p: Posting)
    ensures SumPostings(sl, [p]) == Weight(sl, p) && SumRows(sl, map[p.id := p]) == Weight(sl, p)
    ensures Put(map[], [p]) == map[p.id := p]
    ensures SumRows(sl, map[]) == 0 && SumPostings(sl, []) == 0
  {
    assert [p][..0] == [];
    assert Weights(sl, map[]) == map[];
    SumRowsInsert(sl, map[], p.id, p);
    assert Put(map[], [p]) == Put(map[], [p][..0])[p.id := p];
  }

  /** The in-memory store sees only what is given and commits. */
  lemma GiftCommits(a: AccountId, p: Posting, rid: ReservationId, tid: EnvelopeId, x: AssetId, v: Cent, s': State, r: CommitResult)
    requires v >= 0 && Commits(HeldBelow(a, p, rid), Gift(tid, a, x, v), s', r)
    ensures r == Ok(Committed(Receipt(tid)))
  {
    var s, req := HeldBelow(a, p, rid), Gift(tid, a, x, v);
    GiftGuard(a, p, rid, tid, x, v);
    forall o, asset
      ensures Projected(s, req, o, asset) == Weight(OfHolder(o, asset), req.create[0]) >= 0
      ensures Summable(OfHolder(o, asset), s.active - IdSet(req.consume)) && RunningSumsFit(OfHolder(o, asset), req.create)
    {
      var sl := OfHolder(o, asset);
      assert s.active - IdSet(req.consume) == map[];
      OnePostingSum(sl, req.create[0]);
      NonNegativeSummable(sl, map[]);
      NonNegativeRuns(sl, req.create);
    }
    hide Guard, Projected, Summable, RunningSumsFit, Applied;
  }

  /** The SQL store reads the reserved row back too and rejects. */
  lemma GiftRejected(a: AccountId, p: Posting, rid: ReservationId, tid: EnvelopeId, x: AssetId, v: Cent, t': Tables, q: CommitResult)
    requires p.owner == a && p.asset == x && p.value + v < 0 <= v && p.id.transfer != tid
    requires SqlCommits(HeldBelowTables(a, p, rid), Gift(tid, a, x, v), t', q)
    ensures q == Ok(Rejected(Overdraft(a, x, p.value + v))) && t' == HeldBelowTables(a, p, rid)
  {
    hide Guard, SqlApplied, Touched, SqlForbids, Guarded, SqlCommits, Related, HeldBelow, HeldBelowTables, Gift, Addable, SqlProjected;
    var t, req := HeldBelowTables(a, p, rid), Gift(tid, a, x, v);
    GiftGuard(a, p, rid, tid, x, v);
    GuardsAgree(t, HeldBelow(a, p, rid), req);
    GiftReads(a, p, rid, tid, x, v);
    GiftTouches(a, p, rid, tid, x, v);
    OneBreach(t, req, a, x, t', q);
  }

  lemma GiftTouches(a: AccountId, p: Posting, rid: ReservationId, tid: EnvelopeId, x: AssetId, v: Cent)
    ensures var t := HeldBelowTables(a, p, rid); Touched(t, Gift(tid, a, x, v)) == {(a, x)} && SqlForbids(t, a)
  {
  }

  /** A single touched holding that adds up to less than zero decides. */
  lemma OneBreach(t: Tables, req: CommitRequest, a: AccountId, x: AssetId, t': Tables, q: CommitResult)
    requires Guard(Guarded(t), req).None? && Touched(t, req) == {(a, x)} && SqlForbids(t, a)
    requires SqlProjected(SqlApplied(t, req).live, a, x) < 0 && Addable(SqlApplied(t, req).live, a, x)
    requires SqlCommits(t, req, t', q)
    ensures t' == t && q.Ok? && q.value.Rejected? && q.value.reason.Overdraft?
    ensures var o := q.value.reason; o.account == a && o.asset == x && o.projected == SqlProjected(SqlApplied(t, req).live, a, x)
  {
    hide Guard, SqlApplied, Touched, SqlForbids, Guarded, Addable, SqlProjected;
    assert !SqlFloorHolds(t, req);
    assert SqlFloorSafe(t, req);
  }

  lemma GiftReads(a: AccountId, p: Posting, rid: ReservationId, tid: EnvelopeId, x: AssetId, v: Cent)
    requires p.owner == a && p.asset == x && p.value + v < 0 <= v && p.id.transfer != tid
    ensures var live := SqlApplied(HeldBelowTables(a, p, rid), Gift(tid, a, x, v)).live;
      SqlProjected(live, a, x) == p.value + v && Addable(live, a, x)
  {
    var t, req, sl := HeldBelowTables(a, p, rid), Gift(tid, a, x, v), OfHolder(a, x);
    var g := req.create[0];
    var kept := Deleted(t.live, IdSet([]), None);
    assert kept == t.live && LivePostings(kept) == map[p.id := p];
    assert FreshIds(LivePostings(kept), [g]);
    InsertedPostings(kept, [g]);
    var rows := map[p.id := p][g.id := g];
    assert [g][..0] == [];
    assert Put(map[p.id := p], [g]) == Put(map[p.id := p], [g][..0])[g.id := g];
    assert LivePostings(SqlApplied(t, req).live) == rows;
    OnePostingSum(sl, p);
    OnePostingSum(sl, g);
    SumRowsInsert(sl, map[p.id := p], g.id, g);
    hide SumRows;
    forall part | PartOf(part, rows) ensures Fits(SumRows(sl, part)) {
      PartsOfTwo(p, g, part);
    }
  }

  lemma PartsOfTwo(p: Posting, g: Posting, part: map<PostingId, Posting>)
    requires p.id != g.id && PartOf(part, map[p.id := p][g.id := g])
    ensures part in {map[], map[p.id := p], map[g.id := g], map[p.id := p][g.id := g]}
  {
    if p.id in part {
      if g.id in part {
        assert part == map[p.id := p][g.id := g];
      } else {
        assert part == map[p.id := p];
      }
    } else if g.id in part {
      assert part == map[g.id := g];
    } else {
      assert part == map[];
    }
  }

  /** So on these related tables, which no run reaches, the same request commits in one store
      and is rejected by the other: the reserved row is what one leaves out. */
  lemma FloorsDiffer(
      a: AccountId, p: Posting, rid: ReservationId, tid: EnvelopeId, x: AssetId, v: Cent,
      s': State, r: CommitResult, t': Tables, q: CommitResult)
    requires p.owner == a && p.asset == x && p.value + v < 0 <= v && p.id.transfer != tid
    requires Commits(HeldBelow(a, p, rid), Gift(tid, a, x, v), s', r)
    requires SqlCommits(HeldBelowTables(a, p, rid), Gift(tid, a, x, v), t', q)
    ensures Related(HeldBelowTables(a, p, rid), HeldBelow(a, p, rid))
    ensures r == Ok(Committed(Receipt(tid))) && q == Ok(Rejected(Overdraft(a, x, p.value + v)))
  {
    hide Commits, SqlCommits, Related;
    GiftGuard(a, p, rid, tid, x, v);
    GiftCommits(a, p, rid, tid, x, v, s', r);
    GiftRejected(a, p, rid, tid, x, v, t', q);
  }
}

/** The store invariant is kept by every step of every interleaving. */
module RunProofs {
  import opened Wrappers
  import opened Domain
  import opened Totals
  import opened Amounts
  import opened Events
  import opened Store
  import opened Canonical
  import opened Validate
  import opened Runs

  // ----- a plan made from stale reads is still sound -----

  /** What a validated plan needs of the state it is applied to.  None of it can be
      invalidated by later steps. */
  ghost predicate PlanSound(s: State, e: Envelope, involved: seq<AccountId>) {
    && |e.creates| <= TWO16
    && Distinct(e.consumes)
    && (forall id :: id in e.consumes ==> id in s.immutable)
    && (forall asset: AssetId :: SumNew(OfAsset(asset), e.creates) == SumIds(OfAsset(asset), s.immutable, e.consumes))
    && (forall i :: 0 <= i < |e.creates| ==>
          Head(s, e.creates[i].owner).Some? && (Forbids(s, e.creates[i].owner) ==> e.creates[i].value >= 0))
    && (forall a :: a in involved <==> Touches(s.immutable, e, a))
  }

  ghost predicate History(past: seq<State>) {
    && past != []
    && forall i :: 0 <= i < |past| ==> Inv(past[i]) && Grows(past[i], past[|past| - 1])
  }

  /** The rows validation indexed are the rows the store holds now. */
  lemma LoadedRowsCurrent(past: seq<State>, q: nat, e: Envelope, l: Loaded)
    requires History(past) && q < |past|
    requires PostingsRead(past[q], e.consumes, l.consumed) && Distinct(e.consumes)
    ensures PostingsRead(past[|past| - 1], e.consumes, l.consumed)
    ensures forall i :: 0 <= i < |e.consumes| ==>
      e.consumes[i] in Rows(InputOf(e, l)) && Rows(InputOf(e, l))[e.consumes[i]] == l.consumed[i]
  {
    assert TablesOk(past[q]);
    forall i | 0 <= i < |e.consumes| ensures l.consumed[i].id == e.consumes[i] {
    }
    PutFresh(map[], l.consumed);
  }

  lemma ReadFlagCurrent(past: seq<State>, q: nat, a: AccountId)
    requires History(past) && q < |past| && Head(past[q], a).Some?
    ensures Head(past[|past| - 1], a).Some?
    ensures Forbids(past[q], a) == Forbids(past[|past| - 1], a)
  {
    var s := past[|past| - 1];
    assert AccountsOk(past[q]) && AccountsOk(s) && LogsKept(past[q], s);
    var old', new' := past[q].accounts[a], s.accounts[a];
    assert LogOk(a, old') && LogOk(a, new');
    assert old'[0] == new'[0];
  }

  lemma StaleRows(past: seq<State>, e: Envelope, l: Loaded)
    requires History(past) && LoadedFrom(past, e, l) && Distinct(e.consumes)
    ensures PostingsRead(past[|past| - 1], e.consumes, l.consumed)
    ensures forall i :: 0 <= i < |e.consumes| ==>
      e.consumes[i] in Rows(InputOf(e, l)) && Rows(InputOf(e, l))[e.consumes[i]] == l.consumed[i]
  {
    var q :| 0 <= q < |past| && PostingsRead(past[q], e.consumes, l.consumed);
    LoadedRowsCurrent(past, q, e, l);
  }

  lemma StaleConservation(s: State, e: Envelope, l: Loaded)
    requires Conserves(InputOf(e, l)) && PostingsRead(s, e.consumes, l.consumed)
    requires forall i :: 0 <= i < |e.consumes| ==>
      e.consumes[i] in Rows(InputOf(e, l)) && Rows(InputOf(e, l))[e.consumes[i]] == l.consumed[i]
    ensures forall asset: AssetId ::
      SumNew(OfAsset(asset), e.creates) == SumIds(OfAsset(asset), s.immutable, e.consumes)
  {
    forall asset: AssetId
      ensures SumNew(OfAsset(asset), e.creates) == SumIds(OfAsset(asset), s.immutable, e.consumes)
    {
      assert NetOf(InputOf(e, l), OfAsset(asset)) == 0;
      assert e.creates[..|e.creates|] == e.creates && e.consumes[..|e.consumes|] == e.consumes;
      SumIdsAgree(OfAsset(asset), Rows(InputOf(e, l)), s.immutable, e.consumes);
    }
  }

  lemma StaleOwner(past: seq<State>, e: Envelope, l: Loaded, i: nat)
    requires History(past) && LoadedFrom(past, e, l)
    requires OwnersUsable(InputOf(e, l)) && NegativesPermitted(InputOf(e, l)) && i < |e.creates|
    ensures Head(past[|past| - 1], e.creates[i].owner).Some?
    ensures Forbids(past[|past| - 1], e.creates[i].owner) ==> e.creates[i].value >= 0
  {
    var a := e.creates[i].owner;
    assert a in Owners(e, l.consumed);
    assert Usable(l.accounts, a) && Permits(l.accounts, e.creates[i]);
    var r :| 0 <= r < |past| && Head(past[r], a) == Some(l.accounts[a]);
    ReadFlagCurrent(past, r, a);
  }

  lemma StaleOwners(past: seq<State>, e: Envelope, l: Loaded)
    requires History(past) && LoadedFrom(past, e, l)
    requires OwnersUsable(InputOf(e, l)) && NegativesPermitted(InputOf(e, l))
    ensures var s := past[|past| - 1]; forall i :: 0 <= i < |e.creates| ==>
      Head(s, e.creates[i].owner).Some? && (Forbids(s, e.creates[i].owner) ==> e.creates[i].value >= 0)
  {
    forall i | 0 <= i < |e.creates|
      ensures Head(past[|past| - 1], e.creates[i].owner).Some?
      ensures Forbids(past[|past| - 1], e.creates[i].owner) ==> e.creates[i].value >= 0
    {
      StaleOwner(past, e, l, i);
    }
  }

  lemma AssemblePlan(s: State, e: Envelope, l: Loaded)
    requires PostingsRead(s, e.consumes, l.consumed) && Distinct(e.consumes) && |e.creates| <= TWO16
    requires forall asset: AssetId ::
      SumNew(OfAsset(asset), e.creates) == SumIds(OfAsset(asset), s.immutable, e.consumes)
    requires forall i :: 0 <= i < |e.creates| ==>
      Head(s, e.creates[i].owner).Some? && (Forbids(s, e.creates[i].owner) ==> e.creates[i].value >= 0)
    ensures PlanSound(s, e, Owners(e, l.consumed))
  {
    OwnersTouched(s, e, l.consumed);
  }

  /** Whatever happened since its reads, a validated plan is still sound now. */
  lemma StalePlanSound(digest: Digest, past: seq<State>, e: Envelope, l: Loaded)
    requires History(past) && LoadedFrom(past, e, l)
    requires Acceptable(digest, InputOf(e, l)) && |e.creates| <= TWO16
    ensures PlanSound(past[|past| - 1], e, Owners(e, l.consumed))
  {
    StaleRows(past, e, l);
    StaleConservation(past[|past| - 1], e, l);
    StaleOwners(past, e, l);
    AssemblePlan(past[|past| - 1], e, l);
  }

  lemma OwnersTouched(s: State, e: Envelope, consumed: seq<Posting>)
    requires PostingsRead(s, e.consumes, consumed)
    ensures forall a :: a in Owners(e, consumed) <==> Touches(s.immutable, e, a)
  {
    forall a ensures a in Owners(e, consumed) <==> Touches(s.immutable, e, a) {
      if i :| 0 <= i < |e.consumes| && s.immutable[e.consumes[i]].owner == a {
        assert consumed[i].owner == a;
      }
      if i :| 0 <= i < |consumed| && consumed[i].owner == a {
        assert s.immutable[e.consumes[i]].owner == a;
      }
    }
  }

  // ----- applying a sound plan -----

  /** The request is a plan for its own envelope, sound here, not yet stored, and
      everything it consumes is active. */
  ghost predicate Ready(s: State, req: CommitRequest) {
    var e := req.record.envelope;
    && req.consume == e.consumes
    && req.create == PlannedPostings(req.transferId, e.creates)
    && req.record.receipt == Receipt(req.transferId)
    && req.event.kind == TransferCommitted(req.transferId)
    && PlanSound(s, e, req.involved)
    && req.transferId !in s.transfers
    && (forall id :: id in req.consume ==> id in s.active)
  }

  lemma {:induction false} PutAbsentFresh(rows: map<PostingId, Posting>, ps: seq<Posting>)
    requires FreshIds(rows, ps)
    ensures PutAbsent(rows, ps) == Put(rows, ps)
  {
    if ps != [] {
      var front := ps[..|ps| - 1];
      assert FreshIds(rows, front);
      PutAbsentFresh(rows, front);
      PutFresh(rows, front);
    }
  }

  /** Freshness comes from the plan: the ids carry a transfer id the log has never
      seen, and every posting's transfer is in the log. */
  lemma CreatesFresh(s: State, req: CommitRequest)
    requires ProvenanceOk(s) && Ready(s, req)
    ensures FreshIds(s.immutable, req.create)
  {
    PlannedIdsDistinct(req.transferId, req.record.envelope.creates);
  }

  lemma AppliedImmutable(s: State, req: CommitRequest)
    requires ProvenanceOk(s) && Ready(s, req)
    ensures Applied(s, req).immutable == Put(s.immutable, req.create)
    ensures Applied(s, req).immutable.Keys == s.immutable.Keys + IdsOf(req.create)
    ensures forall id :: id in s.immutable ==> Applied(s, req).immutable[id] == s.immutable[id]
    ensures forall i :: 0 <= i < |req.create| ==> Applied(s, req).immutable[req.create[i].id] == req.create[i]
  {
    CreatesFresh(s, req);
    PutAbsentFresh(s.immutable, req.create);
    PutFresh(s.immutable, req.create);
  }

  lemma SurvivorsFresh(s: State, req: CommitRequest)
    requires TablesOk(s) && ProvenanceOk(s) && Ready(s, req)
    ensures FreshIds(s.active - IdSet(req.consume), req.create)
    ensures FreshIds(Live(s) - IdSet(req.consume), req.create)
  {
    CreatesFresh(s, req);
    LiveRows(s);
  }

  lemma AppliedActive(s: State, req: CommitRequest)
    requires TablesOk(s) && ProvenanceOk(s) && Ready(s, req)
    ensures Applied(s, req).active.Keys == s.active.Keys - IdSet(req.consume) + IdsOf(req.create)
    ensures forall id :: id in s.active && id !in req.consume ==> Applied(s, req).active[id] == s.active[id]
    ensures forall i :: 0 <= i < |req.create| ==> Applied(s, req).active[req.create[i].id] == req.create[i]
  {
    SurvivorsFresh(s, req);
    PutFresh(s.active - IdSet(req.consume), req.create);
  }

  lemma AppliedRow(s: State, req: CommitRequest, id: PostingId)
    requires TablesOk(s) && ProvenanceOk(s) && Ready(s, req) && id in Applied(s, req).immutable
    ensures Applied(s, req).immutable[id].id == id
    ensures id in Applied(s, req).active ==> Applied(s, req).active[id] == Applied(s, req).immutable[id]
  {
    hide Ready, ProvenanceOk, Applied;
    AppliedImmutable(s, req);
    AppliedActive(s, req);
    if id in IdsOf(req.create) {
      var i :| 0 <= i < |req.create| && req.create[i].id == id;
    }
  }

  lemma AppliedKeys(s: State, req: CommitRequest)
    requires TablesOk(s) && ProvenanceOk(s) && Ready(s, req)
    ensures Applied(s, req).active.Keys <= Applied(s, req).immutable.Keys
    ensures Applied(s, req).active.Keys !! s.reserved.Keys
  {
    CreatesFresh(s, req);
    AppliedImmutable(s, req);
    AppliedActive(s, req);
  }

  lemma AppliedTables(s: State, req: CommitRequest)
    requires TablesOk(s) && ProvenanceOk(s) && Ready(s, req)
    ensures TablesOk(Applied(s, req))
  {
    hide Ready, ProvenanceOk;
    var s' := Applied(s, req);
    AppliedKeys(s, req);
    forall id | id in s'.immutable
      ensures s'.immutable[id].id == id && (id in s'.active ==> s'.active[id] == s'.immutable[id])
    {
      AppliedRow(s, req, id);
    }
    assert forall id :: id in s.immutable ==> id in s'.immutable && s'.immutable[id] == s.immutable[id] by {
      AppliedImmutable(s, req);
    }
  }

  /** The live set after a commit: consumed rows gone, created rows added. */
  lemma AppliedLive(s: State, req: CommitRequest)
    requires TablesOk(s) && ProvenanceOk(s) && Ready(s, req)
    ensures Live(Applied(s, req)).Keys == Live(s).Keys - IdSet(req.consume) + IdsOf(req.create)
    ensures IdsOf(req.create) !! s.immutable.Keys
  {
    CreatesFresh(s, req);
    AppliedActive(s, req);
  }

  lemma AppliedLiveRow(s: State, req: CommitRequest, id: PostingId)
    requires TablesOk(s) && ProvenanceOk(s) && Ready(s, req) && id in Live(Applied(s, req))
    ensures id in Put(Live(s) - IdSet(req.consume), req.create)
    ensures Live(Applied(s, req))[id] == Put(Live(s) - IdSet(req.consume), req.create)[id]
  {
    var s', base := Applied(s, req), Live(s) - IdSet(req.consume);
    SurvivorsFresh(s, req);
    PutFresh(base, req.create);
    AppliedLive(s, req);
    AppliedTables(s, req);
    AppliedImmutable(s, req);
    assert Live(s')[id] == s'.immutable[id] by { LiveRows(s'); }
    if id in IdsOf(req.create) {
      var i :| 0 <= i < |req.create| && req.create[i].id == id;
    } else {
      assert Live(s)[id] == s.immutable[id] by { LiveRows(s); }
    }
  }

  lemma AppliedLiveRows(s: State, req: CommitRequest)
    requires TablesOk(s) && ProvenanceOk(s) && Ready(s, req)
    ensures Live(Applied(s, req)) == Put(Live(s) - IdSet(req.consume), req.create)
  {
    hide Ready, ProvenanceOk, TablesOk, Applied, Put, FreshIds, Live;
    var base := Live(s) - IdSet(req.consume);
    SurvivorsFresh(s, req);
    PutFresh(base, req.create);
    AppliedLive(s, req);
    forall id | id in Live(Applied(s, req)) ensures Live(Applied(s, req))[id] == Put(base, req.create)[id] {
      AppliedLiveRow(s, req, id);
    }
  }

  lemma PlannedId(tid: EnvelopeId, creates: seq<NewPosting>, i: nat)
    requires i < |creates| <= TWO16
    ensures PlannedPostings(tid, creates)[i] == PlannedPosting(tid, i, creates[i])
    ensures PlannedPostings(tid, creates)[i].id == PostingId(tid, i)
  {
  }

  lemma NewRowPlace(s: State, req: CommitRequest, id: PostingId)
    requires Ready(s, req) && id in IdsOf(req.create)
    ensures id.transfer == req.transferId && id.index < |req.record.envelope.creates|
  {
    var i :| 0 <= i < |req.create| && req.create[i].id == id;
    PlannedId(req.transferId, req.record.envelope.creates, i);
  }

  lemma AppliedProvenance(s: State, req: CommitRequest)
    requires ProvenanceOk(s) && Ready(s, req)
    ensures ProvenanceOk(Applied(s, req))
  {
    var s', t' := Applied(s, req), req.transferId;
    AppliedImmutable(s, req);
    forall id | id in s'.immutable
      ensures id.transfer in s'.transfers && id.index < |s'.transfers[id.transfer].envelope.creates|
    {
      if id !in s.immutable {
        NewRowPlace(s, req, id);
      }
    }
    forall t, i | t in s'.transfers && 0 <= i < |s'.transfers[t].envelope.creates| ensures CreatedBy(s', t, i) {
      if t == t' {
        PlannedId(t', req.record.envelope.creates, i);
      } else {
        assert CreatedBy(s, t, i);
      }
    }
  }

  lemma AppliedConsumes(s: State, req: CommitRequest, t: EnvelopeId)
    requires Ready(s, req) && t in Applied(s, req).transfers
    ensures Consumes(Applied(s, req), t) == if t == req.transferId then req.consume else Consumes(s, t)
    ensures t != req.transferId ==> t in s.transfers
  {
  }

  lemma AppliedSpentRow(s: State, req: CommitRequest, t: EnvelopeId, id: PostingId)
    requires TablesOk(s) && ProvenanceOk(s) && SpentOk(s) && Ready(s, req)
    requires t in Applied(s, req).transfers && id in Consumes(Applied(s, req), t)
    ensures id in s.immutable && id !in Live(Applied(s, req))
    ensures t != req.transferId ==> id !in req.consume
  {
    AppliedConsumes(s, req, t);
    AppliedLive(s, req);
    LiveRows(s);
  }

  lemma AppliedSpentBy(s: State, req: CommitRequest, id: PostingId)
    requires TablesOk(s) && ProvenanceOk(s) && SpentOk(s) && Ready(s, req)
    requires id in Applied(s, req).immutable && id !in Live(Applied(s, req))
    ensures exists t :: t in Applied(s, req).transfers && id in Consumes(Applied(s, req), t)
  {
    var s' := Applied(s, req);
    AppliedImmutable(s, req);
    AppliedLive(s, req);
    if id in Live(s) {
      assert id in Consumes(s', req.transferId);
    } else {
      var t :| t in s.transfers && id in Consumes(s, t);
      AppliedConsumes(s, req, t);
      assert t in s'.transfers && id in Consumes(s', t);
    }
  }

  lemma AppliedSpentOnce(s: State, req: CommitRequest, t: EnvelopeId, u: EnvelopeId, id: PostingId)
    requires TablesOk(s) && ProvenanceOk(s) && SpentOk(s) && Ready(s, req)
    requires t in Applied(s, req).transfers && u in Applied(s, req).transfers
    requires id in Consumes(Applied(s, req), t) && id in Consumes(Applied(s, req), u)
    ensures t == u
  {
    hide TablesOk, ProvenanceOk, Live;
    AppliedSpentRow(s, req, t, id);
    AppliedSpentRow(s, req, u, id);
    AppliedConsumes(s, req, t);
    AppliedConsumes(s, req, u);
  }

  lemma AppliedDistinct(s: State, req: CommitRequest, t: EnvelopeId)
    requires SpentOk(s) && Ready(s, req) && t in Applied(s, req).transfers
    ensures Distinct(Consumes(Applied(s, req), t))
  {
    AppliedConsumes(s, req, t);
  }

  lemma AppliedSpent(s: State, req: CommitRequest)
    requires TablesOk(s) && ProvenanceOk(s) && SpentOk(s) && Ready(s, req)
    ensures SpentOk(Applied(s, req))
  {
    hide TablesOk, ProvenanceOk, Live, Ready, Distinct, Consumes;
    var s' := Applied(s, req);
    forall t | t in s'.transfers ensures Distinct(Consumes(s', t)) {
      AppliedDistinct(s, req, t);
    }
    forall t, id | t in s'.transfers && id in Consumes(s', t) ensures id in s'.immutable && id !in Live(s') {
      AppliedSpentRow(s, req, t, id);
      AppliedImmutable(s, req);
    }
    forall t, u, id | t in s'.transfers && u in s'.transfers && id in Consumes(s', t) && id in Consumes(s', u)
      ensures t == u
    {
      AppliedSpentOnce(s, req, t, u, id);
    }
    forall id | id in s'.immutable && id !in Live(s') ensures exists t :: t in s'.transfers && id in Consumes(s', t) {
      AppliedSpentBy(s, req, id);
    }
  }

  lemma TouchesKept(rows: map<PostingId, Posting>, rows': map<PostingId, Posting>, e: Envelope, a: AccountId)
    requires forall id :: id in e.consumes ==> id in rows && id in rows' && rows[id] == rows'[id]
    ensures Touches(rows, e, a) <==> Touches(rows', e, a)
  {
  }

  lemma AppliedTouches(s: State, req: CommitRequest, t: EnvelopeId, a: AccountId)
    requires ProvenanceOk(s) && SpentOk(s) && Ready(s, req) && t in Applied(s, req).transfers
    ensures SameTouch(s.immutable, Applied(s, req).immutable, Applied(s, req).transfers[t].envelope, a)
  {
    hide Touches, ProvenanceOk, SpentOk, Ready, Applied;
    AppliedImmutable(s, req);
    ConsumesThere(s, req, t);
    TouchesKept(s.immutable, Applied(s, req).immutable, Applied(s, req).transfers[t].envelope, a);
  }

  /** What any stored transfer consumes was there before. */
  lemma ConsumesThere(s: State, req: CommitRequest, t: EnvelopeId)
    requires SpentOk(s) && Ready(s, req) && t in Applied(s, req).transfers
    ensures forall id :: id in Applied(s, req).transfers[t].envelope.consumes ==> id in s.immutable
  {
    hide Applied;
    AppliedConsumes(s, req, t);
    assert Applied(s, req).transfers[t].envelope.consumes == Consumes(Applied(s, req), t);
  }

  predicate SameTouch(rows: map<PostingId, Posting>, rows': map<PostingId, Posting>, e: Envelope, a: AccountId) {
    Touches(rows, e, a) <==> Touches(rows', e, a)
  }

  lemma AppliedIndex(s: State, req: CommitRequest)
    requires ProvenanceOk(s) && SpentOk(s) && IndexOk(s) && Ready(s, req)
    ensures IndexOk(Applied(s, req))
  {
    hide ProvenanceOk, SpentOk, Touches;
    var s' := Applied(s, req);
    forall t, a | t in s'.transfers
      ensures a in s'.participation[t] <==> Touches(s'.immutable, s'.transfers[t].envelope, a)
    {
      AppliedTouches(s, req, t, a);
    }
  }

  lemma {:induction false} PlannedSum(sl: Slice, tid: EnvelopeId, creates: seq<NewPosting>)
    ensures SumPostings(sl, PlannedPostings(tid, creates)) == SumNew(sl, creates)
  {
    if creates != [] {
      var n := |creates| - 1;
      PlannedSum(sl, tid, creates[..n]);
      assert PlannedPostings(tid, creates)[..n] == PlannedPostings(tid, creates[..n]);
    }
  }

  function PlanDelta(s: State, req: CommitRequest, sl: Slice): int {
    SumNew(sl, req.record.envelope.creates) - SumIds(sl, s.immutable, req.consume)
  }

  /** Stored deltas never change, and the new transfer's is its plan's. */
  lemma AppliedDelta(s: State, req: CommitRequest, sl: Slice, t: EnvelopeId)
    requires ProvenanceOk(s) && SpentOk(s) && Ready(s, req) && t in Applied(s, req).transfers
    ensures Delta(Applied(s, req), t, sl) == if t == req.transferId then PlanDelta(s, req, sl) else Delta(s, t, sl)
  {
    hide ProvenanceOk;
    var s' := Applied(s, req);
    AppliedImmutable(s, req);
    if t == req.transferId {
      SumIdsAgree(sl, s.immutable, s'.immutable, req.consume);
    } else {
      OldDelta(s, s', sl, t);
    }
  }

  lemma OldDelta(s: State, s': State, sl: Slice, t: EnvelopeId)
    requires SpentOk(s) && t in s.transfers && t in s'.transfers && s'.transfers[t] == s.transfers[t]
    requires forall id :: id in s.immutable ==> id in s'.immutable && s'.immutable[id] == s.immutable[id]
    ensures Delta(s', t, sl) == Delta(s, t, sl)
  {
    forall id | id in Consumes(s, t) ensures id in s.immutable {
    }
    SumIdsAgree(sl, s.immutable, s'.immutable, Consumes(s, t));
  }

  lemma AppliedLogSum(s: State, req: CommitRequest, sl: Slice)
    requires ProvenanceOk(s) && SpentOk(s) && Ready(s, req)
    ensures Total(Deltas(Applied(s, req), sl)) == Total(Deltas(s, sl)) + PlanDelta(s, req, sl)
  {
    var after, expected := Deltas(Applied(s, req), sl), Deltas(s, sl)[req.transferId := PlanDelta(s, req, sl)];
    forall t | t in after ensures t in expected && after[t] == expected[t] {
      AppliedDelta(s, req, sl, t);
    }
    assert after.Keys == expected.Keys;
    assert after == expected;
    TotalInsert(Deltas(s, sl), req.transferId, PlanDelta(s, req, sl));
  }

  /** A commit moves the live sum of every slice by exactly its delta. */
  lemma AppliedLiveSum(s: State, req: CommitRequest, sl: Slice)
    requires TablesOk(s) && ProvenanceOk(s) && Ready(s, req)
    ensures LiveSum(Applied(s, req), sl) == LiveSum(s, sl) + PlanDelta(s, req, sl)
  {
    var base := Live(s) - IdSet(req.consume);
    AppliedLiveRows(s, req);
    SurvivorsFresh(s, req);
    PutSum(sl, base, req.create);
    PlannedSum(sl, req.transferId, req.record.envelope.creates);
    LiveRows(s);
    SumRowsSpend(sl, Live(s), req.consume);
    SumIdsAgree(sl, Live(s), s.immutable, req.consume);
  }

  lemma AppliedSums(s: State, req: CommitRequest)
    requires TablesOk(s) && ProvenanceOk(s) && SpentOk(s) && SumsOk(s) && Ready(s, req)
    ensures SumsOk(Applied(s, req))
  {
    var s' := Applied(s, req);
    forall t, asset: AssetId | t in s'.transfers ensures Delta(s', t, OfAsset(asset)) == 0 {
      AppliedDelta(s, req, OfAsset(asset), t);
    }
    forall sl: Slice ensures LiveSum(s', sl) == Total(Deltas(s', sl)) {
      AppliedLiveSum(s, req, sl);
      AppliedLogSum(s, req, sl);
    }
  }

  lemma AppliedOwner(s: State, req: CommitRequest, id: PostingId)
    requires ProvenanceOk(s) && OwnershipOk(s) && Ready(s, req) && id in Applied(s, req).immutable
    ensures var p := Applied(s, req).immutable[id];
      Head(s, p.owner).Some? && (Forbids(s, p.owner) ==> p.value >= 0)
  {
    AppliedImmutable(s, req);
    if id !in s.immutable {
      var i :| 0 <= i < |req.create| && req.create[i].id == id;
      PlannedId(req.transferId, req.record.envelope.creates, i);
    }
  }

  lemma AppliedOwnership(s: State, req: CommitRequest)
    requires ProvenanceOk(s) && OwnershipOk(s) && Ready(s, req)
    ensures OwnershipOk(Applied(s, req))
  {
    hide Ready, ProvenanceOk;
    var s' := Applied(s, req);
    forall id | id in s'.immutable
      ensures Head(s', s'.immutable[id].owner).Some?
      ensures Forbids(s', s'.immutable[id].owner) ==> s'.immutable[id].value >= 0
    {
      AppliedOwner(s, req, id);
    }
  }

  lemma MentionsSnoc(events: seq<LedgerEvent>, event: LedgerEvent, s: Subject)
    ensures Mentions(events + [event], s) <==> Mentions(events, s) || SubjectOf(event.kind) == s
  {
    var after := events + [event];
    if i :| 0 <= i < |events| && SubjectOf(events[i].kind) == s {
      assert after[i] == events[i];
    }
    assert after[|events|] == event;
  }

  lemma AppliedEventLog(s: State, req: CommitRequest)
    requires TransfersAnnounced(s) && req.transferId !in s.transfers
    requires req.event.kind == TransferCommitted(req.transferId)
    ensures Applied(s, req).events == s.events + [req.event]
    ensures forall x: Subject :: Mentions(Applied(s, req).events, x) <==>
      Mentions(s.events, x) || x == OfTransfer(req.transferId)
  {
    AppendBySubject(s.events, req.event);
    forall x: Subject
      ensures Mentions(s.events + [req.event], x) <==> Mentions(s.events, x) || x == OfTransfer(req.transferId)
    {
      MentionsSnoc(s.events, req.event, x);
    }
  }

  lemma SubjectsStayUnique(events: seq<LedgerEvent>, event: LedgerEvent)
    requires UniqueSubjects(events)
    requires SubjectOf(event.kind).Recurring? || !Mentions(events, SubjectOf(event.kind))
    ensures UniqueSubjects(events + [event])
  {
  }

  lemma AnnouncedKept(s: State, s': State, a: AccountId, k: nat)
    requires s.events <= s'.events && a in s.accounts && a in s'.accounts && s.accounts[a] <= s'.accounts[a]
    requires 1 <= k < |s.accounts[a]| && Announced(s, a, k)
    ensures Announced(s', a, k)
  {
    var i :| 0 <= i < |s.events| && Describes(s.events[i].kind, s.accounts[a][k - 1], s.accounts[a][k]);
    assert s'.events[i] == s.events[i];
  }

  /** A log that only gains events not about account versions keeps its lifecycle part. */
  lemma LifecycleEventsKept(s: State, s': State)
    requires VersionsMentioned(s) && VersionsAnnounced(s)
    requires s'.accounts == s.accounts && s.events <= s'.events
    requires forall a, v :: Mentions(s'.events, OfVersion(a, v)) <==> Mentions(s.events, OfVersion(a, v))
    ensures VersionsMentioned(s') && VersionsAnnounced(s')
  {
    forall a, v ensures HasVersion(s', a, v) <==> HasVersion(s, a, v) {
    }
    forall a, k | a in s'.accounts && 1 <= k < |s'.accounts[a]| ensures Announced(s', a, k) {
      AnnouncedKept(s, s', a, k);
    }
  }

  lemma AppliedEvents(s: State, req: CommitRequest)
    requires EventsOk(s) && req.transferId !in s.transfers
    requires req.event.kind == TransferCommitted(req.transferId)
    ensures EventsOk(Applied(s, req))
  {
    AppliedEventLog(s, req);
    SubjectsStayUnique(s.events, req.event);
    LifecycleEventsKept(s, Applied(s, req));
  }

  lemma {:induction false} LifecyclePassed(s: State, involved: seq<AccountId>)
    requires LifecycleGuard(s, involved).None?
    ensures forall a :: a in involved ==>
      Head(s, a).Some? && !Head(s, a).value.IsFrozen() && !Head(s, a).value.IsClosed()
  {
    if involved != [] {
      LifecyclePassed(s, involved[1..]);
    }
  }

  lemma {:induction false} DoubleSpendPassed(s: State, consume: seq<PostingId>)
    requires DoubleSpendGuard(s, consume).None?
    ensures forall id :: id in consume ==> id in s.active
  {
    if consume != [] {
      DoubleSpendPassed(s, consume[1..]);
    }
  }

  /** What a commit takes out of the live set is its involved accounts' postings. */
  lemma LeavingInvolved(s: State, req: CommitRequest, id: PostingId)
    requires TablesOk(s) && ProvenanceOk(s) && Ready(s, req) && id in Live(s) && id !in Live(Applied(s, req))
    ensures Live(s)[id].owner in req.involved
  {
    var e := req.record.envelope;
    AppliedLive(s, req);
    LiveRows(s);
    hide Applied, Live;
    assert id in e.consumes;
    var i :| 0 <= i < |e.consumes| && e.consumes[i] == id;
    assert Touches(s.immutable, e, Live(s)[id].owner);
  }

  /** And so is what it adds. */
  lemma EnteringInvolved(s: State, req: CommitRequest, id: PostingId)
    requires TablesOk(s) && ProvenanceOk(s) && Ready(s, req) && id in Live(Applied(s, req)) && id !in Live(s)
    ensures Live(Applied(s, req))[id].owner in req.involved
  {
    var e := req.record.envelope;
    AppliedLive(s, req);
    AppliedImmutable(s, req);
    AppliedTables(s, req);
    LiveRows(Applied(s, req));
    hide Applied, Live;
    var i :| 0 <= i < |req.create| && req.create[i].id == id;
    assert e.creates[i].owner == req.create[i].owner;
    assert Touches(s.immutable, e, e.creates[i].owner);
  }

  /** Nothing a commit consumes or creates belongs to a closed account. */
  lemma AppliedClosed(s: State, req: CommitRequest)
    requires TablesOk(s) && ProvenanceOk(s) && Ready(s, req) && LifecycleGuard(s, req.involved).None?
    ensures ClosedKept(s, Applied(s, req))
  {
    var s' := Applied(s, req);
    assert s'.accounts == s.accounts;
    hide Applied, Live, Ready, TablesOk, ProvenanceOk, LifecycleGuard;
    LifecyclePassed(s, req.involved);
    forall id | id in Live(s) && id !in Live(s') ensures !ClosedIn(s, Live(s)[id].owner) {
      LeavingInvolved(s, req, id);
    }
    forall id | id in Live(s') && id !in Live(s) ensures !ClosedIn(s, Live(s')[id].owner) {
      EnteringInvolved(s, req, id);
    }
  }

  lemma AppliedRowsKept(s: State, req: CommitRequest)
    requires ProvenanceOk(s) && Ready(s, req) && req.transferId !in s.participation
    requires Applied(s, req).events == s.events + [req.event]
    ensures RowsKept(s, Applied(s, req))
  {
    AppliedImmutable(s, req);
  }

  lemma AppliedGrows(s: State, req: CommitRequest)
    requires TablesOk(s) && ProvenanceOk(s) && IndexOk(s) && EventsOk(s)
    requires Ready(s, req) && LifecycleGuard(s, req.involved).None?
    ensures Grows(s, Applied(s, req))
  {
    AppliedEventLog(s, req);
    AppliedRowsKept(s, req);
    AppliedClosed(s, req);
    assert SpentKept(s, Applied(s, req)) by { AppliedLive(s, req); }
  }

  /** A commit of a sound plan keeps the invariant, whatever its outcome. */
  lemma CommitKeepsInv(s: State, req: CommitRequest, s': State, r: CommitResult)
    requires Inv(s) && Commits(s, req, s', r)
    requires req.transferId !in s.transfers && Guard(s, req).None? ==> Ready(s, req)
    ensures Inv(s') && Grows(s, s')
  {
    GrowsRefl(s);
    if s' != s {
      AppliedTables(s, req);
      AppliedProvenance(s, req);
      AppliedSpent(s, req);
      AppliedIndex(s, req);
      AppliedSums(s, req);
      AppliedOwnership(s, req);
      AppliedEvents(s, req);
      AppliedGrows(s, req);
    }
  }

  // ----- the other steps -----

  /** The posting side of the store is the same, up to which live table holds a row. */
  ghost predicate SamePostings(s: State, t: State) {
    && t.immutable == s.immutable && t.transfers == s.transfers
    && t.participation == s.participation && Live(t) == Live(s)
  }

  lemma SameSumsOk(s: State, t: State)
    requires SumsOk(s) && SamePostings(s, t)
    ensures SumsOk(t)
  {
    forall x, asset: AssetId | x in t.transfers ensures Delta(t, x, OfAsset(asset)) == 0 {
      assert Delta(s, x, OfAsset(asset)) == 0;
    }
    forall sl: Slice ensures LiveSum(t, sl) == Total(Deltas(t, sl)) {
      assert LiveSum(s, sl) == Total(Deltas(s, sl));
      assert Deltas(t, sl) == Deltas(s, sl);
    }
  }

  lemma SameProvenanceOk(s: State, t: State)
    requires ProvenanceOk(s) && IndexOk(s) && SamePostings(s, t)
    ensures ProvenanceOk(t) && IndexOk(t)
  {
    forall x, i | x in t.transfers && 0 <= i < |t.transfers[x].envelope.creates| ensures CreatedBy(t, x, i) {
      assert CreatedBy(s, x, i);
    }
  }

  lemma SameSpentOk(s: State, t: State)
    requires SpentOk(s) && SamePostings(s, t)
    ensures SpentOk(t)
  {
    hide Live;
    forall x | x in t.transfers ensures Consumes(t, x) == Consumes(s, x) {
    }
    hide Consumes;
    forall id | id in t.immutable && id !in Live(t) ensures exists x :: x in t.transfers && id in Consumes(t, x) {
      assert id !in Live(s);
      var x :| x in s.transfers && id in Consumes(s, x);
      assert x in t.transfers && id in Consumes(t, x);
    }
  }

  lemma SamePostingsOk(s: State, t: State)
    requires ProvenanceOk(s) && SpentOk(s) && IndexOk(s) && SumsOk(s) && SamePostings(s, t)
    ensures ProvenanceOk(t) && SpentOk(t) && IndexOk(t) && SumsOk(t)
  {
    SameSumsOk(s, t);
    SameProvenanceOk(s, t);
    SameSpentOk(s, t);
  }

  ghost predicate SameLedger(s: State, t: State) {
    SamePostings(s, t) && t.accounts == s.accounts && t.events == s.events
  }

  lemma SameAccountsOk(s: State, t: State)
    requires OwnershipOk(s) && AccountsOk(s) && EventsOk(s) && SameLedger(s, t)
    ensures OwnershipOk(t) && AccountsOk(t) && EventsOk(t) && Grows(s, t)
  {
    hide OwnershipOk, AccountsOk;
    SameOwners(s, t);
    LifecycleEventsKept(s, t);
  }

  lemma SameKeepsInv(s: State, t: State)
    requires Inv(s) && SameLedger(s, t) && TablesOk(t)
    ensures Inv(t) && Grows(s, t)
  {
    SamePostingsOk(s, t);
    SameAccountsOk(s, t);
  }

  function ReserveOne(t: State, id: PostingId, rid: ReservationId): State
    requires id in t.active
  {
    t.(active := t.active - {id}, reserved := t.reserved[id := Held(t.active[id], rid)])
  }

  function ReleaseOne(t: State, id: PostingId): State
    requires id in t.reserved
  {
    t.(reserved := t.reserved - {id}, active := t.active[id := t.reserved[id].posting])
  }

  lemma ReserveOneTables(t: State, id: PostingId, rid: ReservationId)
    requires TablesOk(t) && id in t.active
    ensures TablesOk(ReserveOne(t, id, rid))
  {
  }

  lemma ReleaseOneTables(t: State, id: PostingId)
    requires TablesOk(t) && id in t.reserved
    ensures TablesOk(ReleaseOne(t, id))
  {
  }

  /** Consistent tables over the same records are determined by which ids are live. */
  lemma LiveByKeys(t: State, u: State)
    requires TablesOk(t) && TablesOk(u) && u.immutable == t.immutable
    requires u.active.Keys + u.reserved.Keys == t.active.Keys + t.reserved.Keys
    ensures Live(u) == Live(t)
  {
    hide TablesOk, Live;
    LiveRows(t);
    LiveRows(u);
    assert Live(u).Keys == Live(t).Keys;
  }

  lemma ReserveOneSame(t: State, id: PostingId, rid: ReservationId)
    requires TablesOk(t) && id in t.active
    ensures TablesOk(ReserveOne(t, id, rid)) && Live(ReserveOne(t, id, rid)) == Live(t)
  {
    hide TablesOk, Live;
    ReserveOneTables(t, id, rid);
    LiveByKeys(t, ReserveOne(t, id, rid));
  }

  lemma ReleaseOneSame(t: State, id: PostingId)
    requires TablesOk(t) && id in t.reserved
    ensures TablesOk(ReleaseOne(t, id)) && Live(ReleaseOne(t, id)) == Live(t)
  {
    hide TablesOk, Live;
    ReleaseOneTables(t, id);
    LiveByKeys(t, ReleaseOne(t, id));
  }

  /** Reserving moves rows between the two live tables and changes nothing else. */
  lemma {:induction false} ReserveSame(s: State, ids: seq<PostingId>, rid: ReservationId)
    requires TablesOk(s)
    ensures var t := Reserve(s, ids, rid).0; TablesOk(t) && SameLedger(s, t) && t.projections == s.projections
  {
    if ids != [] {
      var front, id := ids[..|ids| - 1], ids[|ids| - 1];
      ReserveSame(s, front, rid);
      if id in Reserve(s, front, rid).0.active {
        ReserveOneSame(Reserve(s, front, rid).0, id, rid);
      }
    }
  }

  lemma {:induction false} ReleaseSame(s: State, ids: seq<PostingId>, rid: ReservationId)
    requires TablesOk(s)
    ensures var t := Release(s, ids, rid).0; TablesOk(t) && SameLedger(s, t) && t.projections == s.projections
  {
    if ids != [] {
      var front, id := ids[..|ids| - 1], ids[|ids| - 1];
      ReleaseSame(s, front, rid);
      if id in Release(s, front, rid).0.reserved {
        ReleaseOneSame(Release(s, front, rid).0, id);
      }
    }
  }

  lemma CreateAccountKeepsInv(s: State, account: Account)
    requires Inv(s)
    ensures Inv(CreateAccount(s, account).0) && Grows(s, CreateAccount(s, account).0)
  {
    hide SpentOk, SumsOk, ProvenanceOk, IndexOk, OwnershipOk, AccountsOk, EventsOk, Grows;
    var t := CreateAccount(s, account).0;
    SamePostingsOk(s, t);
    RegisterGrows(s, account);
    RegisterKeepsLogs(s, account);
    RegisterKeepsOwners(s, account);
    RegisterKeepsEvents(s, account);
  }

  /** A step that leaves the postings alone and only extends logs of open accounts. */
  lemma AccountsOnlyGrow(s: State, t: State)
    requires SamePostings(s, t) && s.events <= t.events && LogsKept(s, t)
    requires forall a :: ClosedIn(s, a) ==> t.accounts[a] == s.accounts[a]
    ensures Grows(s, t)
  {
  }

  lemma RegisterKept(s: State, account: Account)
    ensures var t := CreateAccount(s, account).0;
      && t == s.(accounts := t.accounts)
      && forall a :: a in s.accounts ==> a in t.accounts && t.accounts[a] == s.accounts[a]
  {
  }

  lemma RegisterGrows(s: State, account: Account)
    ensures Grows(s, CreateAccount(s, account).0)
  {
    hide Grows, CreateAccount;
    var t := CreateAccount(s, account).0;
    RegisterKept(s, account);
    AccountsOnlyGrow(s, t);
  }

  lemma RegisterKeepsLogs(s: State, account: Account)
    requires AccountsOk(s)
    ensures AccountsOk(CreateAccount(s, account).0)
  {
    forall a | a in s.accounts ensures LogOk(a, s.accounts[a]) {
    }
    assert LogOk(account.id, [account]);
  }

  lemma RegisterKeepsOwners(s: State, account: Account)
    requires OwnershipOk(s)
    ensures OwnershipOk(CreateAccount(s, account).0)
  {
    var t := CreateAccount(s, account).0;
    forall a | Head(s, a).Some? ensures Head(t, a) == Head(s, a) {
    }
  }

  /** A first version adds no later version to any log. */
  lemma RegisterVersions(s: State, account: Account, a: AccountId, v: u64)
    ensures HasVersion(CreateAccount(s, account).0, a, v) <==> HasVersion(s, a, v)
  {
  }

  lemma RegisterAnnounced(s: State, account: Account)
    requires VersionsAnnounced(s)
    ensures VersionsAnnounced(CreateAccount(s, account).0)
  {
    hide Announced;
    var t := CreateAccount(s, account).0;
    forall a, k | a in t.accounts && 1 <= k < |t.accounts[a]| ensures Announced(t, a, k) {
      AnnouncedKept(s, t, a, k);
    }
  }

  lemma RegisterKeepsEvents(s: State, account: Account)
    requires EventsOk(s)
    ensures EventsOk(CreateAccount(s, account).0)
  {
    hide HasVersion, VersionsAnnounced, UniqueSubjects;
    forall a, v ensures HasVersion(CreateAccount(s, account).0, a, v) <==> HasVersion(s, a, v) {
      RegisterVersions(s, account, a, v);
    }
    RegisterAnnounced(s, account);
  }

  lemma RecurringEventKept(s: State, event: LedgerEvent)
    requires EventsOk(s) && SubjectOf(event.kind).Recurring?
    ensures EventsOk(AppendEvent(s, event)) && s.events <= AppendEvent(s, event).events
  {
    hide Announced, HasVersion;
    var t := AppendEvent(s, event);
    AppendBySubject(s.events, event);
    SubjectsStayUnique(s.events, event);
    forall x: Subject | !x.Recurring? ensures Mentions(t.events, x) <==> Mentions(s.events, x) {
      MentionsSnoc(s.events, event, x);
    }
    LifecycleEventsKept(s, t);
  }

  lemma SameOwners(s: State, t: State)
    requires OwnershipOk(s) && AccountsOk(s) && t.accounts == s.accounts && t.immutable == s.immutable
    ensures OwnershipOk(t) && AccountsOk(t)
  {
  }

  lemma AppendCreatedKeepsInv(s: State, event: LedgerEvent)
    requires Inv(s) && SubjectOf(event.kind).Recurring?
    ensures Inv(AppendEvent(s, event)) && Grows(s, AppendEvent(s, event))
  {
    hide SpentOk, SumsOk, ProvenanceOk, IndexOk, EventsOk, OwnershipOk, AccountsOk, Grows;
    SamePostingsOk(s, AppendEvent(s, event));
    SameOwners(s, AppendEvent(s, event));
    RecurringEventKept(s, event);
    AccountsOnlyGrow(s, AppendEvent(s, event));
  }

  // ----- account-version transitions -----

  /** The version a client transitioned from is still in the log at its own place. */
  lemma BaseInLog(past: seq<State>, q: nat, base: Account)
    requires History(past) && q < |past| && Head(past[q], base.id) == Some(base)
    ensures var s := past[|past| - 1];
      && base.id in s.accounts
      && exists k :: 0 <= k < |s.accounts[base.id]| && s.accounts[base.id][k] == base
  {
    var s := past[|past| - 1];
    var k := |past[q].accounts[base.id]| - 1;
    assert LogsKept(past[q], s);
    assert s.accounts[base.id][k] == base;
  }

  /** A transition whose version is already taken finds its event already logged. */
  lemma ReplayedTransition(s: State, base: Account, m: Lifecycle, event: LedgerEvent)
    requires AccountsOk(s) && VersionsMentioned(s) && base.id in s.accounts && base in s.accounts[base.id]
    requires base.version + 1 < TWO64 && event.kind == EventFor(m, base.id, base.version + 1)
    requires Head(s, base.id).value.version >= base.version + 1
    ensures AppendEvent(s, event) == s
  {
    var log := s.accounts[base.id];
    assert LogOk(base.id, log);
    var k :| 0 <= k < |log| && log[k] == base;
    assert log[k + 1].version == base.version + 1;
    assert HasVersion(s, base.id, base.version + 1);
    AppendBySubject(s.events, event);
  }

  /** A transition that lands was computed from the current head. */
  lemma LandedOnHead(s: State, base: Account)
    requires AccountsOk(s) && base.id in s.accounts && base in s.accounts[base.id]
    requires Head(s, base.id).value.version == base.version
    ensures Head(s, base.id).value == base
  {
    var log := s.accounts[base.id];
    assert LogOk(base.id, log);
    var k :| 0 <= k < |log| && log[k] == base;
    assert log[k].version == log[0].version + k;
    assert k == |log| - 1;
  }

  /** The state after one applied transition. */
  function Stepped(s: State, m: Lifecycle, base: Account, ts: i64): State
    requires base.version + 1 < TWO64 && base.id in s.accounts
  {
    s.(accounts := s.accounts[base.id := s.accounts[base.id] + [Mutated(m, base)]],
       events := s.events + [LedgerEvent(ts, EventFor(m, base.id, base.version + 1))])
  }

  lemma SteppedAccounts(s: State, m: Lifecycle, base: Account, ts: i64)
    requires AccountsOk(s) && OwnershipOk(s) && base.version + 1 < TWO64
    requires Head(s, base.id) == Some(base) && !base.IsClosed()
    ensures var t := Stepped(s, m, base, ts); AccountsOk(t) && OwnershipOk(t) && LogsKept(s, t)
  {
    var t := Stepped(s, m, base, ts);
    assert LogOk(base.id, s.accounts[base.id]);
    forall a | Head(s, a).Some? ensures Head(t, a).Some? && Forbids(t, a) == Forbids(s, a) {
    }
  }

  lemma NextVersionNew(s: State, base: Account)
    requires AccountsOk(s) && base.version + 1 < TWO64 && Head(s, base.id) == Some(base)
    ensures !HasVersion(s, base.id, base.version + 1)
  {
    assert LogOk(base.id, s.accounts[base.id]);
  }

  lemma SteppedEventLog(s: State, m: Lifecycle, base: Account, ts: i64)
    requires AccountsOk(s) && VersionsMentioned(s) && UniqueSubjects(s.events)
    requires base.version + 1 < TWO64 && Head(s, base.id) == Some(base)
    ensures UniqueSubjects(Stepped(s, m, base, ts).events)
    ensures AppendEvent(s, LedgerEvent(ts, EventFor(m, base.id, base.version + 1))).events == Stepped(s, m, base, ts).events
    ensures forall x: Subject :: Mentions(Stepped(s, m, base, ts).events, x) <==>
      Mentions(s.events, x) || x == OfVersion(base.id, base.version + 1)
  {
    hide HasVersion, AccountsOk, UniqueSubjects, Mentions;
    var event := LedgerEvent(ts, EventFor(m, base.id, base.version + 1));
    NextVersionNew(s, base);
    assert !Mentions(s.events, OfVersion(base.id, base.version + 1));
    AppendBySubject(s.events, event);
    SubjectsStayUnique(s.events, event);
    forall x: Subject
      ensures Mentions(s.events + [event], x) <==> Mentions(s.events, x) || x == OfVersion(base.id, base.version + 1)
    {
      MentionsSnoc(s.events, event, x);
    }
  }

  lemma SteppedEvents(s: State, m: Lifecycle, base: Account, ts: i64)
    requires AccountsOk(s) && EventsOk(s) && base.version + 1 < TWO64
    requires Head(s, base.id) == Some(base)
    ensures EventsOk(Stepped(s, m, base, ts))
    ensures AppendEvent(s, LedgerEvent(ts, EventFor(m, base.id, base.version + 1))).events == Stepped(s, m, base, ts).events
  {
    hide HasVersion, VersionsAnnounced, UniqueSubjects, AccountsOk, Mentions;
    SteppedEventLog(s, m, base, ts);
    SteppedVersions(s, m, base, ts);
    SteppedAnnounced(s, m, base, ts);
  }

  lemma SteppedVersions(s: State, m: Lifecycle, base: Account, ts: i64)
    requires base.version + 1 < TWO64 && Head(s, base.id) == Some(base)
    ensures var t := Stepped(s, m, base, ts);
      forall a, v :: HasVersion(t, a, v) <==> HasVersion(s, a, v) || (a == base.id && v == base.version + 1)
  {
    var t := Stepped(s, m, base, ts);
    forall a, v
      ensures HasVersion(t, a, v) <==> HasVersion(s, a, v) || (a == base.id && v == base.version + 1)
    {
      if a == base.id {
        var log := s.accounts[a];
        assert t.accounts[a][|log|] == Mutated(m, base);
        if HasVersion(s, a, v) {
          var k :| 1 <= k < |log| && log[k].version == v;
          assert t.accounts[a][k].version == v;
        }
      }
    }
  }

  lemma SteppedAnnounced(s: State, m: Lifecycle, base: Account, ts: i64)
    requires VersionsAnnounced(s) && base.version + 1 < TWO64 && Head(s, base.id) == Some(base)
    ensures VersionsAnnounced(Stepped(s, m, base, ts))
  {
    var t := Stepped(s, m, base, ts);
    forall a, k | a in t.accounts && 1 <= k < |t.accounts[a]| ensures Announced(t, a, k) {
      if a == base.id && k == |s.accounts[a]| {
        assert Describes(t.events[|s.events|].kind, t.accounts[a][k - 1], t.accounts[a][k]);
      } else {
        AnnouncedKept(s, t, a, k);
      }
    }
  }

  lemma SteppedKeepsInv(s: State, m: Lifecycle, base: Account, ts: i64)
    requires Inv(s) && base.version + 1 < TWO64 && Head(s, base.id) == Some(base) && !base.IsClosed()
    ensures Inv(Stepped(s, m, base, ts)) && Grows(s, Stepped(s, m, base, ts))
  {
    SteppedKeepsRest(s, m, base, ts);
    SteppedKeepsRows(s, m, base, ts);
    hide TablesOk, ProvenanceOk, SpentOk, IndexOk, SumsOk, AccountsOk, OwnershipOk, EventsOk, RowsKept, LogsKept, SpentKept, ClosedKept;
  }

  lemma SteppedKeepsRest(s: State, m: Lifecycle, base: Account, ts: i64)
    requires Inv(s) && base.version + 1 < TWO64 && Head(s, base.id) == Some(base) && !base.IsClosed()
    ensures var t := Stepped(s, m, base, ts); AccountsOk(t) && OwnershipOk(t) && EventsOk(t) && LogsKept(s, t)
  {
    SteppedAccounts(s, m, base, ts);
    SteppedEvents(s, m, base, ts);
    hide AccountsOk, OwnershipOk, EventsOk, LogsKept;
  }

  lemma SteppedKeepsRows(s: State, m: Lifecycle, base: Account, ts: i64)
    requires Inv(s) && base.version + 1 < TWO64 && Head(s, base.id) == Some(base) && !base.IsClosed()
    ensures var t := Stepped(s, m, base, ts);
      && TablesOk(t) && ProvenanceOk(t) && SpentOk(t) && IndexOk(t) && SumsOk(t)
      && RowsKept(s, t) && SpentKept(s, t) && ClosedKept(s, t)
  {
    var t := Stepped(s, m, base, ts);
    hide ProvenanceOk, SpentOk, IndexOk, SumsOk, AccountsOk, OwnershipOk, EventsOk, TablesOk, RowsKept, SpentKept, ClosedKept, Live;
    SteppedTables(s, t, base);
    assert SamePostings(s, t) by { SameLive(s, t); }
    SamePostingsOk(s, t);
  }

  lemma SameLive(s: State, t: State)
    requires t.active == s.active && t.reserved == s.reserved
    ensures Live(t) == Live(s)
  {
  }

  /** Only one account's history and the event log grew. */
  lemma SteppedTables(s: State, t: State, base: Account)
    requires TablesOk(s) && Head(s, base.id) == Some(base) && !base.IsClosed()
    requires t == s.(accounts := t.accounts, events := t.events) && s.events <= t.events
    requires forall a :: a in s.accounts && a != base.id ==> a in t.accounts && t.accounts[a] == s.accounts[a]
    ensures TablesOk(t) && RowsKept(s, t) && SpentKept(s, t) && ClosedKept(s, t)
  {
    SameLive(s, t);
    hide Live;
  }

  /** Whatever it was computed from, a transition either changes nothing or appends
      one version to the head it was computed from, with its event. */
  lemma TransitionKeepsInv(past: seq<State>, m: Lifecycle, base: Account, ts: i64)
    requires History(past) && base.version + 1 < TWO64 && !base.IsClosed()
    requires exists q :: 0 <= q < |past| && Head(past[q], base.id) == Some(base)
    ensures var s := past[|past| - 1];
      var t := CommitTransition(s, Mutated(m, base), LedgerEvent(ts, EventFor(m, base.id, base.version + 1))).0;
      Inv(t) && Grows(s, t)
  {
    hide Inv, Grows, History, CommitTransition;
    var q :| 0 <= q < |past| && Head(past[q], base.id) == Some(base);
    BaseInLog(past, q, base);
    LatestInv(past);
    TransitionFromLog(past[|past| - 1], m, base, ts);
  }

  lemma TransitionFromLog(s: State, m: Lifecycle, base: Account, ts: i64)
    requires Inv(s) && base.version + 1 < TWO64 && !base.IsClosed()
    requires base.id in s.accounts && base in s.accounts[base.id]
    ensures var t := CommitTransition(s, Mutated(m, base), LedgerEvent(ts, EventFor(m, base.id, base.version + 1))).0;
      Inv(t) && Grows(s, t)
  {
    hide Grows, SpentOk, SumsOk, ProvenanceOk, IndexOk, OwnershipOk, AccountsOk, EventsOk, TablesOk;
    var event := LedgerEvent(ts, EventFor(m, base.id, base.version + 1));
    var head := Head(s, base.id).value;
    GrowsRefl(s);
    if !head.IsClosed() {
      if head.version >= base.version + 1 {
        assert VersionsMentioned(s) by { EventParts(s); }
        ReplayedTransition(s, base, m, event);
      } else if head.version == base.version {
        LandedOnHead(s, base);
        SteppedEvents(s, m, base, ts);
        SteppedKeepsInv(s, m, base, ts);
      }
    }
  }

  lemma EventParts(s: State)
    requires EventsOk(s)
    ensures VersionsMentioned(s)
  {
  }

  // ----- every run -----

  lemma StepKeepsInv(digest: Digest, past: seq<State>, step: Step, s': State)
    requires past != [] && StepTo(digest, past, step, s') && History(past)
    ensures Inv(s') && Grows(past[|past| - 1], s')
  {
    hide Inv, Grows, Acceptable, LoadedFrom, Commits, History;
    hide CreateAccount, AppendEvent, Reserve, Release, CreateBook, AppendProjection, CommitTransition;
    var s := past[|past| - 1];
    LatestInv(past);
    match step
    case DoCommit(e, l, ts) => CommitStepKeepsInv(digest, past, e, l, ts, s');
    case DoTransition(m, base, ts) => TransitionKeepsInv(past, m, base, ts);
    case DoCreateAccount(account) => CreateAccountKeepsInv(s, account);
    case DoAppendCreated(a, ts) => AppendCreatedKeepsInv(s, LedgerEvent(ts, AccountCreated(a)));
    case DoReserve(ids, rid) => HoldKeepsInv(s, ids, rid);
    case DoRelease(ids, rid) => HoldKeepsInv(s, ids, rid);
    case DoCreateBook(book) => BookKeepsInv(s, book);
    case DoCachePoint(a, asset, p) => CachePointKeepsInv(s, a, asset, p);
  }

  lemma LogParts(s: State)
    requires Inv(s)
    ensures SpentOk(s) && ProvenanceOk(s) && TablesOk(s)
  {
  }

  lemma LaterGrows(s: State, t: State, u: State)
    requires Inv(s) && Inv(t) && Inv(u) && Grows(s, t) && Grows(t, u)
    ensures Grows(s, u)
  {
    LogParts(s);
    LogParts(t);
    LogParts(u);
    hide Inv;
    GrowsTrans(s, t, u);
  }

  lemma LatestInv(past: seq<State>)
    requires History(past)
    ensures Inv(past[|past| - 1])
  {
    hide Inv, Grows;
  }

  lemma BookKeepsInv(s: State, book: Book)
    requires Inv(s)
    ensures Inv(CreateBook(s, book).0) && Grows(s, CreateBook(s, book).0)
  {
    hide Inv, Grows;
    AsideKeepsInv(s, CreateBook(s, book).0);
  }

  lemma CachePointKeepsInv(s: State, a: AccountId, asset: AssetId, p: BalanceProjection)
    requires Inv(s)
    ensures Inv(AppendProjection(s, a, asset, p)) && Grows(s, AppendProjection(s, a, asset, p))
  {
    hide Inv, Grows;
    AsideKeepsInv(s, AppendProjection(s, a, asset, p));
  }

  lemma HoldKeepsInv(s: State, ids: seq<PostingId>, rid: ReservationId)
    requires Inv(s)
    ensures Inv(Reserve(s, ids, rid).0) && Grows(s, Reserve(s, ids, rid).0)
    ensures Inv(Release(s, ids, rid).0) && Grows(s, Release(s, ids, rid).0)
  {
    hide Grows, SpentOk, SumsOk, ProvenanceOk, IndexOk, OwnershipOk, AccountsOk, EventsOk, TablesOk, SameLedger;
    ReserveSame(s, ids, rid);
    SameKeepsInv(s, Reserve(s, ids, rid).0);
    ReleaseSame(s, ids, rid);
    SameKeepsInv(s, Release(s, ids, rid).0);
  }

  /** Books and cache points are beside the ledger's own tables. */
  lemma AsideKeepsInv(s: State, s': State)
    requires Inv(s) && s' == s.(books := s'.books, projections := s'.projections)
    ensures Inv(s') && Grows(s, s')
  {
    hide Grows, SpentOk, SumsOk, ProvenanceOk, IndexOk, OwnershipOk, AccountsOk, EventsOk;
    SameKeepsInv(s, s');
  }

  lemma CommitStepKeepsInv(digest: Digest, past: seq<State>, e: Envelope, l: Loaded, ts: i64, s': State)
    requires past != [] && StepTo(digest, past, DoCommit(e, l, ts), s') && History(past)
    ensures Inv(s') && Grows(past[|past| - 1], s')
  {
    hide Inv, Grows, Acceptable, PlanSound, LoadedFrom, History;
    var s, req := past[|past| - 1], RequestOf(digest, e, l, ts);
    LatestInv(past);
    CommitStepReady(digest, past, e, l, ts, s');
    var r :| Commits(s, req, s', r);
    CommitKeepsInv(s, req, s', r);
  }

  /** A commit step either changes nothing or applies a plan that is ready. */
  lemma CommitStepReady(digest: Digest, past: seq<State>, e: Envelope, l: Loaded, ts: i64, s': State)
    requires past != [] && StepTo(digest, past, DoCommit(e, l, ts), s') && History(past)
    ensures var s, req := past[|past| - 1], RequestOf(digest, e, l, ts);
      && (Guard(s, req).None? ==> Ready(s, req))
      && (s' == s || (Guard(s, req).None? && s' == Applied(s, req)))
  {
    hide Inv, Grows, Acceptable, PlanSound, LoadedFrom, History;
    var s, req := past[|past| - 1], RequestOf(digest, e, l, ts);
    StalePlanSound(digest, past, e, l);
    var r :| Commits(s, req, s', r);
    if Guard(s, req).None? {
      DoubleSpendPassed(s, req.consume);
      assert Ready(s, req);
    }
  }

  lemma EmptyInv()
    ensures Inv(EMPTY)
  {
    forall sl: Slice ensures LiveSum(EMPTY, sl) == Total(Deltas(EMPTY, sl)) {
      assert Weights(sl, Live(EMPTY)) == map[] && Deltas(EMPTY, sl) == map[];
    }
  }

  lemma HistoryGrows(past: seq<State>, s': State)
    requires History(past) && Inv(s') && Grows(past[|past| - 1], s')
    ensures History(past + [s'])
  {
    GrowsRefl(s');
    forall i | 0 <= i < |past| ensures Grows(past[i], s') {
      GrowsTrans(past[i], past[|past| - 1], s');
    }
  }

  lemma {:induction false} RunHistory(digest: Digest, states: seq<State>, steps: seq<Step>, n: nat)
    requires IsRun(digest, states, steps) && n < |states|
    ensures History(states[..n + 1])
  {
    hide Inv, Grows, StepTo;
    if n == 0 {
      EmptyInv();
      GrowsRefl(EMPTY);
    } else {
      RunHistory(digest, states, steps, n - 1);
      assert StepTo(digest, states[..n], steps[n - 1], states[n]);
      StepKeepsInv(digest, states[..n], steps[n - 1], states[n]);
      HistoryGrows(states[..n], states[n]);
      assert states[..n] + [states[n]] == states[..n + 1];
    }
  }

  /** In every state of every interleaving the invariant holds, and from any state to
      any later one immutable rows, stored transfers, account versions and events are
      kept, spent postings stay spent and closed accounts stay as they are. */
  lemma RunSafe(digest: Digest, states: seq<State>, steps: seq<Step>, i: nat, j: nat)
    requires IsRun(digest, states, steps) && i <= j < |states|
    ensures Inv(states[i]) && Inv(states[j]) && Grows(states[i], states[j])
  {
    hide Inv, Grows;
    RunHistory(digest, states, steps, j);
    assert states[..j + 1][i] == states[i] && states[..j + 1][j] == states[j];
  }
}

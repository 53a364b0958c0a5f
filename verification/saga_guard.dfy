/** Which legs a caller may pass to `run_movements` for it to be all or nothing: guards on the
    legs and on the state before the call (crates/kuatia/src/saga.rs). */
module SagaGuard {
  import opened Wrappers
  import opened Domain
  import opened Amounts
  import opened Store
  import opened Canonical
  import opened Runs
  import opened RunProofs
  import opened Validate
  import opened Resolution
  import opened ResolutionTheorems
  import opened LedgerOps
  import opened Intents
  import opened Saga
  import opened SagaTheorems
  import opened Totals
  import Balance

  // ----- the envelope of a leg that consumes nothing -----

  /** What a leg is resolved to when it consumes no posting: its credits, and the whole amount
      as a debt of the payer if it pays a positive one. */
  function Bare(leg: Leg): Envelope
    requires Build(leg).Ok?
  {
    var debt := if leg.Pay? && leg.amount > 0 then [Offset(Debit(Payer(leg), leg.amount), -(leg.amount as int))] else [];
    Envelope([], Credits(Build(leg).value.movements) + debt, [], DEFAULT_BOOK, [])
  }

  /** The content hash that envelope has in a state. */
  function BareId(digest: Digest, s: State, leg: Leg): Option<EnvelopeId>
    requires Build(leg).Ok?
  {
    match WithSnapshots(digest, s, Bare(leg))
    case None => None
    case Some(e) => Some(EnvelopeIdOf(digest, e))
  }

  /** The leg's consume-nothing form is already in the log. */
  predicate Logged(digest: Digest, s: State, leg: Leg) {
    Build(leg).Ok? && BareId(digest, s, leg).Some? && BareId(digest, s, leg).value in s.transfers
  }

  /** No leg repeats, to the letter, a transfer in the log that consumed nothing: a caller can
      look the hashes up beforehand. */
  predicate Unlogged(digest: Digest, s: State, legs: seq<Leg>) { forall i :: 0 <= i < |legs| ==> !Logged(digest, s, legs[i]) }

  /** Covering a positive debit from enough postings takes one. */
  lemma CoveredTakes(d: Debit, avail: seq<Posting>, mayOverdraw: bool)
    requires d.amount > 0 && Cover(d, avail, mayOverdraw).Ok? && SumValues(Positives(avail)) >= d.amount
    ensures Cover(d, avail, mayOverdraw).value.consumed != []
  {
    hide RunningFits, LargestFirst, Positives;
    var cs := LargestFirst(Positives(avail));
    assert cs != [];
    assert Taken(cs, d.amount, 0) >= 1;
  }

  lemma BareCover(d: Debit, avail: seq<Posting>, mayOverdraw: bool)
    requires d.amount > 0 && Cover(d, avail, mayOverdraw).Ok? && Cover(d, avail, mayOverdraw).value.consumed == []
    ensures Cover(d, avail, mayOverdraw).value.created == [Offset(d, -(d.amount as int))]
  {
    assert SumValues(Positives(avail)) < d.amount by { NotCovered(d, avail, mayOverdraw); }
    hide RunningFits, LargestFirst;
  }

  lemma NotCovered(d: Debit, avail: seq<Posting>, mayOverdraw: bool)
    requires d.amount > 0 && Cover(d, avail, mayOverdraw).Ok? && Cover(d, avail, mayOverdraw).value.consumed == []
    ensures SumValues(Positives(avail)) < d.amount
  {
    hide Cover;
    if SumValues(Positives(avail)) >= d.amount { CoveredTakes(d, avail, mayOverdraw); }
  }

  /** The debits of a leg. */
  lemma LegDebits(leg: Leg, draft: MovementDraft)
    requires Build(leg).Ok? && DraftOf(Build(leg).value.movements, draft)
    ensures draft.debits == if leg.Pay? && leg.amount > 0 then [Debit(Payer(leg), leg.amount)] else []
    ensures draft.creates == Credits(Build(leg).value.movements)
  {
    hide NetDebit, Build, Credit;
    var ms, ds := Build(leg).value.movements, draft.debits;
    forall i | 0 <= i < |ds| ensures leg.Pay? && ds[i] == Debit(Payer(leg), leg.amount) && leg.amount > 0 {
      assert ds[i].amount == NetDebit(ms, ds[i].key) > 0;
      BuildMoves(leg, ds[i].key);
    }
    assert |ds| > 1 ==> Resolution.KeyLess(ds[0].key, ds[1].key);
    assert !Resolution.KeyLess(Payer(leg), Payer(leg));
    BuildMoves(leg, Payer(leg));
    assert leg.Pay? && leg.amount > 0 ==> NetDebit(ms, Payer(leg)) > 0;
  }

  /** A leg that was resolved to an envelope consuming nothing was resolved to its bare form. */
  lemma CarriesBare(digest: Digest, s: State, leg: Leg, e: Envelope)
    requires Carries(digest, s, leg, e) && e.consumes == []
    ensures WithSnapshots(digest, s, Bare(leg)) == Some(e)
  {
    var t := Build(leg).value;
    var draft, av, accounts :| DraftOf(t.movements, draft) && IntentLoaded(s, draft, av, accounts)
      && Resolved(t, draft, av, accounts) == Ok(e.(snapshots := []))
      && SnapshotsOf(digest, s, CreateOwners(e)) == Some(e.snapshots);
    hide IntentLoaded, DraftOf, SnapshotsOf, CreateOwners;
    LegDebits(leg, draft);
    ResolvedBare(leg, draft, av, accounts, e.(snapshots := []));
    SameCreateOwners(e, Bare(leg));
  }

  lemma SameCreateOwners(e: Envelope, f: Envelope)
    requires e.creates == f.creates
    ensures CreateOwners(e) == CreateOwners(f)
  {
  }

  lemma ResolvedBare(leg: Leg, draft: MovementDraft, av: Availability, accounts: Accounts, e: Envelope)
    requires Build(leg).Ok? && Resolved(Build(leg).value, draft, av, accounts) == Ok(e) && e.consumes == []
    requires draft.debits == if leg.Pay? && leg.amount > 0 then [Debit(Payer(leg), leg.amount)] else []
    requires draft.creates == Credits(Build(leg).value.movements)
    ensures e == Bare(leg)
  {
    var sel := CoverAll(draft.debits, av, accounts).value;
    assert sel.consumed == [];
    if leg.Pay? && leg.amount > 0 {
      var d := Debit(Payer(leg), leg.amount);
      SingleCovered(d, av, accounts);
      BareCover(d, Available(av, d.key), MayOverdraw(accounts, d.key.account));
    }
  }

  lemma SingleCovered(d: Debit, av: Availability, accounts: Accounts)
    requires CoverAll([d], av, accounts).Ok?
    ensures CoverAll([d], av, accounts) == CoverIn(d, av, accounts)
  {
    hide CoverIn;
    assert [d][..0] == [];
    assert CoverAll([d][..0], av, accounts) == Ok(Selection([], []));
    CoverSingle(d, av, accounts);
  }

  // ----- a leg is answered from the log only if it consumes nothing -----

  lemma SomeMember(ids: seq<PostingId>) returns (id: PostingId)
    ensures ids == [] || id in ids
  {
    id :| ids == [] || id == ids[0];
  }

  lemma OfferedActive(s: State, draft: MovementDraft, av: Availability, accounts: Accounts, i: nat, p: Posting)
    requires IntentLoaded(s, draft, av, accounts) && i < |draft.debits| && p in Available(av, draft.debits[i].key)
    ensures p.id in s.active
  {
    assert Offers(s, draft.debits[i].key, av[draft.debits[i].key]);
  }

  /** A resolved leg consumes active postings. */
  lemma CarriesActive(digest: Digest, s: State, leg: Leg, e: Envelope, id: PostingId)
    requires Carries(digest, s, leg, e) && id in e.consumes
    ensures id in s.active
  {
    hide DraftOf, SnapshotsOf, CreateOwners, CoverAll, IntentLoaded, Available;
    var t := Build(leg).value;
    var draft, av, accounts :| DraftOf(t.movements, draft) && IntentLoaded(s, draft, av, accounts)
      && Resolved(t, draft, av, accounts) == Ok(e.(snapshots := []))
      && SnapshotsOf(digest, s, CreateOwners(e)) == Some(e.snapshots);
    var sel := CoverAll(draft.debits, av, accounts).value;
    ConsumedOffered(draft.debits, av, accounts);
    var j :| 0 <= j < |e.consumes| && e.consumes[j] == id;
    var p := sel.consumed[j];
    assert p in sel.consumed && p.id == id;
    var i :| 0 <= i < |draft.debits| && p in Available(av, draft.debits[i].key);
    OfferedActive(s, draft, av, accounts, i, p);
  }

  lemma ConsumedGone(s: State, t: EnvelopeId)
    requires TablesOk(s) && SpentOk(s) && t in s.transfers
    ensures forall id :: id in Consumes(s, t) ==> id !in s.active
  {
    LiveRows(s);
    hide TablesOk, Live;
  }

  /** What the log holds under the hash of a leg that consumes something would have consumed
      it: only a leg that consumes nothing is answered from the log. */
  lemma LoggedConsumesNothing(digest: Digest, s: State, leg: Leg, e: Envelope)
    requires Inv(s) && Carries(digest, s, leg, e) && Genuine(digest, s, e) && EnvelopeIdOf(digest, e) in s.transfers
    ensures e.consumes == [] && Consumes(s, EnvelopeIdOf(digest, e)) == []
  {
    LogParts(s);
    hide Inv, ProvenanceOk, TablesOk, SpentOk, Carries, Genuine, EnvelopeIdOf;
    SameIdSameContent(digest, s, e);
    ConsumedGone(s, EnvelopeIdOf(digest, e));
    forall id | id in e.consumes ensures id in s.active {
      CarriesActive(digest, s, leg, e, id);
    }
    var _ := SomeMember(e.consumes);
  }

  /** A leg answered from the log consumes nothing, and neither did the transfer that answers. */
  lemma ReplayedIsBare(digest: Digest, legs: seq<Leg>, tr: Trace, k: nat)
    requires Whole(tr) && Advanced(digest, legs, tr) && Inv(tr.forward[0]) && LegsGenuine(digest, legs, tr)
    requires k < |tr.receipts| <= |legs| && !New(tr, k)
    ensures Build(legs[k]).Ok? && BareId(digest, tr.forward[0], legs[k]) == Some(Tid(tr, k))
    ensures Tid(tr, k) in tr.forward[k + 1].transfers && Consumes(tr.forward[k + 1], Tid(tr, k)) == []
  {
    hide Inv, Grows, Advanced, LegCommitted, Genuine, Carries, Recorded, EnvelopeIdOf, WithSnapshots, Bare;
    var s := tr.forward[k];
    ForwardKeeps(digest, legs, tr, k, k);
    LegOf(digest, legs, tr, k);
    LegStays(digest, legs, tr, k);
    var e := CommittedLands(digest, s, legs[k], tr.forward[k + 1], tr.receipts[k]);
    LoggedConsumesNothing(digest, s, legs[k], e);
    CarriedBuilds(digest, s, legs[k], e);
    CarriesBare(digest, s, legs[k], e);
    SamePins(digest, tr.forward[0], s, Bare(legs[k]));
  }

  lemma CarriedBuilds(digest: Digest, s: State, leg: Leg, e: Envelope)
    requires Carries(digest, s, leg, e)
    ensures Build(leg).Ok?
  {
  }

  /** The guard misses nothing: a leg that cannot consume, whose bare form was in the log, is
      answered from it. */
  lemma LoggedIsReplayed(digest: Digest, legs: seq<Leg>, tr: Trace, k: nat)
    requires Whole(tr) && Advanced(digest, legs, tr) && Inv(tr.forward[0]) && k < |tr.receipts| <= |legs|
    requires Logged(digest, tr.forward[0], legs[k]) && !(legs[k].Pay? && legs[k].amount > 0)
    ensures !New(tr, k) && Some(Tid(tr, k)) == BareId(digest, tr.forward[0], legs[k])
  {
    hide Inv, Grows, Advanced, LegCommitted, Carries, Landed, Recorded, EnvelopeIdOf, WithSnapshots, Bare;
    var s := tr.forward[k];
    ForwardKeeps(digest, legs, tr, 0, k);
    LegOf(digest, legs, tr, k);
    var e := CommittedLands(digest, s, legs[k], tr.forward[k + 1], tr.receipts[k]);
    CarriedTouches(digest, s, legs[k], e);
    var _ := SomeMember(e.consumes);
    CarriesBare(digest, s, legs[k], e);
    SamePins(digest, tr.forward[0], s, Bare(legs[k]));
    TransferKept(tr.forward[0], s, Tid(tr, k));
  }

  // ----- the reversals are small -----

  function LiveIn(s: State, k: Key): set<PostingId> { set id | id in Live(s) && Key(Live(s)[id].owner, Live(s)[id].asset) == k }

  /** No positive payment draws on a holding of more than 65536 postings. */
  predicate FewLive(s: State, legs: seq<Leg>) {
    forall i :: 0 <= i < |legs| && legs[i].Pay? && legs[i].amount > 0 ==> |LiveIn(s, Payer(legs[i]))| <= TWO16
  }

  lemma {:induction false} DistinctCard(ids: seq<PostingId>, all: set<PostingId>)
    requires Distinct(ids) && forall id :: id in ids ==> id in all
    ensures |ids| <= |all|
  {
    if ids != [] {
      var n := |ids| - 1;
      assert ids[n] !in ids[..n];
      DistinctCard(ids[..n], all - {ids[n]});
    }
  }

  /** What is live in the payer's holding when an independent leg's turn comes was live there
      at the start. */
  lemma LiveFromStart(digest: Digest, legs: seq<Leg>, tr: Trace, m: nat, id: PostingId)
    requires Whole(tr) && Advanced(digest, legs, tr) && Inv(tr.forward[0]) && m < |tr.receipts| <= |legs| && Independent(legs)
    requires legs[m].Pay? && legs[m].amount > 0 && id in LiveIn(tr.forward[m], Payer(legs[m]))
    ensures id in LiveIn(tr.forward[0], Payer(legs[m]))
  {
    hide Inv, Grows, Advanced, New;
    ForwardKeeps(digest, legs, tr, 0, m);
    RowOfLive(tr.forward[m], id);
    if id.transfer !in tr.forward[0].transfers {
      var k := FiledBy(digest, legs, tr, m, id.transfer);
      CreatedByLeg(digest, legs, tr, k, m, id);
    } else {
      OldLive(tr.forward[0], tr.forward[m], id);
    }
  }

  lemma RowOfLive(s: State, id: PostingId)
    requires Inv(s) && id in Live(s)
    ensures id in s.immutable && Live(s)[id] == s.immutable[id] && id.transfer in s.transfers
  {
    LogParts(s);
    LiveRows(s);
  }

  /** A row of a stored transfer that is live later was live before. */
  lemma OldLive(s: State, s': State, id: PostingId)
    requires Inv(s) && Inv(s') && Grows(s, s') && id in Live(s') && id.transfer in s.transfers
    ensures id in Live(s) && Live(s)[id] == Live(s')[id]
  {
    hide Inv, Grows, Live, ProvenanceOk, TablesOk, SpentOk;
    RowOfLive(s', id);
    LogParts(s);
    LogParts(s');
    TransferKept(s, s', id.transfer);
    RowIndexed(s, s', id);
    NotSpent(s, s', id);
    RowOfLive(s, id);
    RowStays(s, s', id);
  }

  /** Its transfer was stored, so the row was there. */
  lemma RowIndexed(s: State, s': State, id: PostingId)
    requires ProvenanceOk(s) && ProvenanceOk(s') && id in s'.immutable
    requires id.transfer in s.transfers && id.transfer in s'.transfers && s'.transfers[id.transfer] == s.transfers[id.transfer]
    ensures id in s.immutable
  {
    assert CreatedBy(s, id.transfer, id.index);
  }

  lemma NotSpent(s: State, s': State, id: PostingId)
    requires Grows(s, s') && id in s.immutable && id in Live(s')
    ensures id in Live(s)
  {
    hide Live, RowsKept, LogsKept, ClosedKept;
  }

  /** A transfer that was not in the log at the start was filed by a new leg. */
  lemma {:induction false} FiledBy(digest: Digest, legs: seq<Leg>, tr: Trace, m: nat, t: EnvelopeId) returns (k: nat)
    requires Whole(tr) && Advanced(digest, legs, tr) && Inv(tr.forward[0]) && m <= |tr.receipts|
    requires t !in tr.forward[0].transfers && t in tr.forward[m].transfers
    ensures k < m && New(tr, k) && Tid(tr, k) == t
  {
    hide Inv, Grows, Advanced, LegCommitted, Recorded;
    LegStays(digest, legs, tr, m - 1);
    if t in tr.forward[m - 1].transfers {
      k := FiledBy(digest, legs, tr, m - 1, t);
    } else {
      k := m - 1;
      RecordedEffect(digest, tr.forward[k], tr.forward[m].transfers[Tid(tr, k)].envelope, tr.forward[m]);
    }
  }

  lemma NewConsumesFew(digest: Digest, legs: seq<Leg>, tr: Trace, k: nat)
    requires Whole(tr) && Advanced(digest, legs, tr) && Inv(tr.forward[0]) && k < |tr.receipts| <= |legs|
    requires Independent(legs) && FewLive(tr.forward[0], legs) && New(tr, k)
    ensures Tid(tr, k) in tr.forward[k + 1].transfers && |Consumes(tr.forward[k + 1], Tid(tr, k))| <= TWO16
  {
    hide Inv, Grows, Advanced, LegCommitted, Recorded, Landed, Independent, LiveIn;
    LegOf(digest, legs, tr, k);
    LegStays(digest, legs, tr, k);
    var s, s', t := tr.forward[k], tr.forward[k + 1], Tid(tr, k);
    CommittedTouches(digest, s, legs[k], s', tr.receipts[k]);
    if Consumes(s', t) != [] {
      assert Consumes(s', t)[0] in Consumes(s', t);
      forall id | id in Consumes(s', t) ensures id in LiveIn(tr.forward[0], Payer(legs[k])) {
        ConsumedLive(digest, s, t, s', legs[k], id);
        LiveFromStart(digest, legs, tr, k, id);
      }
      LogParts(s');
      DistinctCard(Consumes(s', t), LiveIn(tr.forward[0], Payer(legs[k])));
    }
  }

  lemma ConsumedLive(digest: Digest, s: State, t: EnvelopeId, s': State, leg: Leg, id: PostingId)
    requires Inv(s) && Landed(digest, s, t, s') && LegTouches(s.immutable, leg, s'.transfers[t].envelope) && id in Consumes(s', t)
    ensures id in LiveIn(s, Payer(leg))
  {
    RecordedEffect(digest, s, s'.transfers[t].envelope, s');
    LogParts(s);
    hide Inv, Recorded, SpentOk, ProvenanceOk;
    LiveRows(s);
  }

  /** So the reversals of independent legs fit. */
  lemma ReversalsFit(digest: Digest, legs: seq<Leg>, tr: Trace)
    requires Whole(tr) && Advanced(digest, legs, tr) && Inv(tr.forward[0]) && LegsGenuine(digest, legs, tr) && |tr.receipts| <= |legs|
    requires Independent(legs) && FewLive(tr.forward[0], legs)
    ensures ReversalsSmall(tr)
  {
    hide Inv, Advanced, LegsGenuine, Independent, FewLive, New, BareId;
    forall k | 0 <= k < |tr.receipts|
      ensures Tid(tr, k) in tr.forward[k + 1].transfers && |Consumes(tr.forward[k + 1], Tid(tr, k))| <= TWO16
    {
      if New(tr, k) {
        NewConsumesFew(digest, legs, tr, k);
      } else {
        ReplayedIsBare(digest, legs, tr, k);
      }
    }
  }

  // ----- all or nothing -----

  /** The run answered with an original error, and no hash it met collided. */
  ghost predicate Stopped(digest: Digest, s: State, legs: seq<Leg>, tr: Trace, s': State, err: LedgerError) {
    && Failed(digest, s, legs, tr, s', err) && !err.CompensationFailed?
    && (Whole(tr) ==> LegsGenuine(digest, legs, tr)) && (Shaped(tr) ==> AllGenuine(digest, legs, tr))
  }

  /** What independent legs leave after an original error: every balance is its start less what
      the older transfers had moved that a leg repeated and nothing had consumed from. */
  lemma IndependentBalance(digest: Digest, s: State, legs: seq<Leg>, tr: Trace, s': State, err: LedgerError, sl: Slice)
    requires Inv(s) && Buildable(legs) && Independent(legs) && FewLive(s, legs) && Stopped(digest, s, legs, tr, s', err)
    ensures Whole(tr) && LiveSum(s', sl) == LiveSum(s, sl) - MovedBy(tr, sl, UnspentOld(tr))
  {
    hide Inv, Failed, Advanced, Compensated, ReversalsSmall, AllGenuine, LegsGenuine, LiveSum, MovedBy, UnspentOld, Independent, FewLive;
    FailedAdvanced(digest, s, legs, tr, s', err);
    OriginalErrorCompensated(digest, s, legs, tr, s', err);
    ReversalsFit(digest, legs, tr);
    CompensationLeaves(digest, legs, tr, sl);
    NothingReused(digest, legs, tr);
    MovedNone(tr, sl);
  }

  lemma NothingReused(digest: Digest, legs: seq<Leg>, tr: Trace)
    requires Whole(tr) && Advanced(digest, legs, tr) && Inv(tr.forward[0]) && |tr.receipts| <= |legs| && Independent(legs)
    ensures SpentNew(tr) == {}
  {
    hide Inv, Advanced, Independent, Unspent;
    forall t | t in NewIds(tr, |tr.receipts|) ensures Unspent(Last(tr), t) {
      var k :| 0 <= k < |tr.receipts| && New(tr, k) && Tid(tr, k) == t;
      IndependentNotReused(digest, legs, tr, k);
    }
  }

  /** Only what was logged before the call, in a leg's bare form, can be taken back beside it. */
  lemma OldIsLogged(digest: Digest, legs: seq<Leg>, tr: Trace, t: EnvelopeId) returns (k: nat)
    requires Whole(tr) && Advanced(digest, legs, tr) && Inv(tr.forward[0]) && LegsGenuine(digest, legs, tr) && |tr.receipts| <= |legs|
    requires t in UnspentOld(tr)
    ensures k < |tr.receipts| && Tid(tr, k) == t && Logged(digest, tr.forward[0], legs[k])
    ensures BareId(digest, tr.forward[0], legs[k]) == Some(t)
  {
    hide Inv, Grows, Advanced, LegsGenuine, Unspent, BareId, NewIds, New;
    k :| 0 <= k < |tr.receipts| && Tid(tr, k) == t && t !in NewIds(tr, |tr.receipts|);
    NotFiled(digest, legs, tr, k);
    ReplayedIsBare(digest, legs, tr, k);
  }

  lemma NewIsIn(tr: Trace, k: nat)
    requires Whole(tr) && k < |tr.receipts|
    ensures New(tr, k) ==> Tid(tr, k) in NewIds(tr, |tr.receipts|)
  {
  }

  lemma FiledIsNew(digest: Digest, legs: seq<Leg>, tr: Trace, m: nat, t: EnvelopeId)
    requires Whole(tr) && Advanced(digest, legs, tr) && Inv(tr.forward[0]) && m <= |tr.receipts|
    requires t !in tr.forward[0].transfers && t in tr.forward[m].transfers
    ensures t in NewIds(tr, |tr.receipts|)
  {
    hide Inv, Advanced, New, NewIds;
    var k := FiledBy(digest, legs, tr, m, t);
    NewIsIn(tr, k);
  }

  /** A receipt of no new leg is of a transfer that was in the log at the start. */
  lemma NotFiled(digest: Digest, legs: seq<Leg>, tr: Trace, k: nat)
    requires Whole(tr) && Advanced(digest, legs, tr) && Inv(tr.forward[0]) && k < |tr.receipts| && Tid(tr, k) !in NewIds(tr, |tr.receipts|)
    ensures Tid(tr, k) in tr.forward[0].transfers && !New(tr, k)
  {
    hide Inv, Grows, Advanced, Landed, New, NewIds;
    NewIsIn(tr, k);
    LegStays(digest, legs, tr, k);
    if Tid(tr, k) !in tr.forward[0].transfers {
      FiledIsNew(digest, legs, tr, k + 1, Tid(tr, k));
    }
  }

  /** All or nothing, for legs a caller can check before the call: if every leg can be built,
      no payment draws on a holding an earlier leg touched or on one of more than 65536
      postings, and no leg repeats a logged transfer that consumed nothing, then an original
      error means that every balance is back at its start. */
  lemma AllOrNothing(digest: Digest, s: State, legs: seq<Leg>, tr: Trace, s': State, err: LedgerError, sl: Slice)
    requires Buildable(legs) && Independent(legs) && FewLive(s, legs) && Unlogged(digest, s, legs)
    requires Inv(s) && Stopped(digest, s, legs, tr, s', err)
    ensures LiveSum(s', sl) == LiveSum(s, sl)
  {
    hide Inv, Failed, Advanced, AllGenuine, LegsGenuine, LiveSum, MovedBy, UnspentOld, Independent, FewLive, Buildable, Logged;
    IndependentBalance(digest, s, legs, tr, s', err, sl);
    FailedAdvanced(digest, s, legs, tr, s', err);
    forall t ensures t !in UnspentOld(tr) {
      if t in UnspentOld(tr) {
        var k := OldIsLogged(digest, legs, tr, t);
      }
    }
    assert UnspentOld(tr) == {};
    MovedNone(tr, sl);
  }

  // ----- the exact condition -----

  /** Exactly when an original error means that every balance is back: what the older transfers
      that legs repeated had moved comes to nothing. */
  lemma AllOrNothingExactly(digest: Digest, s: State, legs: seq<Leg>, tr: Trace, s': State, err: LedgerError)
    requires Inv(s) && Buildable(legs) && Independent(legs) && FewLive(s, legs) && Stopped(digest, s, legs, tr, s', err)
    ensures Whole(tr) && (AllBack(s, s') <==> forall sl: Slice :: MovedBy(tr, sl, UnspentOld(tr)) == 0)
  {
    FailedAdvanced(digest, s, legs, tr, s', err);
    hide Inv, Stopped, LiveSum, MovedBy, UnspentOld, Independent, FewLive, Buildable;
    forall sl: Slice ensures LiveSum(s', sl) == LiveSum(s, sl) - MovedBy(tr, sl, UnspentOld(tr)) {
      IndependentBalance(digest, s, legs, tr, s', err, sl);
    }
  }

  /** No positive payment draws on a holding that another leg pays into or from. */
  predicate Disjoint(legs: seq<Leg>) {
    forall k, m :: 0 <= k < |legs| && 0 <= m < |legs| && k != m && legs[m].Pay? && legs[m].amount > 0 ==>
      Payer(legs[m]) != Payee(legs[k]) && Payer(legs[m]) != Payer(legs[k])
  }

  /** The transfers in the log that one of the first `n` legs repeats and nothing has consumed
      from: read off the legs and the state before the call. */
  ghost function Repeated(digest: Digest, s: State, legs: seq<Leg>, n: nat): set<EnvelopeId>
    requires n <= |legs|
  {
    set k | 0 <= k < n && Logged(digest, s, legs[k]) && Unspent(s, BareId(digest, s, legs[k]).value) :: BareId(digest, s, legs[k]).value
  }

  /** A stored transfer that answered a leg created its postings in that leg's holdings. */
  lemma ReplayedTouches(digest: Digest, legs: seq<Leg>, tr: Trace, k: nat, id: PostingId)
    requires Whole(tr) && Advanced(digest, legs, tr) && Inv(tr.forward[0]) && LegsGenuine(digest, legs, tr)
    requires k < |tr.receipts| <= |legs| && !New(tr, k) && id in Last(tr).immutable && id.transfer == Tid(tr, k)
    ensures Key(Last(tr).immutable[id].owner, Last(tr).immutable[id].asset) in {Payee(legs[k]), Payer(legs[k])}
  {
    hide Inv, Grows, Advanced, LegCommitted, Genuine, Carries, Recorded, EnvelopeIdOf, Landed;
    var s := tr.forward[k];
    ForwardKeeps(digest, legs, tr, k, k);
    LegOf(digest, legs, tr, k);
    LegStays(digest, legs, tr, k);
    var e := CommittedLands(digest, s, legs[k], tr.forward[k + 1], tr.receipts[k]);
    SameIdSameContent(digest, s, e);
    CarriedTouches(digest, s, legs[k], e);
    LogParts(Last(tr));
    CreatedRow(Last(tr), id);
  }

  /** Disjoint legs leave what was unspent at the start unspent. */
  lemma StaysUnspent(digest: Digest, legs: seq<Leg>, tr: Trace, k: nat)
    requires Whole(tr) && Advanced(digest, legs, tr) && Inv(tr.forward[0]) && LegsGenuine(digest, legs, tr)
    requires k < |tr.receipts| <= |legs| && !New(tr, k) && Disjoint(legs)
    requires Tid(tr, k) in tr.forward[0].transfers && Unspent(tr.forward[0], Tid(tr, k))
    ensures Unspent(Last(tr), Tid(tr, k))
  {
    hide Inv, Grows, Advanced, LegsGenuine, New;
    ForwardKeeps(digest, legs, tr, 0, |tr.receipts|);
    forall u, id | u in Last(tr).transfers && id in Consumes(Last(tr), u) ensures id.transfer != Tid(tr, k) {
      if u in tr.forward[0].transfers {
        TransferKept(tr.forward[0], Last(tr), u);
      } else {
        var m := FiledBy(digest, legs, tr, |tr.receipts|, u);
        ConsumedBy(digest, legs, tr, m, id);
        if id.transfer == Tid(tr, k) { ReplayedTouches(digest, legs, tr, k, id); }
      }
    }
  }

  lemma UnspentBefore(s: State, s': State, t: EnvelopeId)
    requires Grows(s, s') && Unspent(s', t)
    ensures Unspent(s, t)
  {
    forall u, id | u in s.transfers && id in Consumes(s, u) ensures id.transfer != t {
      TransferKept(s, s', u);
      assert id in Consumes(s', u);
    }
  }

  /** What disjoint legs take back beside their own is exactly what they repeat. */
  lemma TakesBackRepeated(digest: Digest, legs: seq<Leg>, tr: Trace)
    requires Whole(tr) && Advanced(digest, legs, tr) && Inv(tr.forward[0]) && LegsGenuine(digest, legs, tr) && |tr.receipts| <= |legs|
    requires Disjoint(legs) && forall i :: 0 <= i < |legs| && legs[i].Pay? && legs[i].amount > 0 ==> !Logged(digest, tr.forward[0], legs[i])
    ensures UnspentOld(tr) == Repeated(digest, tr.forward[0], legs, |tr.receipts|)
  {
    hide Inv, Grows, Advanced, LegsGenuine, Unspent, BareId, New, NewIds, Disjoint;
    var n := |tr.receipts|;
    forall t | t in UnspentOld(tr) ensures t in Repeated(digest, tr.forward[0], legs, n) {
      var k := OldIsLogged(digest, legs, tr, t);
      ForwardKeeps(digest, legs, tr, 0, n);
      UnspentBefore(tr.forward[0], Last(tr), t);
    }
    forall t | t in Repeated(digest, tr.forward[0], legs, n) ensures t in UnspentOld(tr) {
      var k :| 0 <= k < n && Logged(digest, tr.forward[0], legs[k]) && Unspent(tr.forward[0], t) && BareId(digest, tr.forward[0], legs[k]).value == t;
      LoggedIsReplayed(digest, legs, tr, k);
      StaysUnspent(digest, legs, tr, k);
      OldNotNew(digest, legs, tr, k);
      assert Tid(tr, k) == t;
    }
  }

  lemma OldNotNew(digest: Digest, legs: seq<Leg>, tr: Trace, k: nat)
    requires Whole(tr) && Advanced(digest, legs, tr) && Inv(tr.forward[0]) && k < |tr.receipts| && Tid(tr, k) in tr.forward[0].transfers
    ensures Tid(tr, k) !in NewIds(tr, |tr.receipts|)
  {
    hide Inv, Grows, Advanced;
    forall i | 0 <= i < |tr.receipts| && New(tr, i) ensures Tid(tr, i) != Tid(tr, k) {
      ForwardKeeps(digest, legs, tr, 0, i);
      TransferKept(tr.forward[0], tr.forward[i], Tid(tr, k));
    }
  }

  /** What a set of transfers stored before the run moved is the same at its start. */
  lemma MovedBefore(digest: Digest, legs: seq<Leg>, tr: Trace, sl: Slice, ids: set<EnvelopeId>)
    requires Whole(tr) && Advanced(digest, legs, tr) && Inv(tr.forward[0]) && forall t :: t in ids ==> t in tr.forward[0].transfers
    ensures MovedBy(tr, sl, ids) == Total(Balance.DeltasOf(tr.forward[0], sl, ids))
  {
    hide Inv, Grows, Advanced, Delta, Total;
    ForwardKeeps(digest, legs, tr, 0, |tr.receipts|);
    forall t | t in ids ensures t in Last(tr).transfers && Delta(Last(tr), t, sl) == Delta(tr.forward[0], t, sl) {
      DeltaStays(tr.forward[0], Last(tr), t, sl);
    }
    assert Balance.DeltasOf(Last(tr), sl, ids) == Balance.DeltasOf(tr.forward[0], sl, ids);
  }

  /** For disjoint legs the loss can be read off before the call: an original error after `n`
      committed legs leaves every balance short of exactly what the transfers those legs repeat
      had moved. */
  lemma RepeatsTakenBack(digest: Digest, s: State, legs: seq<Leg>, tr: Trace, s': State, err: LedgerError, sl: Slice)
    requires Inv(s) && Buildable(legs) && Disjoint(legs) && FewLive(s, legs) && Stopped(digest, s, legs, tr, s', err)
    requires forall i :: 0 <= i < |legs| && legs[i].Pay? && legs[i].amount > 0 ==> !Logged(digest, s, legs[i])
    ensures |tr.receipts| < |legs|
    ensures var repeated := Repeated(digest, s, legs, |tr.receipts|);
      LiveSum(s', sl) == LiveSum(s, sl) - Total(Balance.DeltasOf(s, sl, repeated))
  {
    hide Inv, Failed, Advanced, AllGenuine, LegsGenuine, LiveSum, MovedBy, UnspentOld, Unspent, Independent, FewLive, Buildable, BareId, Total;
    hide Balance.DeltasOf;
    FailedAdvanced(digest, s, legs, tr, s', err);
    DisjointIndependent(legs);
    hide Disjoint;
    IndependentBalance(digest, s, legs, tr, s', err, sl);
    TakesBackRepeated(digest, legs, tr);
    MovedBefore(digest, legs, tr, sl, Repeated(digest, s, legs, |tr.receipts|));
  }

  lemma DisjointIndependent(legs: seq<Leg>)
    requires Disjoint(legs)
    ensures Independent(legs)
  {
  }
}

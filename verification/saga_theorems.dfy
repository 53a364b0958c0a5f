/** What the answer of `run_movements` tells its caller, over both ways it can fail, and which
    legs a caller may pass for the all-or-nothing promise to hold (crates/kuatia/src/saga.rs). */
module SagaTheorems {
  import opened Wrappers
  import opened Domain
  import opened Amounts
  import opened Store
  import opened Runs
  import opened RunProofs
  import opened Validate
  import opened Resolution
  import opened LedgerOps
  import opened Intents
  import opened Saga
  import Filings

  // ----- a leg that cannot be built -----

  ghost predicate Failed(digest: Digest, s: State, legs: seq<Leg>, tr: Trace, s': State, err: LedgerError) {
    RunsLegs(digest, s, legs, tr, s', Err(err))
  }

  lemma FailedAdvanced(digest: Digest, s: State, legs: seq<Leg>, tr: Trace, s': State, err: LedgerError)
    requires Failed(digest, s, legs, tr, s', err)
    ensures Whole(tr) && Advanced(digest, legs, tr) && tr.forward[0] == s && |tr.receipts| < |legs|
  {
    hide Unwinds, LegCommitted;
  }

  /** A leg that cannot be built stops the run with no compensation at all: every balance
      keeps what the earlier legs newly recorded. */
  lemma UnbuildableLeg(digest: Digest, s: State, legs: seq<Leg>, tr: Trace, s': State, err: LedgerError, sl: Slice)
    requires Inv(s) && Failed(digest, s, legs, tr, s', err) && Whole(tr)
    requires Build(legs[|tr.receipts|]).Err?
    ensures s' == Last(tr) && err == AmountOverflow
    ensures LiveSum(s', sl) == LiveSum(s, sl) + MovedBy(tr, sl, NewIds(tr, |tr.receipts|))
  {
    FailedAdvanced(digest, s, legs, tr, s', err);
    UnbuildableStops(digest, s, legs, tr, s', err);
    hide Inv, Failed, Advanced, LiveSum, MovedBy;
    ForwardSum(digest, legs, tr, sl, |tr.receipts|);
  }

  lemma UnbuildableStops(digest: Digest, s: State, legs: seq<Leg>, tr: Trace, s': State, err: LedgerError)
    requires Failed(digest, s, legs, tr, s', err) && Whole(tr) && Build(legs[|tr.receipts|]).Err?
    ensures s' == Last(tr) && err == AmountOverflow
  {
    hide Unwinds, LegCommitted;
  }

  // ----- a commit that fails -----

  lemma CommitNeverCompensates(digest: Digest, s: State, t: Transfer, err: LedgerError)
    requires FailsToCommit(digest, s, t, err)
    ensures !err.CompensationFailed?
  {
    hide ResolvesTo, Refused, Submitted, SnapshotsOf, RefusesIntent;
  }

  /** The original error of a failed commit, rather than a compensation failure, means that
      every reversal answered with success. */
  lemma OriginalErrorCompensated(digest: Digest, s: State, legs: seq<Leg>, tr: Trace, s': State, err: LedgerError)
    requires Failed(digest, s, legs, tr, s', err) && !err.CompensationFailed?
    ensures Whole(tr) && Advanced(digest, legs, tr) && |tr.receipts| < |legs|
    ensures Build(legs[|tr.receipts|]).Ok? ==> Shaped(tr) && Compensated(digest, legs, tr) && tr.forward[0] == s && tr.backward[|tr.receipts|] == s'
  {
    hide LegCommitted, ReversedTo, FailsToCommit, FailsToReverse;
  }

  /** What an original error leaves moved: everything new, if the run stopped at a leg that
      could not be built; otherwise what was new and not taken back, less what was taken back
      and not new. */
  ghost function Left(legs: seq<Leg>, tr: Trace, sl: Slice): int
    requires Whole(tr) && |tr.receipts| < |legs|
  {
    var n := |tr.receipts|;
    if Build(legs[n]).Err? then MovedBy(tr, sl, NewIds(tr, n))
    else if Shaped(tr) then MovedBy(tr, sl, NewIds(tr, n) - TakenIds(tr, n)) - MovedBy(tr, sl, TakenIds(tr, n) - NewIds(tr, n))
    else 0
  }

  /** The exact balance after an original error, over both ways of failing. */
  lemma OriginalErrorBalance(digest: Digest, s: State, legs: seq<Leg>, tr: Trace, s': State, err: LedgerError, sl: Slice)
    requires Inv(s) && Failed(digest, s, legs, tr, s', err) && !err.CompensationFailed? && ReversalsSmall(tr) && |tr.receipts| < |legs|
    ensures LiveSum(s', sl) == LiveSum(s, sl) + Left(legs, tr, sl)
  {
    hide Inv, Failed, Advanced, Compensated, LiveSum, MovedBy, NewIds, TakenIds;
    OriginalErrorCompensated(digest, s, legs, tr, s', err);
    if Build(legs[|tr.receipts|]).Err? {
      UnbuildableLeg(digest, s, legs, tr, s', err, sl);
    } else {
      CompensationBalance(digest, legs, tr, sl);
    }
  }

  /** No leg is a deposit of the minimum amount, so every leg can be built. */
  predicate Buildable(legs: seq<Leg>) {
    forall i :: 0 <= i < |legs| ==> !(legs[i].Deposit? && legs[i].amount == -TWO63)
  }

  ghost predicate AllBack(s: State, s': State) { forall sl: Slice :: LiveSum(s', sl) == LiveSum(s, sl) }

  ghost predicate NothingLeft(tr: Trace)
    requires Whole(tr)
  {
    forall sl: Slice :: MovedBy(tr, sl, SpentNew(tr)) == MovedBy(tr, sl, UnspentOld(tr))
  }

  /** When every leg can be built, an original error means that every balance is back at its
      start exactly when the run's own transfers that something consumed from moved what the
      older ones that nothing consumed from had moved. */
  lemma OriginalErrorRestores(digest: Digest, s: State, legs: seq<Leg>, tr: Trace, s': State, err: LedgerError)
    requires Inv(s) && Failed(digest, s, legs, tr, s', err) && !err.CompensationFailed? && Buildable(legs)
    requires ReversalsSmall(tr) && (Shaped(tr) ==> AllGenuine(digest, legs, tr))
    ensures Whole(tr) && (AllBack(s, s') <==> NothingLeft(tr))
  {
    hide Inv, Failed, Advanced, Compensated, ReversalsSmall, AllGenuine, LiveSum, MovedBy, SpentNew, UnspentOld;
    OriginalErrorCompensated(digest, s, legs, tr, s', err);
    forall sl: Slice ensures LiveSum(s', sl) == LiveSum(s, sl) + MovedBy(tr, sl, SpentNew(tr)) - MovedBy(tr, sl, UnspentOld(tr)) {
      CompensationLeaves(digest, legs, tr, sl);
    }
  }

  /** And when something consumed what the transfer of leg `k` created, the answer is a
      compensation failure, unless the run stopped at a leg that could not be built or the
      very reversal of leg `k` is already in the log. */
  lemma ReuseEndsInFailure(digest: Digest, s: State, legs: seq<Leg>, tr: Trace, s': State, err: LedgerError, k: nat)
    requires Inv(s) && Failed(digest, s, legs, tr, s', err) && ReversalsSmall(tr) && |tr.receipts| < |legs|
    requires k < |tr.receipts| && !Unspent(Last(tr), Tid(tr, k))
    ensures err.CompensationFailed? || Build(legs[|tr.receipts|]).Err?
      || (Shaped(tr) && ReversalStored(digest, tr, |tr.receipts| - 1 - k))
  {
    hide Inv, Failed, Advanced, Compensated, ReversalsSmall, Unspent;
    if !err.CompensationFailed? && Build(legs[|tr.receipts|]).Ok? {
      OriginalErrorCompensated(digest, s, legs, tr, s', err);
      SpentIsNotReversed(digest, legs, tr, |tr.receipts| - 1 - k);
      AnsweredFromLog(digest, legs, tr, |tr.receipts| - 1 - k);
    }
  }

  // ----- legs that cannot consume each other's postings -----

  /** What a leg consumes and creates: it spends only its payer's holding, and only if it is a
      positive payment; what it creates belongs to its payee or, as change or an offset, to
      its payer. */
  ghost predicate LegTouches(rows: map<PostingId, Posting>, leg: Leg, e: Envelope) {
    && (forall id :: id in e.consumes ==>
          id in rows && leg.Pay? && leg.amount > 0 && Key(rows[id].owner, rows[id].asset) == Payer(leg))
    && (forall i :: 0 <= i < |e.creates| ==>
          Key(e.creates[i].owner, e.creates[i].asset) == Payee(leg) || Key(e.creates[i].owner, e.creates[i].asset) == Payer(leg))
  }

  lemma ResolvedTouches(rows: map<PostingId, Posting>, leg: Leg, e: Envelope)
    requires Build(leg).Ok? && OnlyDebited(rows, Build(leg).value, e)
    requires var ms := Build(leg).value.movements; |ms| <= |e.creates| && forall i :: 0 <= i < |ms| ==> e.creates[i] == Credit(ms[i])
    ensures LegTouches(rows, leg, e)
  {
    var t := Build(leg).value;
    forall k ensures NetDebit(t.movements, k) == if leg.Pay? && k == Payer(leg) then leg.amount else 0 {
      BuildMoves(leg, k);
    }
    hide NetDebit;
    forall i | 0 <= i < |e.creates|
      ensures Key(e.creates[i].owner, e.creates[i].asset) == Payee(leg) || Key(e.creates[i].owner, e.creates[i].asset) == Payer(leg)
    {
      if i >= |t.movements| {
        assert NetDebit(t.movements, Key(e.creates[i].owner, e.creates[i].asset)) > 0;
      }
    }
    forall id | id in e.consumes
      ensures id in rows && leg.Pay? && leg.amount > 0 && Key(rows[id].owner, rows[id].asset) == Payer(leg)
    {
      assert NetDebit(t.movements, Key(rows[id].owner, rows[id].asset)) > 0;
    }
  }

  lemma CommittedTouches(digest: Digest, s: State, leg: Leg, s': State, receipt: Receipt)
    requires Inv(s) && LegCommitted(digest, s, leg, s', receipt) && receipt.transferId !in s.transfers
    ensures receipt.transferId in s'.transfers && LegTouches(s.immutable, leg, s'.transfers[receipt.transferId].envelope)
  {
    hide Inv, Grows, Landed, ResolvesTo, LegTouches, OnlyDebited, Build, LegCommitted;
    var e := CommittedLands(digest, s, leg, s', receipt);
    CarriedTouches(digest, s, leg, e);
  }

  lemma CarriedTouches(digest: Digest, s: State, leg: Leg, e: Envelope)
    requires Inv(s) && Carries(digest, s, leg, e)
    ensures LegTouches(s.immutable, leg, e)
  {
    hide Inv, ResolvesTo, LegTouches, OnlyDebited, Build;
    LogParts(s);
    ResolvedRealises(digest, s, Build(leg).value, e);
    ResolvedOnlyDebits(digest, s, Build(leg).value, e);
    ResolvedTouches(s.immutable, leg, e);
  }

  /** No positive payment is made from a holding that an earlier leg paid into or paid from:
      something a caller can read off the legs. */
  predicate Independent(legs: seq<Leg>) {
    forall k, m :: 0 <= k < m < |legs| && legs[m].Pay? && legs[m].amount > 0 ==>
      Payer(legs[m]) != Payee(legs[k]) && Payer(legs[m]) != Payer(legs[k])
  }

  /** The row a stored transfer's posting id stands for. */
  lemma CreatedRow(s: State, id: PostingId)
    requires ProvenanceOk(s) && id in s.immutable
    ensures id.transfer in s.transfers && id.index < |s.transfers[id.transfer].envelope.creates|
    ensures var np := s.transfers[id.transfer].envelope.creates[id.index];
      s.immutable[id].owner == np.owner && s.immutable[id].asset == np.asset
  {
    assert CreatedBy(s, id.transfer, id.index);
  }

  lemma RowStays(s: State, s': State, id: PostingId)
    requires Grows(s, s') && id in s.immutable
    ensures id in s'.immutable && s'.immutable[id] == s.immutable[id]
  {
  }

  /** What new leg `m` consumed lies in its payer's holding, as rows of the last state. */
  lemma ConsumedBy(digest: Digest, legs: seq<Leg>, tr: Trace, m: nat, id: PostingId)
    requires Whole(tr) && Advanced(digest, legs, tr) && Inv(tr.forward[0]) && m < |tr.receipts| <= |legs| && New(tr, m)
    requires Tid(tr, m) in Last(tr).transfers && id in Consumes(Last(tr), Tid(tr, m))
    ensures id in Last(tr).immutable && legs[m].Pay? && legs[m].amount > 0
    ensures Key(Last(tr).immutable[id].owner, Last(tr).immutable[id].asset) == Payer(legs[m])
  {
    hide Inv, Grows, Advanced, LegCommitted, Landed;
    LegOf(digest, legs, tr, m);
    LegStays(digest, legs, tr, m);
    ForwardKeeps(digest, legs, tr, m, |tr.receipts|);
    CommittedTouches(digest, tr.forward[m], legs[m], tr.forward[m + 1], tr.receipts[m]);
    RowStays(tr.forward[m], Last(tr), id);
  }

  /** What new leg `k` created lies in its payee's or its payer's holding. */
  lemma CreatedByLeg(digest: Digest, legs: seq<Leg>, tr: Trace, k: nat, m: nat, id: PostingId)
    requires Whole(tr) && Advanced(digest, legs, tr) && Inv(tr.forward[0]) && k < m <= |tr.receipts| <= |legs| && New(tr, k)
    requires id in tr.forward[m].immutable && id.transfer == Tid(tr, k)
    ensures Key(tr.forward[m].immutable[id].owner, tr.forward[m].immutable[id].asset) in {Payee(legs[k]), Payer(legs[k])}
  {
    hide Inv, Grows, Advanced, LegCommitted, Landed;
    LegOf(digest, legs, tr, k);
    LegStays(digest, legs, tr, k);
    ForwardKeeps(digest, legs, tr, k + 1, m);
    TransferKept(tr.forward[k + 1], tr.forward[m], Tid(tr, k));
    CommittedTouches(digest, tr.forward[k], legs[k], tr.forward[k + 1], tr.receipts[k]);
    LogParts(tr.forward[m]);
    CreatedRow(tr.forward[m], id);
  }

  /** So independent legs never consume each other's postings. */
  lemma IndependentNotReused(digest: Digest, legs: seq<Leg>, tr: Trace, k: nat)
    requires Whole(tr) && Advanced(digest, legs, tr) && Inv(tr.forward[0]) && k < |tr.receipts| <= |legs| && New(tr, k) && Independent(legs)
    ensures !Reused(tr, k) && Unspent(Last(tr), Tid(tr, k))
  {
    hide Inv, Advanced, Unspent;
    forall m, id | k < m < |tr.receipts| && New(tr, m) && Tid(tr, m) in Last(tr).transfers && id in Consumes(Last(tr), Tid(tr, m))
      ensures id.transfer != Tid(tr, k)
    {
      ConsumedBy(digest, legs, tr, m, id);
      if id.transfer == Tid(tr, k) {
        CreatedByLeg(digest, legs, tr, k, |tr.receipts|, id);
      }
    }
    SpentMeansReused(digest, legs, tr, k);
  }

  // ----- what a leg files -----

  ghost predicate Gives(np: NewPosting, to: AccountId, asset: AssetId, amount: int, from: AccountId) {
    np.owner == to && np.asset == asset && np.value == amount && np.payer == if from == to then None else Some(from)
  }

  /** A leg's transfer: in the default book and without metadata; a payment first credits the
      payee, a deposit first debits the external account and then credits the payee. */
  ghost predicate LegFiled(leg: Leg, s': State, t: EnvelopeId) {
    && t in s'.transfers
    && var e := s'.transfers[t].envelope;
      && e.book == 0 && e.metadata == []
      && match leg
         case Pay(from, to, asset, amount) => |e.creates| >= 1 && Gives(e.creates[0], to, asset, amount, from)
         case Deposit(to, asset, amount, external) =>
           |e.creates| >= 2 && Gives(e.creates[0], external, asset, -(amount as int), external) && Gives(e.creates[1], to, asset, amount, external)
  }

  lemma LegFiles(digest: Digest, s: State, leg: Leg, s': State, r: Receipt)
    requires Inv(s) && LegCommitted(digest, s, leg, s', r) && r.transferId !in s.transfers
    ensures LegFiled(leg, s', r.transferId)
  {
    hide Inv, CommitsTransfer, Filings.FiledAs;
    var t := Build(leg).value;
    var ts :| CommitsTransfer(digest, s, t, ts, s', Ok(r));
    Filings.IntentFiles(digest, s, t, ts, s', r);
    var e := s'.transfers[r.transferId].envelope;
    assert Filings.Pays(t.movements[0], e.creates[0]);
    if leg.Deposit? { assert Filings.Pays(t.movements[1], e.creates[1]); }
  }
}

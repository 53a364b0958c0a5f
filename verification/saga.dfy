/** `run_movements`: commit transfers in order and, on the first failed commit, reverse the
    committed ones last-first (crates/kuatia/src/saga.rs). */
module Saga {
  import opened Wrappers
  import opened Domain
  import opened Amounts
  import opened Store
  import opened Canonical
  import opened Runs
  import opened RunProofs
  import opened Resolution
  import opened LedgerOps
  import opened ResolutionTheorems
  import opened Intents
  import opened Totals
  import opened Balance

  datatype Leg =
    | Pay(from: AccountId, to: AccountId, asset: AssetId, amount: Cent)
    | Deposit(to: AccountId, asset: AssetId, amount: Cent, external: AccountId)

  /** The transfer a leg commits; only a deposit of the minimum amount has none. */
  function Build(leg: Leg): (r: Result<Transfer, LedgerError>)
    ensures r.Ok? ==> 1 <= |r.value.movements| <= 2
    ensures r.Err? <==> leg.Deposit? && leg.amount == -TWO63
    ensures r.Err? ==> r.error == AmountOverflow
  {
    match leg
    case Pay(from, to, asset, amount) => Ok(Transfer([Movement(from, to, asset, amount)], DEFAULT_BOOK, []))
    case Deposit(to, asset, amount, external) =>
      match Checked(-(amount as int))
      case Err(_) => Err(AmountOverflow)
      case Ok(neg) =>
        Ok(Transfer([Movement(external, external, asset, neg), Movement(external, to, asset, amount)], DEFAULT_BOOK, []))
  }

  function Payer(leg: Leg): Key { Key(if leg.Pay? then leg.from else leg.external, leg.asset) }

  function Payee(leg: Leg): Key { Key(leg.to, leg.asset) }

  /** A leg gives its amount to the payee and takes it from the payer, except that paying a
      negative amount takes nothing; a deposit leaves the external account owing the amount,
      without spending anything there. */
  lemma BuildMoves(leg: Leg, k: Key)
    requires Build(leg).Ok?
    ensures IntentDelta(Build(leg).value, k) ==
      (if k == Payee(leg) then leg.amount else 0)
      - (if k != Payer(leg) then 0 else if leg.Pay? then PositivePart(leg.amount) else leg.amount)
    ensures NetDebit(Build(leg).value.movements, k) == if leg.Pay? && k == Payer(leg) then leg.amount else 0
  {
    var t := Build(leg).value;
    var sl := OfHolder(k.account, k.asset);
    var ms, cs := t.movements, Credits(t.movements);
    var n := |ms| - 1;
    assert SumNew(sl, cs[..0]) == 0 && NetDebit(ms[..0], k) == 0;
    if leg.Deposit? {
      assert ms[..1][..0] == ms[..0] && cs[..1][..0] == cs[..0];
      assert NetDebit(ms[..1], k) == if Source(ms[0]) == k then ms[0].amount else 0;
      assert SumNew(sl, cs[..1]) == if Covers(sl, cs[0].owner, cs[0].asset) then cs[0].value else 0;
    }
    assert NetDebit(ms, k) == NetDebit(ms[..n], k) + (if Source(ms[n]) == k then ms[n].amount else 0);
    assert SumNew(sl, cs) == SumNew(sl, cs[..n]) + (if Covers(sl, cs[n].owner, cs[n].asset) then cs[n].value else 0);
  }

  // ----- the two loops as traces of states -----

  /** One leg committed: from `s` to `s'`, answered with `receipt`. */
  ghost predicate LegCommitted(digest: Digest, s: State, leg: Leg, s': State, receipt: Receipt) {
    Build(leg).Ok? && exists ts :: CommitsTransfer(digest, s, Build(leg).value, ts, s', Ok(receipt))
  }

  ghost predicate Forward(digest: Digest, legs: seq<Leg>, states: seq<State>, receipts: seq<Receipt>) {
    && |states| == |receipts| + 1 && |receipts| <= |legs|
    && forall k :: 0 <= k < |receipts| ==> LegCommitted(digest, states[k], legs[k], states[k + 1], receipts[k])
  }

  ghost predicate ReversedTo(digest: Digest, s: State, t: EnvelopeId, s': State) {
    exists ts, r :: Reverses(digest, s, t, ts, s', Ok(r))
  }

  /** The compensation loop, last receipt first, every reversal so far a success. */
  ghost predicate Backward(digest: Digest, states: seq<State>, receipts: seq<Receipt>) {
    && 1 <= |states| <= |receipts| + 1
    && forall j :: 0 <= j < |states| - 1 ==>
      ReversedTo(digest, states[j], receipts[|receipts| - 1 - j].transferId, states[j + 1])
  }

  datatype Trace = Trace(forward: seq<State>, receipts: seq<Receipt>, backward: seq<State>)

  /** Everything `run_movements` may do from `s`, ending in `s'` with answer `r`. */
  ghost predicate RunsLegs(digest: Digest, s: State, legs: seq<Leg>, tr: Trace, s': State, r: Result<seq<Receipt>, LedgerError>) {
    && Forward(digest, legs, tr.forward, tr.receipts) && tr.forward[0] == s
    && var n := |tr.receipts|; var last := tr.forward[n];
      match r
      case Ok(receipts) => n == |legs| && receipts == tr.receipts && s' == last
      case Err(err) =>
        && n < |legs|
        && if Build(legs[n]).Err? then err == Build(legs[n]).error && s' == last
           else Unwinds(digest, Build(legs[n]).value, last, tr, s', err)
  }

  /** The failed commit of `t`, then the compensation. */
  ghost predicate Unwinds(digest: Digest, t: Transfer, last: State, tr: Trace, s': State, err: LedgerError) {
    && Backward(digest, tr.backward, tr.receipts) && tr.backward[0] == last
    && var m := |tr.backward| - 1; var end := tr.backward[m];
      || (m == |tr.receipts| && s' == end && FailsToCommit(digest, last, t, err))
      || (m < |tr.receipts| && err.CompensationFailed? && FailsToCommit(digest, last, t, err.original)
          && FailsToReverse(digest, end, tr.receipts[|tr.receipts| - 1 - m].transferId, s', err.compensation))
  }

  ghost predicate FailsToCommit(digest: Digest, s: State, t: Transfer, err: LedgerError) {
    exists ts :: CommitsTransfer(digest, s, t, ts, s, Err(err))
  }

  ghost predicate FailsToReverse(digest: Digest, s: State, t: EnvelopeId, s': State, err: LedgerError) {
    exists ts :: Reverses(digest, s, t, ts, s', Err(err))
  }

  // ----- one leg forward -----

  /** No stored transfer consumes a posting `t` created. */
  ghost predicate Unspent(s: State, t: EnvelopeId) {
    forall u, id :: u in s.transfers && id in Consumes(s, u) ==> id.transfer != t
  }

  /** A newly committed leg: its transfer is recorded, creates something, and leaves every
      other stored transfer alone. */
  ghost predicate Landed(digest: Digest, s: State, t: EnvelopeId, s': State) {
    && t !in s.transfers && t in s'.transfers && s'.transfers[t].envelope.creates != []
    && Recorded(digest, s, s'.transfers[t].envelope, s') && EnvelopeIdOf(digest, s'.transfers[t].envelope) == t
  }

  /** The envelope a leg was resolved to, whether it was recorded or answered from the log. */
  ghost predicate Carries(digest: Digest, s: State, leg: Leg, e: Envelope) {
    Build(leg).Ok? && ResolvesTo(digest, s, Build(leg).value, e)
  }

  /** A committed leg either lands or finds its content hash in the log, which then changes
      nothing. */
  lemma CommittedLands(digest: Digest, s: State, leg: Leg, s': State, receipt: Receipt) returns (e: Envelope)
    requires Inv(s) && LegCommitted(digest, s, leg, s', receipt)
    ensures Inv(s') && Grows(s, s') && receipt.transferId in s'.transfers && s'.accounts == s.accounts
    ensures if receipt.transferId in s.transfers then s' == s else Landed(digest, s, receipt.transferId, s')
    ensures Carries(digest, s, leg, e) && receipt.transferId == EnvelopeIdOf(digest, e) && e.creates != []
    ensures receipt.transferId !in s.transfers ==> s'.transfers[receipt.transferId].envelope == e
  {
    hide Inv, Grows, Recorded, CommitsTransfer, CommitsPinned, EnvelopeIdOf, Carries, Landed;
    var ts;
    e, ts := CommittedThrough(digest, s, leg, s', receipt);
    CommitDecides(digest, s, e, ts, s', Ok(receipt));
    LoggedUnchanged(digest, s, e, ts, s', Ok(receipt));
    if receipt.transferId !in s.transfers {
      RecordedEffect(digest, s, e, s');
      LandedBy(digest, s, e, s');
    }
  }

  lemma LandedBy(digest: Digest, s: State, e: Envelope, s': State)
    requires Inv(s) && Recorded(digest, s, e, s') && e.creates != []
    ensures Landed(digest, s, EnvelopeIdOf(digest, e), s')
  {
    hide Inv, Recorded, EnvelopeIdOf;
    RecordedEffect(digest, s, e, s');
  }

  /** The envelope a committed leg went through, as it was pinned. */
  lemma CommittedThrough(digest: Digest, s: State, leg: Leg, s': State, receipt: Receipt) returns (e: Envelope, ts: i64)
    requires Inv(s) && LegCommitted(digest, s, leg, s', receipt)
    ensures Carries(digest, s, leg, e) && e.creates != [] && |e.creates| <= TWO16
    ensures CommitsPinned(digest, s, e, ts, s', Ok(receipt))
  {
    hide Inv, ResolvesTo, WithSnapshots, CommitsPinned, ResolutionFails;
    var t := Build(leg).value;
    ts :| CommitsTransfer(digest, s, t, ts, s', Ok(receipt));
    e :| ResolvesTo(digest, s, t, e) && CommitsEnvelope(digest, s, e, ts, s', Ok(receipt));
    LogParts(s);
    ResolvedRealises(digest, s, t, e);
    FewMovements(t);
    CreatesCounted(digest, s, t, e);
  }

  lemma LoggedUnchanged(digest: Digest, s: State, e: Envelope, ts: i64, s': State, r: Answer)
    requires CommitsPinned(digest, s, e, ts, s', r)
    ensures EnvelopeIdOf(digest, e) in s.transfers ==> s' == s
  {
    hide LoadMayFail, Refused, Submitted;
  }

  // ----- whole traces -----

  function Tid(tr: Trace, k: nat): EnvelopeId
    requires k < |tr.receipts|
  {
    tr.receipts[k].transferId
  }

  predicate Whole(tr: Trace) { |tr.forward| == |tr.receipts| + 1 }

  predicate Shaped(tr: Trace) { Whole(tr) && |tr.backward| == |tr.receipts| + 1 }

  /** The state in which the forward loop stopped. */
  function Last(tr: Trace): State
    requires Whole(tr)
  {
    tr.forward[|tr.receipts|]
  }

  /** The leg was newly committed, not answered from the log. */
  predicate New(tr: Trace, k: nat)
    requires Whole(tr) && k < |tr.receipts|
  {
    Tid(tr, k) !in tr.forward[k].transfers
  }

  /** The forward loop. */
  ghost predicate Advanced(digest: Digest, legs: seq<Leg>, tr: Trace) {
    Forward(digest, legs, tr.forward, tr.receipts)
  }

  /** A compensation that reached the end: every reversal answered with success. */
  ghost predicate Compensated(digest: Digest, legs: seq<Leg>, tr: Trace) {
    && Advanced(digest, legs, tr)
    && Backward(digest, tr.backward, tr.receipts)
    && Shaped(tr) && tr.backward[0] == Last(tr)
  }

  /** The reversals fit 16-bit posting indices too. */
  ghost predicate ReversalsSmall(tr: Trace) {
    Whole(tr) && forall k :: 0 <= k < |tr.receipts| ==>
      Tid(tr, k) in tr.forward[k + 1].transfers && |Consumes(tr.forward[k + 1], Tid(tr, k))| <= TWO16
  }

  lemma LegOf(digest: Digest, legs: seq<Leg>, tr: Trace, k: nat)
    requires Whole(tr) && Advanced(digest, legs, tr) && k < |tr.receipts|
    ensures k < |legs| && LegCommitted(digest, tr.forward[k], legs[k], tr.forward[k + 1], tr.receipts[k])
  {
    hide LegCommitted, ReversedTo;
  }

  lemma ReversalAt(digest: Digest, legs: seq<Leg>, tr: Trace, j: nat)
    requires Shaped(tr) && Compensated(digest, legs, tr) && j < |tr.receipts|
    ensures ReversedTo(digest, tr.backward[j], Tid(tr, |tr.receipts| - 1 - j), tr.backward[j + 1])
  {
    hide LegCommitted, ReversedTo;
  }

  lemma Turn(digest: Digest, legs: seq<Leg>, tr: Trace)
    requires Shaped(tr) && Compensated(digest, legs, tr)
    ensures Advanced(digest, legs, tr) && tr.backward[0] == Last(tr)
  {
    hide Advanced, Backward;
  }

  lemma {:induction false} ForwardKeeps(digest: Digest, legs: seq<Leg>, tr: Trace, i: nat, k: nat)
    requires Whole(tr) && Advanced(digest, legs, tr) && Inv(tr.forward[0]) && i <= k <= |tr.receipts|
    ensures Inv(tr.forward[i]) && Inv(tr.forward[k]) && Grows(tr.forward[i], tr.forward[k])
    ensures tr.forward[k].accounts == tr.forward[0].accounts
  {
    hide Inv, Grows, Advanced, Compensated, LegCommitted, ReversedTo, Carries, Landed;
    if i > 0 && i == k {
      ForwardKeeps(digest, legs, tr, i - 1, i);
    }
    if i == k {
      SameState(tr.forward[k]);
    } else {
      ForwardKeeps(digest, legs, tr, i, k - 1);
      LegOf(digest, legs, tr, k - 1);
      var _ := CommittedLands(digest, tr.forward[k - 1], legs[k - 1], tr.forward[k], tr.receipts[k - 1]);
      LaterGrows(tr.forward[i], tr.forward[k - 1], tr.forward[k]);
    }
  }

  /** Every leg is in the log once its turn has come and stays as it is to the end. */
  lemma LegStays(digest: Digest, legs: seq<Leg>, tr: Trace, k: nat)
    requires Whole(tr) && Advanced(digest, legs, tr) && Inv(tr.forward[0]) && k < |tr.receipts|
    ensures if New(tr, k) then Landed(digest, tr.forward[k], Tid(tr, k), tr.forward[k + 1]) else tr.forward[k + 1] == tr.forward[k]
    ensures Grows(tr.forward[k + 1], Last(tr)) && Inv(tr.forward[k]) && Inv(tr.forward[k + 1]) && Inv(Last(tr))
    ensures Tid(tr, k) in tr.forward[k + 1].transfers && Tid(tr, k) in Last(tr).transfers
    ensures Last(tr).transfers[Tid(tr, k)] == tr.forward[k + 1].transfers[Tid(tr, k)]
  {
    hide Inv, Grows, Advanced, Compensated, LegCommitted, ReversedTo, Recorded, Landed, Carries;
    ForwardKeeps(digest, legs, tr, k, k + 1);
    ForwardKeeps(digest, legs, tr, k + 1, |tr.receipts|);
    LegOf(digest, legs, tr, k);
    var _ := CommittedLands(digest, tr.forward[k], legs[k], tr.forward[k + 1], tr.receipts[k]);
    TransferKept(tr.forward[k + 1], Last(tr), Tid(tr, k));
  }

  lemma {:induction false} BackwardKeeps(digest: Digest, legs: seq<Leg>, tr: Trace, i: nat, j: nat)
    requires Shaped(tr) && Compensated(digest, legs, tr) && Inv(tr.forward[0]) && ReversalsSmall(tr) && i <= j <= |tr.receipts|
    ensures Inv(tr.backward[i]) && Inv(tr.backward[j]) && Grows(tr.backward[i], tr.backward[j])
  {
    hide Inv, Grows, Advanced, Compensated, LegCommitted, ReversedTo, ReversalsSmall;
    Turn(digest, legs, tr);
    if i == 0 && j == 0 {
      ForwardKeeps(digest, legs, tr, 0, |tr.receipts|);
      SameState(tr.backward[0]);
    } else if i == j {
      BackwardKeeps(digest, legs, tr, i - 1, j);
      SameState(tr.backward[j]);
    } else {
      BackwardKeeps(digest, legs, tr, i, j - 1);
      BackwardKeeps(digest, legs, tr, 0, j - 1);
      BackwardStep(digest, legs, tr, j - 1, OfAsset(0));
      LaterGrows(tr.backward[i], tr.backward[j - 1], tr.backward[j]);
    }
  }

  /** The reversal answered from the log. */
  predicate FromLog(tr: Trace, j: nat)
    requires j + 1 < |tr.backward|
  {
    tr.backward[j + 1] == tr.backward[j]
  }

  ghost predicate StepUndone(tr: Trace, j: nat, sl: Slice)
    requires j + 1 < |tr.backward| && j < |tr.receipts|
  {
    var s, s', t := tr.backward[j], tr.backward[j + 1], Tid(tr, |tr.receipts| - 1 - j);
    FromLog(tr, j) ||
      (t in s.transfers && LiveSum(s', sl) == LiveSum(s, sl) - Delta(s, t, sl)
       && forall i :: 0 <= i < |s.transfers[t].envelope.creates| ==> PostingId(t, i % 0x1_0000) in s.active)
  }

  /** The leg to reverse is still in the log, unchanged. */
  ghost predicate Standing(tr: Trace, j: nat)
    requires Shaped(tr) && j < |tr.receipts|
  {
    var k := |tr.receipts| - 1 - j;
    var s, t := tr.backward[j], Tid(tr, k);
    && t in s.transfers && t in tr.forward[k + 1].transfers && s.transfers[t] == tr.forward[k + 1].transfers[t]
    && |Consumes(s, t)| <= TWO16
  }

  lemma LegThere(digest: Digest, legs: seq<Leg>, tr: Trace, j: nat)
    requires Shaped(tr) && Compensated(digest, legs, tr) && Inv(tr.forward[0]) && ReversalsSmall(tr) && j < |tr.receipts|
    requires Grows(tr.backward[0], tr.backward[j])
    ensures Standing(tr, j)
  {
    hide Inv, Grows, Advanced, Compensated, LegCommitted, ReversedTo, Landed, ReversalsSmall;
    Turn(digest, legs, tr);
    SmallLeg(tr, |tr.receipts| - 1 - j);
    LegStays(digest, legs, tr, |tr.receipts| - 1 - j);
    TransferKept(tr.backward[0], tr.backward[j], Tid(tr, |tr.receipts| - 1 - j));
  }

  lemma SmallLeg(tr: Trace, k: nat)
    requires ReversalsSmall(tr) && k < |tr.receipts|
    ensures Tid(tr, k) in tr.forward[k + 1].transfers && |Consumes(tr.forward[k + 1], Tid(tr, k))| <= TWO16
  {
  }

  lemma TransferKept(s: State, s': State, t: EnvelopeId)
    requires Grows(s, s') && t in s.transfers
    ensures t in s'.transfers && s'.transfers[t] == s.transfers[t]
  {
  }

  lemma BackwardStep(digest: Digest, legs: seq<Leg>, tr: Trace, j: nat, sl: Slice)
    requires Shaped(tr) && Compensated(digest, legs, tr) && Inv(tr.forward[0]) && ReversalsSmall(tr) && j < |tr.receipts|
    requires Inv(tr.backward[j]) && Grows(tr.backward[0], tr.backward[j])
    ensures Inv(tr.backward[j + 1]) && Grows(tr.backward[j], tr.backward[j + 1]) && StepUndone(tr, j, sl)
  {
    hide Inv, Grows, Advanced, Compensated, LegCommitted, ReversalsSmall, Reverses, LiveSum, Delta;
    LegThere(digest, legs, tr, j);
    var s, s', t := tr.backward[j], tr.backward[j + 1], Tid(tr, |tr.receipts| - 1 - j);
    ReversalAt(digest, legs, tr, j);
    var ts, r :| Reverses(digest, s, t, ts, s', Ok(r));
    ReverseNegates(digest, s, t, ts, s', Ok(r), sl);
  }

  // ----- what compensation leaves -----

  /** The transfers the first `k` legs newly recorded. */
  function NewIds(tr: Trace, k: nat): set<EnvelopeId>
    requires Whole(tr) && k <= |tr.receipts|
  {
    set i | 0 <= i < k && New(tr, i) :: Tid(tr, i)
  }

  /** The transfers the first `j` reversals took back. */
  function TakenIds(tr: Trace, j: nat): set<EnvelopeId>
    requires Whole(tr) && j < |tr.backward| <= |tr.receipts| + 1
  {
    set i | 0 <= i < j && !FromLog(tr, i) :: Tid(tr, |tr.receipts| - 1 - i)
  }

  /** What a set of transfers moved. */
  ghost function MovedBy(tr: Trace, sl: Slice, ids: set<EnvelopeId>): int
    requires Whole(tr)
  {
    Total(DeltasOf(Last(tr), sl, ids))
  }

  lemma MovedPush(tr: Trace, sl: Slice, ids: set<EnvelopeId>, t: EnvelopeId)
    requires Whole(tr) && t in Last(tr).transfers && t !in ids
    ensures MovedBy(tr, sl, ids + {t}) == MovedBy(tr, sl, ids) + Delta(Last(tr), t, sl)
  {
    hide Delta;
    var before, s := DeltasOf(Last(tr), sl, ids), Last(tr);
    TotalInsert(before, t, Delta(s, t, sl));
    assert DeltasOf(s, sl, ids + {t}) == before[t := Delta(s, t, sl)];
  }

  lemma MovedNone(tr: Trace, sl: Slice)
    requires Whole(tr)
    ensures MovedBy(tr, sl, {}) == 0
  {
    assert DeltasOf(Last(tr), sl, {}) == map[];
  }

  /** What two sets moved differs by what only one of them has. */
  lemma MovedSplit(tr: Trace, sl: Slice, a: set<EnvelopeId>, b: set<EnvelopeId>)
    requires Whole(tr)
    ensures MovedBy(tr, sl, a) == MovedBy(tr, sl, a - b) + MovedBy(tr, sl, a * b)
  {
    hide Delta;
    var s := Last(tr);
    TotalSplit(DeltasOf(s, sl, a), DeltasOf(s, sl, a - b), DeltasOf(s, sl, a * b));
  }

  lemma NewIdsPush(digest: Digest, legs: seq<Leg>, tr: Trace, k: nat)
    requires Whole(tr) && Advanced(digest, legs, tr) && Inv(tr.forward[0]) && k < |tr.receipts|
    ensures NewIds(tr, k + 1) == if New(tr, k) then NewIds(tr, k) + {Tid(tr, k)} else NewIds(tr, k)
    ensures New(tr, k) ==> Tid(tr, k) !in NewIds(tr, k)
  {
    hide Inv, Grows, Advanced, LegCommitted, Landed;
    if New(tr, k) && Tid(tr, k) in NewIds(tr, k) {
      var i :| 0 <= i < k && New(tr, i) && Tid(tr, i) == Tid(tr, k);
      LegStays(digest, legs, tr, i);
      ForwardKeeps(digest, legs, tr, i + 1, k);
      TransferKept(tr.forward[i + 1], tr.forward[k], Tid(tr, i));
    }
  }

  /** Going forward, every balance moves by the new transfers; a leg answered from the log
      adds nothing. */
  lemma {:induction false} ForwardSum(digest: Digest, legs: seq<Leg>, tr: Trace, sl: Slice, k: nat)
    requires Whole(tr) && Advanced(digest, legs, tr) && Inv(tr.forward[0]) && k <= |tr.receipts|
    ensures LiveSum(tr.forward[k], sl) == LiveSum(tr.forward[0], sl) + MovedBy(tr, sl, NewIds(tr, k))
  {
    hide Inv, Grows, Advanced, LegCommitted, LiveSum, MovedBy, NewIds, New, Delta;
    if k == 0 {
      MovedNone(tr, sl);
      assert NewIds(tr, 0) == {} by { NoneNew(tr); }
    } else {
      ForwardSum(digest, legs, tr, sl, k - 1);
      ForwardStep(digest, legs, tr, sl, k - 1);
    }
  }

  lemma ForwardStep(digest: Digest, legs: seq<Leg>, tr: Trace, sl: Slice, k: nat)
    requires Whole(tr) && Advanced(digest, legs, tr) && Inv(tr.forward[0]) && k < |tr.receipts|
    ensures LiveSum(tr.forward[k + 1], sl) - LiveSum(tr.forward[k], sl) == MovedBy(tr, sl, NewIds(tr, k + 1)) - MovedBy(tr, sl, NewIds(tr, k))
  {
    hide Inv, Grows, Advanced, LegCommitted, Landed, LiveSum, MovedBy, NewIds, New, Delta;
    LegMoves(digest, legs, tr, sl, k);
    NewIdsPush(digest, legs, tr, k);
    if New(tr, k) { MovedPush(tr, sl, NewIds(tr, k), Tid(tr, k)); }
  }

  lemma NoneNew(tr: Trace)
    requires Whole(tr)
    ensures NewIds(tr, 0) == {}
  {
  }

  lemma LegMoves(digest: Digest, legs: seq<Leg>, tr: Trace, sl: Slice, k: nat)
    requires Whole(tr) && Advanced(digest, legs, tr) && Inv(tr.forward[0]) && k < |tr.receipts|
    ensures Tid(tr, k) in Last(tr).transfers
    ensures LiveSum(tr.forward[k + 1], sl) == LiveSum(tr.forward[k], sl) + if New(tr, k) then Delta(Last(tr), Tid(tr, k), sl) else 0
  {
    hide Inv, Grows, Advanced, LegCommitted, LiveSum, Recorded, Delta;
    LegStays(digest, legs, tr, k);
    if New(tr, k) {
      var s', t := tr.forward[k + 1], Tid(tr, k);
      RecordedSum(digest, tr.forward[k], s'.transfers[t].envelope, s', sl);
      DeltaStays(s', Last(tr), t, sl);
    }
  }

  lemma DeltaStays(s: State, s': State, t: EnvelopeId, sl: Slice)
    requires Inv(s) && Grows(s, s') && t in s.transfers
    ensures t in s'.transfers && Delta(s', t, sl) == Delta(s, t, sl)
  {
    LogParts(s);
    hide Inv, ProvenanceOk, TablesOk, LogsKept, SpentKept, ClosedKept;
    OldDelta(s, s', sl, t);
  }

  /** The accounts, the leg and the rows it consumed being the same, so is its reversal. */
  lemma SameReversal(digest: Digest, s: State, s': State, t: EnvelopeId)
    requires Inv(s) && Grows(s, s') && s'.accounts == s.accounts && t in s.transfers
    ensures t in s'.transfers && Reversal(digest, s', t) == Reversal(digest, s, t)
  {
    TransferKept(s, s', t);
    LogParts(s);
    ConsumedRows(s, t);
    hide Inv, SpentOk, ProvenanceOk, TablesOk, LogsKept, SpentKept, ClosedKept;
    var ids := s.transfers[t].envelope.consumes;
    forall i | 0 <= i < |ids| ensures ids[i] in s'.immutable && s'.immutable[ids[i]] == s.immutable[ids[i]] {
    }
    assert Returned(s'.immutable, ids) == Returned(s.immutable, ids);
    var e := ReversalOf(s, t).value;
    assert ReversalOf(s', t) == Some(e);
    SamePins(digest, s, s', e);
  }

  lemma SamePins(digest: Digest, s: State, s': State, e: Envelope)
    requires s'.accounts == s.accounts
    ensures WithSnapshots(digest, s', e) == WithSnapshots(digest, s, e)
  {
    var ids := CreateOwners(e);
    hide CreateOwners, AccountHash;
    forall i | 0 <= i < |ids| ensures Head(s', ids[i]) == Head(s, ids[i]) {
    }
    if SnapshotsOf(digest, s, ids).Some? {
      assert SnapshotsOf(digest, s', ids).value == SnapshotsOf(digest, s, ids).value;
    }
  }

  /** A reversal that took effect is in the log from then on. */
  lemma TakenIsStored(digest: Digest, legs: seq<Leg>, tr: Trace, i: nat)
    requires Shaped(tr) && Compensated(digest, legs, tr) && Inv(tr.forward[0]) && ReversalsSmall(tr) && i < |tr.receipts|
    requires !FromLog(tr, i)
    ensures var p := Reversal(digest, tr.backward[i], Tid(tr, |tr.receipts| - 1 - i));
      p.Some? && EnvelopeIdOf(digest, p.value) in tr.backward[i + 1].transfers
  {
    hide Inv, Grows, Advanced, Compensated, LegCommitted, ReversedTo, ReversalsSmall, Reversal, Recorded;
    var s, t, s' := tr.backward[i], Tid(tr, |tr.receipts| - 1 - i), tr.backward[i + 1];
    BackwardKeeps(digest, legs, tr, 0, i);
    LegThere(digest, legs, tr, i);
    ReversalAt(digest, legs, tr, i);
    ReversalCases(digest, s, t, s');
    RecordedEffect(digest, s, Reversal(digest, s, t).value, s');
  }

  /** No transfer is taken back twice: the second reversal of one finds the first in the log. */
  lemma TakenOnce(digest: Digest, legs: seq<Leg>, tr: Trace, i: nat, j: nat)
    requires Shaped(tr) && Compensated(digest, legs, tr) && Inv(tr.forward[0]) && ReversalsSmall(tr) && i < j < |tr.receipts|
    requires !FromLog(tr, i) && Tid(tr, |tr.receipts| - 1 - i) == Tid(tr, |tr.receipts| - 1 - j)
    ensures FromLog(tr, j)
  {
    hide Inv, Grows, Advanced, Compensated, LegCommitted, ReversedTo, ReversalsSmall, Reversal, FromLog, EnvelopeIdOf, LogsKept, SpentKept, ClosedKept;
    var n := |tr.receipts|;
    TakenIsStored(digest, legs, tr, i);
    ReversalLater(digest, legs, tr, i, j);
    BackwardKeeps(digest, legs, tr, i + 1, j);
    var p := Reversal(digest, tr.backward[i], Tid(tr, n - 1 - i)).value;
    TransferKept(tr.backward[i + 1], tr.backward[j], EnvelopeIdOf(digest, p));
    AnsweredFromLog(digest, legs, tr, j);
  }

  /** The reversal of a leg is the same envelope at every point of the compensation. */
  lemma ReversalLater(digest: Digest, legs: seq<Leg>, tr: Trace, i: nat, j: nat)
    requires Shaped(tr) && Compensated(digest, legs, tr) && Inv(tr.forward[0]) && ReversalsSmall(tr) && i < j < |tr.receipts|
    ensures var t := Tid(tr, |tr.receipts| - 1 - i); Reversal(digest, tr.backward[j], t) == Reversal(digest, tr.backward[i], t)
  {
    hide Inv, Grows, Advanced, Compensated, LegCommitted, ReversedTo, ReversalsSmall, Reversal, Unspent;
    BackwardKeeps(digest, legs, tr, i, j);
    BackwardKeeps(digest, legs, tr, 0, i);
    LegThere(digest, legs, tr, i);
    BackwardAccounts(digest, legs, tr, i);
    BackwardAccounts(digest, legs, tr, j);
    SameReversal(digest, tr.backward[i], tr.backward[j], Tid(tr, |tr.receipts| - 1 - i));
  }

  lemma {:induction false} BackwardAccounts(digest: Digest, legs: seq<Leg>, tr: Trace, j: nat)
    requires Shaped(tr) && Compensated(digest, legs, tr) && Inv(tr.forward[0]) && ReversalsSmall(tr) && j <= |tr.receipts|
    ensures tr.backward[j].accounts == tr.backward[0].accounts
  {
    hide Inv, Grows, Advanced, Compensated, LegCommitted, ReversedTo, ReversalsSmall, Reversal, Recorded;
    if j > 0 {
      BackwardAccounts(digest, legs, tr, j - 1);
      var s, t, s' := tr.backward[j - 1], Tid(tr, |tr.receipts| - j), tr.backward[j];
      BackwardKeeps(digest, legs, tr, 0, j - 1);
      LegThere(digest, legs, tr, j - 1);
      ReversalAt(digest, legs, tr, j - 1);
      ReversalCases(digest, s, t, s');
      var p := Reversal(digest, s, t).value;
      if Recorded(digest, s, p, s') {
        RecordedEffect(digest, s, p, s');
      }
    }
  }

  lemma TakenIdsPush(digest: Digest, legs: seq<Leg>, tr: Trace, j: nat)
    requires Shaped(tr) && Compensated(digest, legs, tr) && Inv(tr.forward[0]) && ReversalsSmall(tr) && j < |tr.receipts|
    ensures var t := Tid(tr, |tr.receipts| - 1 - j);
      && TakenIds(tr, j + 1) == (if FromLog(tr, j) then TakenIds(tr, j) else TakenIds(tr, j) + {t})
      && (!FromLog(tr, j) ==> t !in TakenIds(tr, j))
  {
    hide Inv, Advanced, Compensated, ReversalsSmall, FromLog;
    var t := Tid(tr, |tr.receipts| - 1 - j);
    if !FromLog(tr, j) && t in TakenIds(tr, j) {
      var i :| 0 <= i < j && !FromLog(tr, i) && Tid(tr, |tr.receipts| - 1 - i) == t;
      TakenOnce(digest, legs, tr, i, j);
    }
  }

  /** Going backward, every balance loses what the transfers taken back moved. */
  lemma {:induction false} BackwardSum(digest: Digest, legs: seq<Leg>, tr: Trace, sl: Slice, j: nat)
    requires Shaped(tr) && Compensated(digest, legs, tr) && Inv(tr.forward[0]) && ReversalsSmall(tr) && j <= |tr.receipts|
    ensures LiveSum(tr.backward[j], sl) == LiveSum(Last(tr), sl) - MovedBy(tr, sl, TakenIds(tr, j))
  {
    hide Inv, Grows, Advanced, Compensated, LegCommitted, ReversedTo, LiveSum, ReversalsSmall, Delta, MovedBy, TakenIds, FromLog;
    if j == 0 {
      Turn(digest, legs, tr);
      MovedNone(tr, sl);
      NoneTaken(tr);
    } else {
      BackwardSum(digest, legs, tr, sl, j - 1);
      BackwardMoves(digest, legs, tr, sl, j - 1);
      TakenIdsPush(digest, legs, tr, j - 1);
      if !FromLog(tr, j - 1) { MovedPush(tr, sl, TakenIds(tr, j - 1), Tid(tr, |tr.receipts| - j)); }
    }
  }

  lemma NoneTaken(tr: Trace)
    requires Shaped(tr)
    ensures TakenIds(tr, 0) == {}
  {
  }

  lemma BackwardMoves(digest: Digest, legs: seq<Leg>, tr: Trace, sl: Slice, j: nat)
    requires Shaped(tr) && Compensated(digest, legs, tr) && Inv(tr.forward[0]) && ReversalsSmall(tr) && j < |tr.receipts|
    ensures Tid(tr, |tr.receipts| - 1 - j) in Last(tr).transfers
    ensures LiveSum(tr.backward[j + 1], sl) ==
      LiveSum(tr.backward[j], sl) - if FromLog(tr, j) then 0 else Delta(Last(tr), Tid(tr, |tr.receipts| - 1 - j), sl)
  {
    hide Inv, Grows, Advanced, Compensated, LegCommitted, ReversedTo, LiveSum, ReversalsSmall, Delta, Landed;
    Turn(digest, legs, tr);
    BackwardKeeps(digest, legs, tr, 0, j);
    BackwardStep(digest, legs, tr, j, sl);
    LegStays(digest, legs, tr, |tr.receipts| - 1 - j);
    DeltaStays(tr.backward[0], tr.backward[j], Tid(tr, |tr.receipts| - 1 - j), sl);
  }

  /** After a completed compensation every balance is its start, plus what the new transfers
      moved that were not taken back, less what older transfers moved that were: a leg
      answered from the log has an older transfer's receipt, and reversing it takes back
      that one. */
  lemma CompensationBalance(digest: Digest, legs: seq<Leg>, tr: Trace, sl: Slice)
    requires Shaped(tr) && Compensated(digest, legs, tr) && Inv(tr.forward[0]) && ReversalsSmall(tr)
    ensures var n := |tr.receipts|; var added, taken := NewIds(tr, n), TakenIds(tr, n);
      LiveSum(tr.backward[n], sl) == LiveSum(tr.forward[0], sl) + MovedBy(tr, sl, added - taken) - MovedBy(tr, sl, taken - added)
  {
    hide Inv, Grows, Advanced, Compensated, LegCommitted, ReversedTo, LiveSum, ReversalsSmall, MovedBy, NewIds, TakenIds;
    Turn(digest, legs, tr);
    var n := |tr.receipts|;
    ForwardSum(digest, legs, tr, sl, n);
    BackwardSum(digest, legs, tr, sl, n);
    var added, taken := NewIds(tr, n), TakenIds(tr, n);
    MovedSplit(tr, sl, added, taken);
    MovedSplit(tr, sl, taken, added);
    assert added * taken == taken * added;
  }

  // ----- when reversals are answered from the log -----

  /** A later new leg consumed a posting that leg `k` created. */
  ghost predicate Reused(tr: Trace, k: nat)
    requires Whole(tr) && k < |tr.receipts|
  {
    exists m, id :: k < m < |tr.receipts| && New(tr, m) && Tid(tr, m) in Last(tr).transfers
      && id in Consumes(Last(tr), Tid(tr, m)) && id.transfer == Tid(tr, k)
  }

  /** A posting of a stored transfer has one of its indices. */
  lemma CreatedIndex(s: State, id: PostingId)
    requires Inv(s) && id in s.immutable
    ensures id.transfer in s.transfers && id.index < |s.transfers[id.transfer].envelope.creates|
  {
  }

  lemma ConsumedNotActive(s: State, s': State, t: EnvelopeId, id: PostingId)
    requires Inv(s) && Inv(s') && Grows(s, s') && t in s.transfers && id in Consumes(s, t)
    ensures id in s.immutable && id !in s'.active
  {
    LogParts(s);
    LogParts(s');
    hide Inv, ProvenanceOk, LogsKept, ClosedKept, TablesOk;
    assert id !in Live(s) && id in s.immutable;
    assert id !in Live(s');
  }

  /** If something consumed what the transfer of a leg created, that leg cannot be taken back:
      compensation completes only if its reversal is answered from the log, and otherwise
      `run_movements` ends in a compensation failure. */
  lemma SpentIsNotReversed(digest: Digest, legs: seq<Leg>, tr: Trace, j: nat)
    requires Shaped(tr) && Compensated(digest, legs, tr) && Inv(tr.forward[0]) && ReversalsSmall(tr)
    requires j < |tr.receipts| && !Unspent(Last(tr), Tid(tr, |tr.receipts| - 1 - j))
    ensures FromLog(tr, j)
  {
    hide Inv, Grows, Advanced, Compensated, LegCommitted, ReversedTo, ReversalsSmall, Landed, LiveSum, Delta;
    var k := |tr.receipts| - 1 - j;
    Turn(digest, legs, tr);
    var u, id :| u in Last(tr).transfers && id in Consumes(Last(tr), u) && id.transfer == Tid(tr, k);
    BackwardKeeps(digest, legs, tr, 0, j);
    BackwardStep(digest, legs, tr, j, OfAsset(0));
    ConsumedNotActive(tr.backward[0], tr.backward[j], u, id);
    CreatedIndex(tr.backward[0], id);
    LegThere(digest, legs, tr, j);
    LegStays(digest, legs, tr, k);
    assert id == PostingId(Tid(tr, k), id.index % 0x1_0000);
  }

  // ----- when every reversal takes effect -----

  /** The reversal of `t` as it is submitted from `s`. */
  function Reversal(digest: Digest, s: State, t: EnvelopeId): Option<Envelope> {
    if t in s.transfers && ReversalOf(s, t).Some? then WithSnapshots(digest, s, ReversalOf(s, t).value) else None
  }

  lemma ReversalCases(digest: Digest, s: State, t: EnvelopeId, s': State)
    requires Inv(s) && t in s.transfers && |Consumes(s, t)| <= TWO16 && ReversedTo(digest, s, t, s')
    ensures Reversal(digest, s, t).Some?
    ensures var p := Reversal(digest, s, t).value;
      p.consumes == CreatedIds(t, |s.transfers[t].envelope.creates|) && (Replied(digest, s, p, s') || Recorded(digest, s, p, s'))
  {
    hide Inv, Grows, CommitsPinned, Recorded, Replied;
    var ts, r :| Reverses(digest, s, t, ts, s', Ok(r));
    StoredReceipt(s, t);
    var e := ReversalOf(s, t).value;
    var p := WithSnapshots(digest, s, e).value;
    SnapshotsOnly(digest, s, e);
    hide WithSnapshots;
    CommitDecides(digest, s, p, ts, s', Ok(r));
  }

  lemma RecordedIsNew(digest: Digest, s: State, p: Envelope, s': State)
    requires Inv(s) && Recorded(digest, s, p, s')
    ensures s' != s
  {
    RecordedEffect(digest, s, p, s');
  }

  /** What is consumed was created by a stored transfer. */
  lemma ConsumedKnown(s: State, u: EnvelopeId, id: PostingId)
    requires Inv(s) && ((u in s.transfers && id in Consumes(s, u)) || id in s.active)
    ensures id.transfer in s.transfers
  {
    hide Inv, SpentOk, ProvenanceOk, TablesOk;
    LogParts(s);
    ConsumedStored(s, u, id);
  }

  lemma ConsumedStored(s: State, u: EnvelopeId, id: PostingId)
    requires SpentOk(s) && ProvenanceOk(s) && TablesOk(s) && ((u in s.transfers && id in Consumes(s, u)) || id in s.active)
    ensures id.transfer in s.transfers
  {
    assert id in s.immutable;
  }

  /** A transfer's postings are spent by nothing stored before it, nor by itself. */
  lemma UnspentAtFirst(digest: Digest, s: State, t: EnvelopeId, s': State)
    requires Inv(s) && Landed(digest, s, t, s')
    ensures Unspent(s', t)
  {
    hide Inv, Recorded;
    RecordedEffect(digest, s, s'.transfers[t].envelope, s');
    forall u, id | u in s'.transfers && id in Consumes(s', u) ensures id.transfer != t {
      ConsumedKnown(s, u, id);
    }
  }

  lemma UnspentKept(digest: Digest, s: State, t: EnvelopeId, p: Envelope, s': State)
    requires Inv(s) && Unspent(s, t) && Recorded(digest, s, p, s') && forall id :: id in p.consumes ==> id.transfer != t
    ensures Unspent(s', t)
  {
    RecordedEffect(digest, s, p, s');
    hide Inv, Recorded;
    forall u, id | u in s'.transfers && id in Consumes(s', u) ensures id.transfer != t {
      if u != EnvelopeIdOf(digest, p) {
        assert id in Consumes(s, u);
      }
    }
  }

  /** A new leg's postings are unspent as long as no later new leg consumes one. */
  lemma {:induction false} UnspentForward(digest: Digest, legs: seq<Leg>, tr: Trace, k: nat, m: nat)
    requires Whole(tr) && Advanced(digest, legs, tr) && Inv(tr.forward[0]) && k < m <= |tr.receipts| && New(tr, k) && !Reused(tr, k)
    ensures Unspent(tr.forward[m], Tid(tr, k))
  {
    hide Inv, Grows, Advanced, Compensated, Unspent, Reused, Recorded;
    LegStays(digest, legs, tr, m - 1);
    if m == k + 1 {
      UnspentAtFirst(digest, tr.forward[k], Tid(tr, k), tr.forward[m]);
    } else {
      UnspentForward(digest, legs, tr, k, m - 1);
      if New(tr, m - 1) {
        LegAvoids(tr, k, m - 1);
        UnspentKept(digest, tr.forward[m - 1], Tid(tr, k), tr.forward[m].transfers[Tid(tr, m - 1)].envelope, tr.forward[m]);
      }
    }
  }

  lemma LegAvoids(tr: Trace, k: nat, m: nat)
    requires Whole(tr) && k < m < |tr.receipts| && New(tr, m) && !Reused(tr, k) && Tid(tr, m) in Last(tr).transfers
    ensures forall id :: id in Last(tr).transfers[Tid(tr, m)].envelope.consumes ==> id.transfer != Tid(tr, k)
  {
    forall id | id in Last(tr).transfers[Tid(tr, m)].envelope.consumes ensures id.transfer != Tid(tr, k) {
      assert id in Consumes(Last(tr), Tid(tr, m));
    }
  }

  /** For a new leg, being spent at the end and being reused by a later leg are the same. */
  lemma SpentMeansReused(digest: Digest, legs: seq<Leg>, tr: Trace, k: nat)
    requires Whole(tr) && Advanced(digest, legs, tr) && Inv(tr.forward[0]) && k < |tr.receipts| && New(tr, k)
    ensures Unspent(Last(tr), Tid(tr, k)) <==> !Reused(tr, k)
  {
    hide Inv, Advanced;
    if !Reused(tr, k) {
      hide Reused, Unspent;
      UnspentForward(digest, legs, tr, k, |tr.receipts|);
    }
  }

  /** Reversing other transfers leaves one unspent. */
  lemma {:induction false} UnspentBackward(digest: Digest, legs: seq<Leg>, tr: Trace, t: EnvelopeId, j: nat)
    requires Shaped(tr) && Compensated(digest, legs, tr) && Inv(tr.forward[0]) && ReversalsSmall(tr)
    requires j <= |tr.receipts| && Unspent(Last(tr), t) && forall m :: |tr.receipts| - j <= m < |tr.receipts| ==> Tid(tr, m) != t
    ensures Unspent(tr.backward[j], t)
  {
    hide Inv, Grows, Advanced, Compensated, Unspent, ReversedTo, ReversalsSmall;
    Turn(digest, legs, tr);
    if j > 0 {
      UnspentBackward(digest, legs, tr, t, j - 1);
      BackwardKeeps(digest, legs, tr, 0, j - 1);
      LegThere(digest, legs, tr, j - 1);
      ReversalAt(digest, legs, tr, j - 1);
      UnspentReversal(digest, tr.backward[j - 1], t, Tid(tr, |tr.receipts| - j), tr.backward[j]);
    }
  }

  lemma UnspentReversal(digest: Digest, s: State, t: EnvelopeId, u: EnvelopeId, s': State)
    requires Inv(s) && Unspent(s, t) && u != t
    requires u in s.transfers && |Consumes(s, u)| <= TWO16 && ReversedTo(digest, s, u, s')
    ensures Unspent(s', t)
  {
    hide Inv, Unspent, ReversedTo, Recorded;
    ReversalCases(digest, s, u, s');
    var p := Reversal(digest, s, u).value;
    if !Replied(digest, s, p, s') {
      UnspentKept(digest, s, t, p, s');
    }
  }

  /** Stored transfers are filed under their own content hash, and the reversals' hashes
      collide with no other content. */
  ghost predicate Genuine(digest: Digest, s: State, p: Envelope) {
    && (forall t :: t in s.transfers ==> EnvelopeIdOf(digest, s.transfers[t].envelope) == t && Encodable(s.transfers[t].envelope))
    && Encodable(p)
    && (forall t :: t in s.transfers && digest(EnvelopeBytes(p)) == t ==> EnvelopeBytes(p) == EnvelopeBytes(s.transfers[t].envelope))
  }

  /** The hashes of what the run commits and reverses collide with no other content. */
  ghost predicate AllGenuine(digest: Digest, legs: seq<Leg>, tr: Trace)
    requires Shaped(tr)
  {
    && LegsGenuine(digest, legs, tr)
    && forall j :: 0 <= j < |tr.receipts| && Reversal(digest, tr.backward[j], Tid(tr, |tr.receipts| - 1 - j)).Some? ==>
      Genuine(digest, tr.backward[j], Reversal(digest, tr.backward[j], Tid(tr, |tr.receipts| - 1 - j)).value)
  }

  ghost predicate LegsGenuine(digest: Digest, legs: seq<Leg>, tr: Trace)
    requires Whole(tr)
  {
    forall k, e :: 0 <= k < |tr.receipts| && k < |legs| && Carries(digest, tr.forward[k], legs[k], e) ==> Genuine(digest, tr.forward[k], e)
  }

  lemma SameIdSameContent(digest: Digest, s: State, p: Envelope)
    requires Genuine(digest, s, p) && EnvelopeIdOf(digest, p) in s.transfers
    ensures Consumes(s, EnvelopeIdOf(digest, p)) == p.consumes
    ensures SameHoldings(s.transfers[EnvelopeIdOf(digest, p)].envelope, p)
  {
    var e := s.transfers[EnvelopeIdOf(digest, p)].envelope;
    EnvelopeBytesIdentify(p, e);
    assert Economic(p).consumes == Economic(e).consumes && Economic(p).creates == Economic(e).creates;
    forall i | 0 <= i < |p.creates| ensures e.creates[i].owner == p.creates[i].owner && e.creates[i].asset == p.creates[i].asset {
      assert Economic(p).creates[i] == Economic(e).creates[i];
    }
  }

  /** They create as many postings in the same holdings. */
  predicate SameHoldings(e: Envelope, p: Envelope) {
    |e.creates| == |p.creates| && forall i :: 0 <= i < |p.creates| ==> e.creates[i].owner == p.creates[i].owner && e.creates[i].asset == p.creates[i].asset
  }

  lemma ReversalIsNew(digest: Digest, s: State, t: EnvelopeId, s': State)
    requires Inv(s) && Unspent(s, t) && t in s.transfers && s.transfers[t].envelope.creates != [] && |Consumes(s, t)| <= TWO16
    requires ReversedTo(digest, s, t, s')
    requires Reversal(digest, s, t).Some? ==> Genuine(digest, s, Reversal(digest, s, t).value)
    ensures s' != s
  {
    hide Inv, ReversedTo, Recorded, Genuine, Reversal;
    ReversalCases(digest, s, t, s');
    var p := Reversal(digest, s, t).value;
    assert p.consumes[0] in p.consumes && p.consumes[0].transfer == t;
    if EnvelopeIdOf(digest, p) in s.transfers {
      SameIdSameContent(digest, s, p);
    }
    RecordedIsNew(digest, s, p, s');
  }

  /** Every leg's transfer creates something, also one answered from the log. */
  lemma LegCreates(digest: Digest, legs: seq<Leg>, tr: Trace, k: nat)
    requires Whole(tr) && Advanced(digest, legs, tr) && Inv(tr.forward[0]) && LegsGenuine(digest, legs, tr) && k < |tr.receipts|
    ensures Tid(tr, k) in tr.forward[k + 1].transfers && tr.forward[k + 1].transfers[Tid(tr, k)].envelope.creates != []
  {
    hide Inv, Grows, Advanced, LegCommitted, Genuine, Carries, Recorded;
    ForwardKeeps(digest, legs, tr, k, k);
    LegOf(digest, legs, tr, k);
    var e := CommittedLands(digest, tr.forward[k], legs[k], tr.forward[k + 1], tr.receipts[k]);
    if !New(tr, k) {
      SameIdSameContent(digest, tr.forward[k], e);
    }
  }

  /** The last leg with the transfer of leg `k`: the first to be reversed. */
  lemma {:induction false} LastWith(tr: Trace, k: nat) returns (m: nat)
    requires k < |tr.receipts|
    ensures k <= m < |tr.receipts| && Tid(tr, m) == Tid(tr, k) && forall i :: m < i < |tr.receipts| ==> Tid(tr, i) != Tid(tr, k)
    decreases |tr.receipts| - k
  {
    if forall i :: k < i < |tr.receipts| ==> Tid(tr, i) != Tid(tr, k) {
      m := k;
    } else {
      var i :| k < i < |tr.receipts| && Tid(tr, i) == Tid(tr, k);
      m := LastWith(tr, i);
    }
  }

  /** The exact condition: a completed compensation took the transfer of a leg back if and
      only if nothing stored when the forward loop stopped had consumed what it created. */
  lemma EffectiveExactly(digest: Digest, legs: seq<Leg>, tr: Trace, k: nat)
    requires Shaped(tr) && Compensated(digest, legs, tr) && Inv(tr.forward[0]) && ReversalsSmall(tr) && AllGenuine(digest, legs, tr)
    requires k < |tr.receipts|
    ensures Tid(tr, k) in TakenIds(tr, |tr.receipts|) <==> Unspent(Last(tr), Tid(tr, k))
  {
    hide Inv, Advanced, Compensated, ReversalsSmall, AllGenuine, Unspent, FromLog;
    var n := |tr.receipts|;
    if Tid(tr, k) in TakenIds(tr, n) {
      var j :| 0 <= j < n && !FromLog(tr, j) && Tid(tr, n - 1 - j) == Tid(tr, k);
      if !Unspent(Last(tr), Tid(tr, k)) { SpentIsNotReversed(digest, legs, tr, j); }
    }
    if Unspent(Last(tr), Tid(tr, k)) {
      var m := LastWith(tr, k);
      ReversalTakesEffect(digest, legs, tr, n - 1 - m);
      assert Tid(tr, n - 1 - (n - 1 - m)) == Tid(tr, k);
    }
  }

  lemma ReversalTakesEffect(digest: Digest, legs: seq<Leg>, tr: Trace, j: nat)
    requires Shaped(tr) && Compensated(digest, legs, tr) && Inv(tr.forward[0]) && ReversalsSmall(tr) && AllGenuine(digest, legs, tr)
    requires j < |tr.receipts| && Unspent(Last(tr), Tid(tr, |tr.receipts| - 1 - j))
    requires forall m :: |tr.receipts| - j <= m < |tr.receipts| ==> Tid(tr, m) != Tid(tr, |tr.receipts| - 1 - j)
    ensures !FromLog(tr, j)
  {
    hide Inv, Grows, Advanced, Compensated, LegCommitted, ReversedTo, ReversalsSmall, Unspent, Reversal, Genuine, Recorded, LegsGenuine;
    Turn(digest, legs, tr);
    var k := |tr.receipts| - 1 - j;
    UnspentBackward(digest, legs, tr, Tid(tr, k), j);
    BackwardKeeps(digest, legs, tr, 0, j);
    LegThere(digest, legs, tr, j);
    LegCreates(digest, legs, tr, k);
    ReversalAt(digest, legs, tr, j);
    ReversalIsNew(digest, tr.backward[j], Tid(tr, k), tr.backward[j + 1]);
  }

  /** So the balances are back at their start exactly when what the run's own spent transfers
      moved equals what the older, unspent ones had moved. */
  lemma CompensationLeaves(digest: Digest, legs: seq<Leg>, tr: Trace, sl: Slice)
    requires Shaped(tr) && Compensated(digest, legs, tr) && Inv(tr.forward[0]) && ReversalsSmall(tr) && AllGenuine(digest, legs, tr)
    ensures LiveSum(tr.backward[|tr.receipts|], sl) == LiveSum(tr.forward[0], sl)
      + MovedBy(tr, sl, SpentNew(tr)) - MovedBy(tr, sl, UnspentOld(tr))
  {
    hide Inv, Grows, Advanced, Compensated, ReversalsSmall, AllGenuine, Unspent, LiveSum, FromLog, MovedBy, New;
    var n := |tr.receipts|;
    CompensationBalance(digest, legs, tr, sl);
    forall k | 0 <= k < n ensures Tid(tr, k) in TakenIds(tr, n) <==> Unspent(Last(tr), Tid(tr, k)) {
      EffectiveExactly(digest, legs, tr, k);
    }
    forall t | t in TakenIds(tr, n) ensures exists k :: 0 <= k < n && Tid(tr, k) == t {
      var i :| 0 <= i < n && !FromLog(tr, i) && Tid(tr, n - 1 - i) == t;
    }
    assert NewIds(tr, n) - TakenIds(tr, n) == SpentNew(tr);
    assert TakenIds(tr, n) - NewIds(tr, n) == UnspentOld(tr);
  }

  /** The run's own transfers that something consumed from. */
  ghost function SpentNew(tr: Trace): set<EnvelopeId>
    requires Whole(tr)
  {
    set t | t in NewIds(tr, |tr.receipts|) && !Unspent(Last(tr), t)
  }

  /** The older transfers among the receipts that nothing consumed from. */
  ghost function UnspentOld(tr: Trace): set<EnvelopeId>
    requires Whole(tr)
  {
    set k | 0 <= k < |tr.receipts| && Tid(tr, k) !in NewIds(tr, |tr.receipts|) && Unspent(Last(tr), Tid(tr, k)) :: Tid(tr, k)
  }

  /** The reversal was in the log before its turn came. */
  ghost predicate ReversalStored(digest: Digest, tr: Trace, j: nat)
    requires Shaped(tr) && j < |tr.receipts|
  {
    var p := Reversal(digest, tr.backward[j], Tid(tr, |tr.receipts| - 1 - j));
    p.Some? && EnvelopeIdOf(digest, p.value) in tr.backward[j].transfers
  }

  lemma AnsweredFromLog(digest: Digest, legs: seq<Leg>, tr: Trace, j: nat)
    requires Shaped(tr) && Compensated(digest, legs, tr) && Inv(tr.forward[0]) && ReversalsSmall(tr) && j < |tr.receipts|
    ensures FromLog(tr, j) <==> ReversalStored(digest, tr, j)
  {
    hide Inv, Grows, Advanced, Compensated, LegCommitted, ReversedTo, ReversalsSmall, Reversal, Recorded;
    var s, t, s' := tr.backward[j], Tid(tr, |tr.receipts| - 1 - j), tr.backward[j + 1];
    BackwardKeeps(digest, legs, tr, 0, j);
    LegThere(digest, legs, tr, j);
    ReversalAt(digest, legs, tr, j);
    ReversalCases(digest, s, t, s');
    var p := Reversal(digest, s, t).value;
    if Recorded(digest, s, p, s') {
      RecordedIsNew(digest, s, p, s');
      RecordedEffect(digest, s, p, s');
    }
  }
}

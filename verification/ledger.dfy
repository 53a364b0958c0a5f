/** The ledger's client operations as they run one after another: committing an
    envelope, reversing a transfer, resolving and committing an intent
    (crates/kuatia/src/ledger/commit.rs).  Each is a relation between the store state
    it starts from, the one it leaves and its answer. */
module LedgerOps {
  import opened Wrappers
  import opened Domain
  import opened Totals
  import opened Amounts
  import opened Events
  import opened Store
  import opened Sorting
  import opened Canonical
  import opened Validate
  import opened Runs
  import opened RunProofs
  import Resolution
  import Balance

  const DEFAULT_BOOK: BookId := 0

  datatype LedgerError =
    | StoreFailed
    | BookNotFound(book: BookId)
    | Invalid(reason: ValidationError)
    | RejectedByStore(rejection: CommitRejection)
    | TransferNotFound(id: EnvelopeId)
    | ResolveFailed(error: Resolution.ResolveError)
    | AmountOverflow
    | CompensationFailed(original: LedgerError, compensation: LedgerError)

  type Answer = Result<Receipt, LedgerError>

  // ----- commit_envelope -----

  function CreateOwners(e: Envelope): seq<AccountId> {
    SortDedup(AccountLess, seq(|e.creates|, i requires 0 <= i < |e.creates| => e.creates[i].owner))
  }

  /** `resolve_snapshots`: the current version of each account, all of which must exist. */
  function SnapshotsOf(digest: Digest, s: State, ids: seq<AccountId>): Option<seq<AccountSnapshotId>> {
    if forall i :: 0 <= i < |ids| ==> Head(s, ids[i]).Some?
    then Some(seq(|ids|, i requires 0 <= i < |ids| && Head(s, ids[i]).Some? =>
      AccountSnapshotId(ids[i], AccountHash(digest, Head(s, ids[i]).value))))
    else None
  }

  /** An envelope without snapshots is pinned to its destinations' current versions. */
  function WithSnapshots(digest: Digest, s: State, e: Envelope): Option<Envelope> {
    if e.snapshots != [] then Some(e)
    else
      match SnapshotsOf(digest, s, CreateOwners(e))
      case None => None
      case Some(snaps) => Some(e.(snapshots := snaps))
  }

  /** What `load` reads when nothing else runs: one state throughout. */
  ghost predicate LoadedNow(s: State, e: Envelope, l: Loaded) {
    && LoadedFrom([s], e, l)
    && l.book == (if e.book in s.books then Some(s.books[e.book]) else None)
    && (e.book in s.books || e.book == DEFAULT_BOOK)
  }

  /** An account validation will look up is missing, or a balance it will read may not
      add up. */
  ghost predicate ReadMayFail(s: State, e: Envelope, consumed: seq<Posting>) {
    || (exists a :: a in Required(e, consumed).accounts && Head(s, a).None?)
    || (exists key :: key in Required(e, consumed).balances && Balance.Unsummable(s, key.0, key.1))
  }

  /** The reasons `load` has to fail, by what it answers. */
  ghost predicate LoadMayFail(s: State, e: Envelope, error: LedgerError) {
    match error
    case StoreFailed =>
      || (exists id :: id in e.consumes && id !in s.immutable)
      || (exists consumed :: PostingsRead(s, e.consumes, consumed) && ReadMayFail(s, e, consumed))
    case BookNotFound(b) => b == e.book && b !in s.books && b != 0
    case _ => false
  }

  function AnswerOf(r: CommitResult): Answer {
    match r
    case Err(_) => Err(StoreFailed)
    case Ok(Committed(receipt)) => Ok(receipt)
    case Ok(AlreadyCommitted(receipt)) => Ok(receipt)
    case Ok(Rejected(reason)) => Err(RejectedByStore(reason))
  }

  /** Validation of what was loaded refused. */
  ghost predicate Refused(digest: Digest, s: State, e: Envelope, l: Loaded, reason: ValidationError) {
    var inp := InputOf(e, l);
    LoadedNow(s, e, l) && !Acceptable(digest, inp) && Justified(digest, inp, reason)
  }

  /** Validation accepted, and the store decided. */
  ghost predicate Submitted(digest: Digest, s: State, e: Envelope, l: Loaded, ts: i64, s': State, out: CommitResult) {
    LoadedNow(s, e, l) && Acceptable(digest, InputOf(e, l)) && Commits(s, RequestOf(digest, e, l, ts), s', out)
  }

  /** `commit_envelope` after its snapshots are pinned. */
  ghost predicate CommitsPinned(digest: Digest, s: State, e: Envelope, ts: i64, s': State, r: Answer) {
    var tid := EnvelopeIdOf(digest, e);
    if tid in s.transfers then s' == s && r == Ok(s.transfers[tid].receipt)
    else
      || (s' == s && r.Err? && LoadMayFail(s, e, r.error))
      || (s' == s && r.Err? && r.error.Invalid? && exists l :: Refused(digest, s, e, l, r.error.reason))
      || (exists l, out :: Submitted(digest, s, e, l, ts, s', out) && r == AnswerOf(out))
  }

  ghost predicate CommitsEnvelope(digest: Digest, s: State, e: Envelope, ts: i64, s': State, r: Answer) {
    match WithSnapshots(digest, s, e)
    case None => s' == s && r == Err(StoreFailed)
    case Some(p) => CommitsPinned(digest, s, p, ts, s', r)
  }

  // ----- what a commit amounts to -----

  /** `p` was not in the log, and the step to `s'` applied it and nothing else. */
  ghost predicate Recorded(digest: Digest, s: State, p: Envelope, s': State) {
    exists l, ts :: Ready(s, RequestOf(digest, p, l, ts)) && s' == Applied(s, RequestOf(digest, p, l, ts))
  }

  /** The answer was already in the log. */
  ghost predicate Replied(digest: Digest, s: State, p: Envelope, s': State) {
    EnvelopeIdOf(digest, p) in s.transfers && s' == s
  }

  /** A sequential commit keeps the invariant; a failure changes nothing; a success either
      found the transfer in the log or recorded it. */
  lemma CommitDecides(digest: Digest, s: State, p: Envelope, ts: i64, s': State, r: Answer)
    requires Inv(s) && |p.creates| <= TWO16 && CommitsPinned(digest, s, p, ts, s', r)
    ensures Inv(s') && Grows(s, s')
    ensures r.Err? ==> s' == s
    ensures r.Ok? ==> r.value == Receipt(EnvelopeIdOf(digest, p))
    ensures r.Ok? ==> Replied(digest, s, p, s') || Recorded(digest, s, p, s')
  {
    hide Inv, Grows, Refused, Submitted, LoadMayFail, Recorded;
    SameState(s);
    if EnvelopeIdOf(digest, p) in s.transfers {
      StoredReceipt(s, EnvelopeIdOf(digest, p));
    } else if l, out :| Submitted(digest, s, p, l, ts, s', out) && r == AnswerOf(out) {
      SequentialCommit(digest, s, p, l, ts, s', out);
    }
  }

  lemma SameState(s: State)
    requires Inv(s)
    ensures Grows(s, s)
  {
    GrowsRefl(s);
  }

  lemma StoredReceipt(s: State, t: EnvelopeId)
    requires Inv(s) && t in s.transfers
    ensures s.transfers[t].receipt == Receipt(t)
  {
  }

  lemma SequentialCommit(digest: Digest, s: State, p: Envelope, l: Loaded, ts: i64, s': State, out: CommitResult)
    requires Inv(s) && |p.creates| <= TWO16 && EnvelopeIdOf(digest, p) !in s.transfers
    requires Submitted(digest, s, p, l, ts, s', out)
    ensures Inv(s') && Grows(s, s')
    ensures var r := AnswerOf(out);
      && (r.Err? ==> s' == s)
      && (r.Ok? ==> r.value == Receipt(EnvelopeIdOf(digest, p)) && Recorded(digest, s, p, s'))
  {
    hide Inv, Grows, Ready, Applied, Commits, StepTo, History, RequestOf, Acceptable, LoadedFrom, Guard, AnswerOf;
    SingleHistory(s);
    SubmittedStep(digest, s, p, l, ts, s', out);
    RequestIds(digest, p, l, ts);
    CommitStepReady(digest, [s], p, l, ts, s');
    CommitStepKeepsInv(digest, [s], p, l, ts, s');
    StoreAnswers(s, RequestOf(digest, p, l, ts), s', out);
  }

  lemma RequestIds(digest: Digest, p: Envelope, l: Loaded, ts: i64)
    ensures RequestOf(digest, p, l, ts).transferId == EnvelopeIdOf(digest, p)
    ensures RequestOf(digest, p, l, ts).record.receipt == Receipt(EnvelopeIdOf(digest, p))
  {
  }

  lemma SingleHistory(s: State)
    requires Inv(s)
    ensures History([s])
  {
    hide Inv, Grows;
    SameState(s);
  }

  lemma SubmittedStep(digest: Digest, s: State, p: Envelope, l: Loaded, ts: i64, s': State, out: CommitResult)
    requires |p.creates| <= TWO16 && Submitted(digest, s, p, l, ts, s', out)
    ensures StepTo(digest, [s], DoCommit(p, l, ts), s')
    ensures Commits(s, RequestOf(digest, p, l, ts), s', out)
  {
    hide Acceptable, LoadedFrom, Commits, RequestOf;
    var past := [s];
    assert past[|past| - 1] == s;
    assert Commits(past[|past| - 1], RequestOf(digest, p, l, ts), s', out);
  }

  /** For a transfer the log does not hold, success means it was applied, and anything
      else that nothing was. */
  lemma StoreAnswers(s: State, req: CommitRequest, s': State, out: CommitResult)
    requires req.transferId !in s.transfers && Commits(s, req, s', out)
    ensures AnswerOf(out).Err? ==> s' == s
    ensures AnswerOf(out).Ok? ==> Guard(s, req).None? && s' == Applied(s, req) && AnswerOf(out).value == req.record.receipt
  {
    GuardAnswers(s, req);
    hide Guard, FloorHolds, FloorSafe, FloorBreached, Applied;
  }

  /** For a transfer the log does not hold, a guard that decides decides against it. */
  lemma GuardAnswers(s: State, req: CommitRequest)
    requires req.transferId !in s.transfers
    ensures Guard(s, req).Some? ==> AnswerOf(Guard(s, req).value).Err?
  {
    LifecycleAnswers(s, req.involved);
    DoubleSpendAnswers(s, req.consume);
  }

  lemma {:induction false} LifecycleAnswers(s: State, involved: seq<AccountId>)
    ensures LifecycleGuard(s, involved).Some? ==> AnswerOf(LifecycleGuard(s, involved).value).Err?
  {
    if involved != [] {
      LifecycleAnswers(s, involved[1..]);
    }
  }

  lemma {:induction false} DoubleSpendAnswers(s: State, consume: seq<PostingId>)
    ensures DoubleSpendGuard(s, consume).Some? ==> AnswerOf(DoubleSpendGuard(s, consume).value).Err?
  {
    if consume != [] {
      DoubleSpendAnswers(s, consume[1..]);
    }
  }

  /** What recording `p` does: its transfer is new, what it consumes was active, and every
      slice moves by its delta. */
  lemma RecordedEffect(digest: Digest, s: State, p: Envelope, s': State)
    requires Inv(s) && Recorded(digest, s, p, s')
    ensures var tid := EnvelopeIdOf(digest, p);
      && tid !in s.transfers && tid in s'.transfers && s'.transfers[tid].envelope == p
      && (forall t :: t in s'.transfers <==> t == tid || t in s.transfers)
      && (forall t :: t in s.transfers ==> s'.transfers[t] == s.transfers[t])
      && (forall id :: id in p.consumes ==> id in s.active)
      && s'.accounts == s.accounts
  {
    hide Inv, EnvelopeIdOf, PutAbsent, Put, Append;
    var l, ts :| Ready(s, RequestOf(digest, p, l, ts)) && s' == Applied(s, RequestOf(digest, p, l, ts));
    assert EnvelopeIdOf(digest, p) !in s.transfers;
    hide Ready;
  }

  lemma RecordedSum(digest: Digest, s: State, p: Envelope, s': State, sl: Slice)
    requires Inv(s) && Recorded(digest, s, p, s')
    ensures LiveSum(s', sl) == LiveSum(s, sl) + SumNew(sl, p.creates) - SumIds(sl, s.immutable, p.consumes)
    ensures EnvelopeIdOf(digest, p) in s'.transfers &&
      Delta(s', EnvelopeIdOf(digest, p), sl) == SumNew(sl, p.creates) - SumIds(sl, s.immutable, p.consumes)
  {
    var l, ts :| Ready(s, RequestOf(digest, p, l, ts)) && s' == Applied(s, RequestOf(digest, p, l, ts));
    var req := RequestOf(digest, p, l, ts);
    AppliedLiveSum(s, req, sl);
    AppliedDelta(s, req, sl, req.transferId);
  }

  // ----- reverse -----

  /** The ids a transfer gave the postings it created. */
  function CreatedIds(tid: EnvelopeId, n: nat): (ids: seq<PostingId>)
    ensures |ids| == n
  {
    seq(n, i requires 0 <= i < n => PostingId(tid, i % 0x1_0000))
  }

  function Returned(rows: map<PostingId, Posting>, ids: seq<PostingId>): (r: seq<NewPosting>)
    requires forall i :: 0 <= i < |ids| ==> ids[i] in rows
    ensures |r| == |ids|
  {
    seq(|ids|, i requires 0 <= i < |ids| =>
      NewPosting(rows[ids[i]].owner, rows[ids[i]].asset, rows[ids[i]].value, None))
  }

  /** Consume what the transfer created, give back what it consumed. */
  function ReversalOf(s: State, t: EnvelopeId): Option<Envelope>
    requires t in s.transfers
  {
    var e := s.transfers[t].envelope;
    if forall i :: 0 <= i < |e.consumes| ==> e.consumes[i] in s.immutable
    then Some(Envelope(CreatedIds(s.transfers[t].receipt.transferId, |e.creates|), Returned(s.immutable, e.consumes), [], e.book, e.metadata))
    else None
  }

  ghost predicate Reverses(digest: Digest, s: State, t: EnvelopeId, ts: i64, s': State, r: Answer) {
    if t !in s.transfers then s' == s && r == Err(TransferNotFound(t))
    else
      match ReversalOf(s, t)
      case None => s' == s && r == Err(StoreFailed)
      case Some(e) => CommitsEnvelope(digest, s, e, ts, s', r)
  }

  lemma {:induction false} ReturnedSum(sl: Slice, rows: map<PostingId, Posting>, ids: seq<PostingId>)
    requires forall i :: 0 <= i < |ids| ==> ids[i] in rows
    ensures SumNew(sl, Returned(rows, ids)) == SumIds(sl, rows, ids)
  {
    if ids != [] {
      ReturnedSum(sl, rows, ids[..|ids| - 1]);
      assert Returned(rows, ids)[..|ids| - 1] == Returned(rows, ids[..|ids| - 1]);
    }
  }

  /** The postings a stored transfer created are worth what its envelope says. */
  lemma {:induction false} CreatedSum(s: State, sl: Slice, t: EnvelopeId, k: nat)
    requires ProvenanceOk(s) && t in s.transfers && k <= |s.transfers[t].envelope.creates|
    ensures SumIds(sl, s.immutable, CreatedIds(t, k)) == SumNew(sl, s.transfers[t].envelope.creates[..k])
  {
    if k > 0 {
      var creates := s.transfers[t].envelope.creates;
      CreatedSum(s, sl, t, k - 1);
      assert CreatedIds(t, k)[..k - 1] == CreatedIds(t, k - 1);
      assert creates[..k][..k - 1] == creates[..k - 1];
      assert CreatedBy(s, t, k - 1);
    }
  }

  /** The reversal's delta is the exact negative of the transfer's, over every slice. */
  lemma ReversalDelta(s: State, sl: Slice, t: EnvelopeId)
    requires SpentOk(s) && ProvenanceOk(s) && t in s.transfers
    ensures ReversalOf(s, t).Some?
    ensures var e := ReversalOf(s, t).value;
      SumNew(sl, e.creates) - SumIds(sl, s.immutable, e.consumes) == -Delta(s, t, sl)
  {
    var o := s.transfers[t].envelope;
    ConsumedRows(s, t);
    ReturnedSum(sl, s.immutable, o.consumes);
    CreatedSum(s, sl, t, |o.creates|);
    assert o.creates[..|o.creates|] == o.creates;
    assert s.transfers[t].receipt == Receipt(t);
    hide SpentOk, ProvenanceOk, SumNew, SumIds, Returned, CreatedIds;
  }

  lemma ConsumedRows(s: State, t: EnvelopeId)
    requires SpentOk(s) && t in s.transfers
    ensures var e := s.transfers[t].envelope; forall i :: 0 <= i < |e.consumes| ==> e.consumes[i] in s.immutable
  {
    var e := s.transfers[t].envelope;
    forall i | 0 <= i < |e.consumes| ensures e.consumes[i] in s.immutable {
      assert e.consumes[i] in Consumes(s, t);
    }
  }

  /** What reversing `t` did: a failure or an answer from the log changed nothing; otherwise
      every balance moved by the exact negative of what `t` moved it by, and what `t`
      created was still there to take back. */
  ghost predicate Undone(s: State, t: EnvelopeId, s': State, r: Answer, sl: Slice) {
    match r
    case Err(_) => s' == s
    case Ok(receipt) =>
      if receipt.transferId in s.transfers then s' == s
      else
        && t in s.transfers
        && LiveSum(s', sl) == LiveSum(s, sl) - Delta(s, t, sl)
        && forall i :: 0 <= i < |s.transfers[t].envelope.creates| ==> PostingId(t, i % 0x1_0000) in s.active
  }

  lemma ReverseNegates(digest: Digest, s: State, t: EnvelopeId, ts: i64, s': State, r: Answer, sl: Slice)
    requires Inv(s) && t in s.transfers && |Consumes(s, t)| <= TWO16 && Reverses(digest, s, t, ts, s', r)
    ensures Inv(s') && Grows(s, s') && Undone(s, t, s', r, sl)
  {
    hide Inv, Grows, Delta, LiveSum, SumNew, SumIds, CommitsPinned, WithSnapshots;
    LogParts(s);
    ReversalDelta(s, sl, t);
    StoredReceipt(s, t);
    SameState(s);
    var e := ReversalOf(s, t).value;
    var pinned := WithSnapshots(digest, s, e);
    if pinned.Some? {
      ReversedOutcome(digest, s, e, pinned.value, ts, s', r, sl);
      ReversalConsumes(s, t);
    }
  }

  lemma ReversalConsumes(s: State, t: EnvelopeId)
    requires t in s.transfers && s.transfers[t].receipt == Receipt(t) && ReversalOf(s, t).Some?
    ensures var n := |s.transfers[t].envelope.creates|;
      forall i :: 0 <= i < n ==> PostingId(t, i % 0x1_0000) in ReversalOf(s, t).value.consumes
  {
    var ids := ReversalOf(s, t).value.consumes;
    forall i | 0 <= i < |ids| ensures PostingId(t, i % 0x1_0000) in ids {
      assert ids[i] == PostingId(t, i % 0x1_0000);
    }
  }

  ghost predicate Moved(s: State, e: Envelope, s': State, r: Answer, sl: Slice) {
    match r
    case Err(_) => s' == s
    case Ok(receipt) =>
      if receipt.transferId in s.transfers then s' == s
      else
        && LiveSum(s', sl) == LiveSum(s, sl) + SumNew(sl, e.creates) - SumIds(sl, s.immutable, e.consumes)
        && forall id :: id in e.consumes ==> id in s.active
  }

  lemma ReversedOutcome(digest: Digest, s: State, e: Envelope, p: Envelope, ts: i64, s': State, r: Answer, sl: Slice)
    requires Inv(s) && WithSnapshots(digest, s, e) == Some(p) && |e.creates| <= TWO16 && CommitsPinned(digest, s, p, ts, s', r)
    ensures Inv(s') && Grows(s, s') && Moved(s, e, s', r, sl)
  {
    hide WithSnapshots, CommitsPinned, Inv, Grows, Recorded, LiveSum, SumNew, SumIds;
    SnapshotsOnly(digest, s, e);
    CommitDecides(digest, s, p, ts, s', r);
    if r.Ok? && !Replied(digest, s, p, s') {
      RecordedEffect(digest, s, p, s');
      RecordedSum(digest, s, p, s', sl);
    }
  }

  /** Pinning changes nothing but the snapshots. */
  lemma SnapshotsOnly(digest: Digest, s: State, e: Envelope)
    requires WithSnapshots(digest, s, e).Some?
    ensures var p := WithSnapshots(digest, s, e).value; p == e.(snapshots := p.snapshots)
  {
  }
}
